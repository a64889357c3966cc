/** Textures: the descriptor `create_texture` builds, the texture object
    with its mutable sampling flags, and the copy command
    `upload_to_texture` records.  The copy is modelled twice: as the code
    writes it, and corrected.  The device's `UploadToTexture` records the
    copy as written; `UploadToTextureCorrected` records the corrected one. */
module Textures {
  import opened Common
  import opened Errors
  import opened Formats
  import opened Samplers

  /** A `wgpu::TextureDescriptor` for a 2-D texture, without its label,
      dimension and usage. */
  datatype TextureDescriptor = TextureDescriptor(
    width: U32, height: U32, depth: nat,
    mipLevelCount: nat, sampleCount: nat,
    format: WgpuTextureFormat)

  /** The descriptor for a texture of `format` and size `width` x `height`:
      one mip level, one sample, depth 1; a negative side is a panic, the
      width being checked first. */
  function DescriptorFor(format: WgpuTextureFormat, width: I32, height: I32): (r: Result<TextureDescriptor>)
    ensures r.Ok? <==> width >= 0 && height >= 0
    ensures width < 0 ==> r == Err(NegativeValue(width))
    ensures width >= 0 && height < 0 ==> r == Err(NegativeValue(height))
    ensures r.Ok? ==> r.value == TextureDescriptor(width, height, 1, 1, 1, format)
  {
    match ExpectUnsigned(width)
    case Err(f) => Err(f)
    case Ok(w) =>
      match ExpectUnsigned(height)
      case Err(f) => Err(f)
      case Ok(h) => Ok(TextureDescriptor(w, h, 1, 1, 1, format))
  }

  /** `WebGpuTexture`: the wgpu texture (an opaque id and its descriptor),
      the pathfinder size and format, and the two `Cell`s. */
  class Texture {
    const gpuTexture: nat
    const descriptor: TextureDescriptor
    const width: I32
    const height: I32
    const format: TextureFormat
    var samplingFlags: SamplingFlags
    var dirty: bool

    constructor (gpuTexture: nat, format: TextureFormat, width: I32, height: I32, descriptor: TextureDescriptor)
      ensures this.gpuTexture == gpuTexture && this.format == format
      ensures this.width == width && this.height == height && this.descriptor == descriptor
      ensures samplingFlags == NO_FLAGS && !dirty
    {
      this.gpuTexture := gpuTexture;
      this.format := format;
      this.width := width;
      this.height := height;
      this.descriptor := descriptor;
      samplingFlags := NO_FLAGS;
      dirty := false;
    }

    /** `set_texture_sampling_mode`: replaces the flags; nothing else.
        No draw reads the flags back: the backend binds no samplers. */
    method SetSamplingMode(flags: SamplingFlags)
      modifies this
      ensures samplingFlags == flags
      ensures dirty == old(dirty)
    {
      samplingFlags := flags;
    }
  }

  // ---------------------------------------------------------------------
  // Upload data
  // ---------------------------------------------------------------------

  /** `TextureDataRef`: a slice of `u8`, of half floats or of `f32`, by
      element count. */
  datatype TextureData = U8Data(count: nat) | F16Data(count: nat) | F32Data(count: nat)

  function ElementSize(d: TextureData): nat {
    match d
    case U8Data(_) => 1
    case F16Data(_) => 2
    case F32Data(_) => 4
  }

  /** The byte length of the staging buffer the upload creates. */
  function DataByteLength(d: TextureData): (n: nat)
    ensures n == d.count * ElementSize(d)
  {
    match d
    case U8Data(c) => c
    case F16Data(c) => c * 2
    case F32Data(c) => c * 4
  }

  /** The data expected for a rectangle of `width` x `height` texels:
      elements of the format's channel type, one per channel of every
      texel.  The check `upload_to_texture` delegates to pathfinder_gpu's
      `check_and_extract_data_ptr` is not part of this model; this
      predicate is the model's assumption of what it accepts, and it is
      used only as a hypothesis. */
  predicate DataMatches(d: TextureData, format: TextureFormat, width: nat, height: nat) {
    && ElementSize(d) == Layout(format).bytesPerChannel
    && d.count == width * height * Layout(format).channels
  }

  // ---------------------------------------------------------------------
  // The copy command
  // ---------------------------------------------------------------------

  /** The source of a copy: a buffer (id and byte size), the offset the
      copy starts at, and the row and image pitches. */
  datatype BufferCopyView = BufferCopyView(buffer: nat, bufferSize: nat, offset: nat, bytesPerRow: U32, rowsPerImage: U32)

  datatype TextureCopyView = TextureCopyView(texture: nat, mipLevel: nat, arrayLayer: nat, originX: nat, originY: nat, originZ: nat)

  datatype Extent3d = Extent3d(width: U32, height: U32, depth: nat)

  /** `copy_buffer_to_texture` with its three arguments. */
  datatype BufferToTextureCopy = BufferToTextureCopy(source: BufferCopyView, destination: TextureCopyView, extent: Extent3d)

  /** The bytes per texel the row pitch uses, as written: RGBA8 counts
      2 bytes. */
  function TexelSizeAsWritten(format: TextureFormat): nat {
    match format
    case R8 => 1
    case R16F => 2
    case RGBA8 => 2
    case RGBA16F => 4 * 2
    case RGBA32F => 4 * 4
  }

  /** The row pitch as written: the width, which must not be negative,
      times the size above, a `u32` product that panics on overflow. */
  function BytesPerRowAsWritten(width: I32, format: TextureFormat): (r: Result<U32>)
    ensures r.Ok? <==> width >= 0 && FitsU32(width * TexelSizeAsWritten(format))
    ensures width < 0 ==> r == Err(NegativeValue(width))
    ensures width >= 0 && !FitsU32(width * TexelSizeAsWritten(format)) ==> r == Err(Overflow)
    ensures r.Ok? ==> r.value == width * TexelSizeAsWritten(format)
  {
    match ExpectUnsigned(width)
    case Err(f) => Err(f)
    case Ok(w) => CheckedMulU32(w, TexelSizeAsWritten(format))
  }

  /** The row pitch corrected: width times the format's texel size. */
  function BytesPerRow(width: I32, format: TextureFormat): (r: Result<U32>)
    ensures r.Ok? <==> width >= 0 && FitsU32(width * TexelSize(format))
    ensures width < 0 ==> r == Err(NegativeValue(width))
    ensures width >= 0 && !FitsU32(width * TexelSize(format)) ==> r == Err(Overflow)
    ensures r.Ok? ==> r.value == width * TexelSize(format)
  {
    match ExpectUnsigned(width)
    case Err(f) => Err(f)
    case Ok(w) => CheckedMulU32(w, TexelSize(format))
  }

  /** The copy as written, from a staging buffer of `stagingBytes` bytes:
      the whole texture from offset 0 into mip level 1.  The width is
      checked (in the pitch) before the height. */
  function UploadCopyAsWritten(t: Texture, staging: nat, stagingBytes: nat): (r: Result<BufferToTextureCopy>)
    ensures r.Ok? <==> t.width >= 0 && t.height >= 0 && FitsU32(t.width * TexelSizeAsWritten(t.format))
    ensures BytesPerRowAsWritten(t.width, t.format).Err? ==> r == Err(BytesPerRowAsWritten(t.width, t.format).fault)
    ensures BytesPerRowAsWritten(t.width, t.format).Ok? && t.height < 0 ==> r == Err(NegativeValue(t.height))
    ensures r.Ok? ==>
      && r.value.source == BufferCopyView(staging, stagingBytes, 0, t.width * TexelSizeAsWritten(t.format), t.height)
      && r.value.destination == TextureCopyView(t.gpuTexture, 1, 0, 0, 0, 0)
      && r.value.extent == Extent3d(t.width, t.height, 1)
  {
    match BytesPerRowAsWritten(t.width, t.format)
    case Err(f) => Err(f)
    case Ok(bytesPerRow) =>
      match ExpectUnsigned(t.height)
      case Err(f) => Err(f)
      case Ok(h) =>
        Ok(BufferToTextureCopy(
          BufferCopyView(staging, stagingBytes, 0, bytesPerRow, h),
          TextureCopyView(t.gpuTexture, 1, 0, 0, 0, 0),
          Extent3d(t.width, h, 1)))
  }

  /** The copy corrected: the correct row pitch, into mip level 0. */
  function UploadCopy(t: Texture, staging: nat, stagingBytes: nat): (r: Result<BufferToTextureCopy>)
    ensures r.Ok? <==> t.width >= 0 && t.height >= 0 && FitsU32(t.width * TexelSize(t.format))
    ensures BytesPerRow(t.width, t.format).Err? ==> r == Err(BytesPerRow(t.width, t.format).fault)
    ensures BytesPerRow(t.width, t.format).Ok? && t.height < 0 ==> r == Err(NegativeValue(t.height))
    ensures r.Ok? ==>
      && r.value.source == BufferCopyView(staging, stagingBytes, 0, t.width * TexelSize(t.format), t.height)
      && r.value.destination == TextureCopyView(t.gpuTexture, 0, 0, 0, 0, 0)
      && r.value.extent == Extent3d(t.width, t.height, 1)
  {
    match BytesPerRow(t.width, t.format)
    case Err(f) => Err(f)
    case Ok(bytesPerRow) =>
      match ExpectUnsigned(t.height)
      case Err(f) => Err(f)
      case Ok(h) =>
        Ok(BufferToTextureCopy(
          BufferCopyView(staging, stagingBytes, 0, bytesPerRow, h),
          TextureCopyView(t.gpuTexture, 0, 0, 0, 0, 0),
          Extent3d(t.width, h, 1)))
  }

  /** A buffer-to-texture copy that fits the texture level and the staging
      buffer: it targets an existing mip level of a texture with this
      descriptor, stays inside it, reads rows of at least a texel row each,
      and reads no byte past the end of its source buffer.  WebGPU's other
      requirements (texture usage, 256-byte row pitch alignment) are not
      part of it. */
  predicate CopyFits(c: BufferToTextureCopy, d: TextureDescriptor, format: TextureFormat) {
    && c.destination.mipLevel < d.mipLevelCount
    && c.destination.originX + c.extent.width <= d.width
    && c.destination.originY + c.extent.height <= d.height
    && c.source.bytesPerRow >= c.extent.width * TexelSize(format)
    && c.source.offset + c.source.bytesPerRow * c.extent.height <= c.source.bufferSize
  }

  /** A texture as `create_texture` makes it. */
  predicate Created(t: Texture) {
    && t.width >= 0 && t.height >= 0
    && t.descriptor == TextureDescriptor(t.width, t.height, 1, 1, 1, TextureFormatToWgpu(t.format))
  }

  /** The corrected copy from a staging buffer holding data that matches
      the whole texture fits the texture level and the buffer, and reads
      that buffer exactly to its end. */
  lemma UploadCopyFits(t: Texture, staging: nat, data: TextureData)
    requires Created(t)
    requires FitsU32(t.width * TexelSize(t.format))
    requires DataMatches(data, t.format, t.width, t.height)
    ensures UploadCopy(t, staging, DataByteLength(data)).Ok?
    ensures CopyFits(UploadCopy(t, staging, DataByteLength(data)).value, t.descriptor, t.format)
    ensures UploadCopy(t, staging, DataByteLength(data)).value.source.bytesPerRow * t.height == DataByteLength(data)
  {
    var c := UploadCopy(t, staging, DataByteLength(data)).value;
    assert c.source.bytesPerRow * c.extent.height == t.width * TexelSize(t.format) * t.height;
  }

  /** The copy as written never fits a texture `create_texture` made,
      whatever its source: that texture has one mip level, and the copy
      targets level 1. */
  lemma UploadCopyAsWrittenTargetsMissingLevel(t: Texture, staging: nat, stagingBytes: nat)
    requires Created(t)
    requires UploadCopyAsWritten(t, staging, stagingBytes).Ok?
    ensures UploadCopyAsWritten(t, staging, stagingBytes).value.destination.mipLevel == 1
    ensures !CopyFits(UploadCopyAsWritten(t, staging, stagingBytes).value, t.descriptor, t.format)
  {
  }

  /** As written, an RGBA8 row pitch is half the row's byte length, so any
      RGBA8 texture of positive width fails the pitch requirement; the other
      formats agree with the correction. */
  lemma BytesPerRowAsWrittenRgba8(width: I32, format: TextureFormat)
    requires width > 0
    requires BytesPerRowAsWritten(width, format).Ok? && BytesPerRow(width, format).Ok?
    ensures format == RGBA8 ==>
      2 * BytesPerRowAsWritten(width, format).value == BytesPerRow(width, format).value
      && BytesPerRowAsWritten(width, format).value < width * TexelSize(format)
    ensures format != RGBA8 ==> BytesPerRowAsWritten(width, format) == BytesPerRow(width, format)
  {
  }

  /** The smallest instance: a 1-texel-wide RGBA8 texture gets a 2-byte
      row pitch for its 4-byte rows. */
  lemma BytesPerRowAsWrittenOneTexel()
    ensures BytesPerRowAsWritten(1, RGBA8) == Ok(2)
    ensures BytesPerRow(1, RGBA8) == Ok(4)
  {
  }

  /** The two pitches also overflow at different widths: an RGBA8 texture
      2^30 texels wide gets a pitch of 2^31 as written, while its true
      row length of 2^32 bytes does not fit a `u32`. */
  lemma BytesPerRowAsWrittenWide()
    ensures BytesPerRowAsWritten(0x4000_0000, RGBA8) == Ok(0x8000_0000)
    ensures BytesPerRow(0x4000_0000, RGBA8) == Err(Overflow)
  {
  }
}
