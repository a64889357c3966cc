/** The pure mappings from pathfinder's device-independent enumerations
    onto wgpu's: texture formats, vertex attribute formats, blend factors
    and operations, and depth/stencil comparison functions.  Each mapping
    comes with an independent description of what its values mean (texel
    layout, component layout, blend and comparison semantics) so that the
    lemmas can say the mapping preserves meaning. */
module Formats {
  import opened Common

  // ---------------------------------------------------------------------
  // Texture formats
  // ---------------------------------------------------------------------

  /** pathfinder's logical pixel formats. */
  datatype TextureFormat = R8 | R16F | RGBA8 | RGBA16F | RGBA32F

  /** The wgpu texture formats this backend names anywhere. */
  datatype WgpuTextureFormat =
    | R8Unorm | R16Float | Rgba8Unorm | Rgba16Float | Rgba32Float
    | Bgra8Unorm            // the swap chain's format
    | Depth24PlusStencil8   // the main depth/stencil texture's format

  function TextureFormatToWgpu(format: TextureFormat): WgpuTextureFormat {
    match format
    case R8 => R8Unorm
    case R16F => R16Float
    case RGBA8 => Rgba8Unorm
    case RGBA16F => Rgba16Float
    case RGBA32F => Rgba32Float
  }

  /** Left inverse of TextureFormatToWgpu on the colour formats. */
  function WgpuToTextureFormat(format: WgpuTextureFormat): Option<TextureFormat> {
    match format
    case R8Unorm => Some(R8)
    case R16Float => Some(R16F)
    case Rgba8Unorm => Some(RGBA8)
    case Rgba16Float => Some(RGBA16F)
    case Rgba32Float => Some(RGBA32F)
    case Bgra8Unorm => None
    case Depth24PlusStencil8 => None
  }

  /** How a texel is stored: channel count, bytes per channel, and whether
      the channels are floating point (otherwise unsigned normalised). */
  datatype TexelLayout = TexelLayout(channels: nat, bytesPerChannel: nat, isFloat: bool)

  /** The layout pathfinder's format names promise. */
  function Layout(format: TextureFormat): TexelLayout {
    match format
    case R8 => TexelLayout(1, 1, false)
    case R16F => TexelLayout(1, 2, true)
    case RGBA8 => TexelLayout(4, 1, false)
    case RGBA16F => TexelLayout(4, 2, true)
    case RGBA32F => TexelLayout(4, 4, true)
  }

  /** The layout of a wgpu colour format (None for the depth format). */
  function WgpuLayout(format: WgpuTextureFormat): Option<TexelLayout> {
    match format
    case R8Unorm => Some(TexelLayout(1, 1, false))
    case R16Float => Some(TexelLayout(1, 2, true))
    case Rgba8Unorm => Some(TexelLayout(4, 1, false))
    case Rgba16Float => Some(TexelLayout(4, 2, true))
    case Rgba32Float => Some(TexelLayout(4, 4, true))
    case Bgra8Unorm => Some(TexelLayout(4, 1, false))
    case Depth24PlusStencil8 => None
  }

  /** Bytes one texel of `format` occupies: also the texel size of the
      wgpu format the texture is stored in. */
  function TexelSize(format: TextureFormat): (n: nat)
    ensures n > 0
    ensures WgpuLayout(TextureFormatToWgpu(format)).Some?
    ensures n == WgpuLayout(TextureFormatToWgpu(format)).value.channels * WgpuLayout(TextureFormatToWgpu(format)).value.bytesPerChannel
  {
    Layout(format).channels * Layout(format).bytesPerChannel
  }

  lemma TextureFormatRoundTrip(format: TextureFormat)
    ensures WgpuToTextureFormat(TextureFormatToWgpu(format)) == Some(format)
    ensures TextureFormatToWgpu(format) != Bgra8Unorm
    ensures TextureFormatToWgpu(format) != Depth24PlusStencil8
  {
    match format
    case R8 =>
    case R16F =>
    case RGBA8 =>
    case RGBA16F =>
    case RGBA32F =>
  }

  /** No two pathfinder formats share a wgpu format. */
  lemma TextureFormatInjective(a: TextureFormat, b: TextureFormat)
    ensures TextureFormatToWgpu(a) == TextureFormatToWgpu(b) ==> a == b
  {
    TextureFormatRoundTrip(a);
    TextureFormatRoundTrip(b);
  }

  /** The chosen wgpu format stores texels exactly as the pathfinder
      format describes them. */
  lemma TextureFormatPreservesLayout(format: TextureFormat)
    ensures WgpuLayout(TextureFormatToWgpu(format)) == Some(Layout(format))
  {
    match format
    case R8 =>
    case R16F =>
    case RGBA8 =>
    case RGBA16F =>
    case RGBA32F =>
  }

  // ---------------------------------------------------------------------
  // Vertex attribute formats
  // ---------------------------------------------------------------------

  datatype VertexAttrClass = Float | FloatNorm | Int
  datatype VertexAttrType = F32 | I16 | I8 | U16 | U8

  /** wgpu's vertex formats (all of them, so that "not produced" is visible). */
  datatype VertexFormat =
    | Uchar2 | Uchar4 | Char2 | Char4
    | Uchar2Norm | Uchar4Norm | Char2Norm | Char4Norm
    | Ushort2 | Ushort4 | Short2 | Short4
    | Ushort2Norm | Ushort4Norm | Short2Norm | Short4Norm
    | Half2 | Half4
    | Float1 | Float2 | Float3 | Float4
    | Uint1 | Uint2 | Uint3 | Uint4
    | Int1 | Int2 | Int3 | Int4

  datatype Scalar = Signed8 | Unsigned8 | Signed16 | Unsigned16 | Half | Float32 | Unsigned32 | Signed32

  /** How the shader sees the scalars: as integers, as floats normalised
      from integers, or as floats. */
  datatype Interpretation = AsInteger | AsNormalized | AsFloat

  datatype AttributeLayout = AttributeLayout(scalar: Scalar, interpretation: Interpretation, components: nat)

  /** What each wgpu vertex format reads from the buffer. */
  function FormatLayout(format: VertexFormat): AttributeLayout {
    match format
    case Uchar2 => AttributeLayout(Unsigned8, AsInteger, 2)
    case Uchar4 => AttributeLayout(Unsigned8, AsInteger, 4)
    case Char2 => AttributeLayout(Signed8, AsInteger, 2)
    case Char4 => AttributeLayout(Signed8, AsInteger, 4)
    case Uchar2Norm => AttributeLayout(Unsigned8, AsNormalized, 2)
    case Uchar4Norm => AttributeLayout(Unsigned8, AsNormalized, 4)
    case Char2Norm => AttributeLayout(Signed8, AsNormalized, 2)
    case Char4Norm => AttributeLayout(Signed8, AsNormalized, 4)
    case Ushort2 => AttributeLayout(Unsigned16, AsInteger, 2)
    case Ushort4 => AttributeLayout(Unsigned16, AsInteger, 4)
    case Short2 => AttributeLayout(Signed16, AsInteger, 2)
    case Short4 => AttributeLayout(Signed16, AsInteger, 4)
    case Ushort2Norm => AttributeLayout(Unsigned16, AsNormalized, 2)
    case Ushort4Norm => AttributeLayout(Unsigned16, AsNormalized, 4)
    case Short2Norm => AttributeLayout(Signed16, AsNormalized, 2)
    case Short4Norm => AttributeLayout(Signed16, AsNormalized, 4)
    case Half2 => AttributeLayout(Half, AsFloat, 2)
    case Half4 => AttributeLayout(Half, AsFloat, 4)
    case Float1 => AttributeLayout(Float32, AsFloat, 1)
    case Float2 => AttributeLayout(Float32, AsFloat, 2)
    case Float3 => AttributeLayout(Float32, AsFloat, 3)
    case Float4 => AttributeLayout(Float32, AsFloat, 4)
    case Uint1 => AttributeLayout(Unsigned32, AsInteger, 1)
    case Uint2 => AttributeLayout(Unsigned32, AsInteger, 2)
    case Uint3 => AttributeLayout(Unsigned32, AsInteger, 3)
    case Uint4 => AttributeLayout(Unsigned32, AsInteger, 4)
    case Int1 => AttributeLayout(Signed32, AsInteger, 1)
    case Int2 => AttributeLayout(Signed32, AsInteger, 2)
    case Int3 => AttributeLayout(Signed32, AsInteger, 3)
    case Int4 => AttributeLayout(Signed32, AsInteger, 4)
  }

  function ScalarOf(t: VertexAttrType): Scalar {
    match t
    case F32 => Float32
    case I16 => Signed16
    case I8 => Signed8
    case U16 => Unsigned16
    case U8 => Unsigned8
  }

  function InterpretationOf(c: VertexAttrClass): Interpretation {
    match c
    case Float => AsFloat
    case FloatNorm => AsNormalized
    case Int => AsInteger
  }

  /** The (class, type, size) triples the backend accepts: the 32-bit
      float class with 1 to 4 components, and the 8/16-bit integer and
      normalised classes with 1 to 4 components. */
  predicate Supported(c: VertexAttrClass, t: VertexAttrType, size: nat) {
    1 <= size <= 4 && ((c == Float) == (t == F32))
  }

  /** The vertex format chosen for an attribute; None is the "unsupported
      vertex class/type/size combination" panic.  1- and 3-component
      integer and normalised attributes are padded to 2 and 4 components. */
  function VertexFormatFor(c: VertexAttrClass, t: VertexAttrType, size: nat): Option<VertexFormat> {
    match (c, t, size)
    case (Int, I8, 1) => Some(Char2)
    case (Int, I8, 2) => Some(Char2)
    case (Int, I8, 3) => Some(Char4)
    case (Int, I8, 4) => Some(Char4)
    case (Int, U8, 1) => Some(Uchar2)
    case (Int, U8, 2) => Some(Uchar2)
    case (Int, U8, 3) => Some(Uchar4)
    case (Int, U8, 4) => Some(Uchar4)
    case (FloatNorm, U8, 1) => Some(Uchar2Norm)
    case (FloatNorm, U8, 2) => Some(Uchar2Norm)
    case (FloatNorm, U8, 3) => Some(Uchar4Norm)
    case (FloatNorm, U8, 4) => Some(Uchar4Norm)
    case (FloatNorm, I8, 1) => Some(Char2Norm)
    case (FloatNorm, I8, 2) => Some(Char2Norm)
    case (FloatNorm, I8, 3) => Some(Char4Norm)
    case (FloatNorm, I8, 4) => Some(Char4Norm)
    case (Int, I16, 1) => Some(Short2)
    case (Int, I16, 2) => Some(Short2)
    case (Int, I16, 3) => Some(Short4)
    case (Int, I16, 4) => Some(Short4)
    case (Int, U16, 1) => Some(Ushort2)
    case (Int, U16, 2) => Some(Ushort2)
    case (Int, U16, 3) => Some(Ushort4)
    case (Int, U16, 4) => Some(Ushort4)
    case (FloatNorm, U16, 1) => Some(Ushort2Norm)
    case (FloatNorm, U16, 2) => Some(Ushort2Norm)
    case (FloatNorm, U16, 3) => Some(Ushort4Norm)
    case (FloatNorm, U16, 4) => Some(Ushort4Norm)
    case (FloatNorm, I16, 1) => Some(Short2Norm)
    case (FloatNorm, I16, 2) => Some(Short2Norm)
    case (FloatNorm, I16, 3) => Some(Short4Norm)
    case (FloatNorm, I16, 4) => Some(Short4Norm)
    case (Float, F32, 1) => Some(Float1)
    case (Float, F32, 2) => Some(Float2)
    case (Float, F32, 3) => Some(Float3)
    case (Float, F32, 4) => Some(Float4)
    case _ => None
  }

  /** A format is chosen exactly for the supported triples; every other
      triple is rejected. */
  lemma VertexFormatDefinedIff(c: VertexAttrClass, t: VertexAttrType, size: nat)
    ensures VertexFormatFor(c, t, size).Some? <==> Supported(c, t, size)
  {
    match c
    case Float =>
    case FloatNorm =>
    case Int =>
  }

  /** A chosen format reads the requested scalar type with the requested
      interpretation, and reads exactly `size` components, except that an
      odd component count below 4 of an integer or normalised attribute is
      padded by one. */
  lemma VertexFormatMeaning(c: VertexAttrClass, t: VertexAttrType, size: nat)
    requires VertexFormatFor(c, t, size).Some?
    ensures var layout := FormatLayout(VertexFormatFor(c, t, size).value);
      && layout.scalar == ScalarOf(t)
      && layout.interpretation == InterpretationOf(c)
      && layout.components == (if c == Float then size else size + size % 2)
  {
    match c
    case Float =>
    case FloatNorm =>
    case Int =>
  }

  /** The deliberate padding: for the 8/16-bit classes a 1-component
      attribute gets the 2-component format and a 3-component attribute the
      4-component one. */
  lemma VertexFormatPadding(c: VertexAttrClass, t: VertexAttrType)
    requires c != Float && t != F32
    ensures VertexFormatFor(c, t, 1) == VertexFormatFor(c, t, 2) != None
    ensures VertexFormatFor(c, t, 3) == VertexFormatFor(c, t, 4) != None
    ensures VertexFormatFor(c, t, 2) != VertexFormatFor(c, t, 4)
  {
    match c
    case FloatNorm =>
    case Int =>
  }

  /** 32-bit float attributes are never padded. */
  lemma FloatFormats()
    ensures VertexFormatFor(Float, F32, 1) == Some(Float1)
    ensures VertexFormatFor(Float, F32, 2) == Some(Float2)
    ensures VertexFormatFor(Float, F32, 3) == Some(Float3)
    ensures VertexFormatFor(Float, F32, 4) == Some(Float4)
  {
  }

  // ---------------------------------------------------------------------
  // Blending
  // ---------------------------------------------------------------------

  /** pathfinder's blend factors and operations. */
  datatype BlendFactor = Zero | One | SrcAlpha | OneMinusSrcAlpha | DestAlpha | OneMinusDestAlpha | DestColor
  datatype BlendOp = Add | Subtract | ReverseSubtract | Min | Max

  /** wgpu's blend factors and operations. */
  datatype WgpuBlendFactor =
    | BZero | BOne | BSrcColor | BOneMinusSrcColor | BSrcAlpha | BOneMinusSrcAlpha
    | BDstColor | BOneMinusDstColor | BDstAlpha | BOneMinusDstAlpha
    | BSrcAlphaSaturated | BBlendColor | BOneMinusBlendColor
  datatype BlendOperation = OpAdd | OpSubtract | OpReverseSubtract | OpMin | OpMax

  datatype BlendDescriptor = BlendDescriptor(srcFactor: WgpuBlendFactor, dstFactor: WgpuBlendFactor, operation: BlendOperation)

  /** wgpu's `BlendDescriptor::REPLACE`. */
  const REPLACE := BlendDescriptor(BOne, BZero, OpAdd)

  function ToWgpuBlendFactor(f: BlendFactor): WgpuBlendFactor {
    match f
    case Zero => BZero
    case One => BOne
    case SrcAlpha => BSrcAlpha
    case OneMinusSrcAlpha => BOneMinusSrcAlpha
    case DestAlpha => BDstAlpha
    case OneMinusDestAlpha => BOneMinusDstAlpha
    case DestColor => BDstColor
  }

  function ToWgpuBlendOp(op: BlendOp): BlendOperation {
    match op
    case Add => OpAdd
    case Subtract => OpSubtract
    case ReverseSubtract => OpReverseSubtract
    case Min => OpMin
    case Max => OpMax
  }

  function ToWgpuBlendDescriptor(src: BlendFactor, dst: BlendFactor, op: BlendOp): BlendDescriptor {
    BlendDescriptor(ToWgpuBlendFactor(src), ToWgpuBlendFactor(dst), ToWgpuBlendOp(op))
  }

  /** The values one channel's blend equation sees: the incoming fragment's
      channel and alpha, the stored channel and alpha, and the constant
      blend colour's channel. */
  datatype BlendInputs = BlendInputs(src: real, srcAlpha: real, dst: real, dstAlpha: real, constant: real)

  /** What pathfinder means by each factor (the OpenGL meaning). */
  function PathfinderFactor(f: BlendFactor, i: BlendInputs): real {
    match f
    case Zero => 0.0
    case One => 1.0
    case SrcAlpha => i.srcAlpha
    case OneMinusSrcAlpha => 1.0 - i.srcAlpha
    case DestAlpha => i.dstAlpha
    case OneMinusDestAlpha => 1.0 - i.dstAlpha
    case DestColor => i.dst
  }

  /** A channel value scaled by a blend factor. */
  function Weighted(x: real, factor: real): real { x * factor }

  function MinReal(a: real, b: real): real { if a <= b then a else b }
  function MaxReal(a: real, b: real): real { if a <= b then b else a }

  /** What pathfinder means by a blend equation. */
  function PathfinderBlend(src: BlendFactor, dst: BlendFactor, op: BlendOp, i: BlendInputs): real {
    var s := Weighted(i.src, PathfinderFactor(src, i));
    var d := Weighted(i.dst, PathfinderFactor(dst, i));
    match op
    case Add => s + d
    case Subtract => s - d
    case ReverseSubtract => d - s
    case Min => MinReal(i.src, i.dst)
    case Max => MaxReal(i.src, i.dst)
  }

  /** The WebGPU meaning of each wgpu blend factor. */
  function WgpuFactor(f: WgpuBlendFactor, i: BlendInputs): real {
    match f
    case BZero => 0.0
    case BOne => 1.0
    case BSrcColor => i.src
    case BOneMinusSrcColor => 1.0 - i.src
    case BSrcAlpha => i.srcAlpha
    case BOneMinusSrcAlpha => 1.0 - i.srcAlpha
    case BDstColor => i.dst
    case BOneMinusDstColor => 1.0 - i.dst
    case BDstAlpha => i.dstAlpha
    case BOneMinusDstAlpha => 1.0 - i.dstAlpha
    case BSrcAlphaSaturated => MinReal(i.srcAlpha, 1.0 - i.dstAlpha)
    case BBlendColor => i.constant
    case BOneMinusBlendColor => 1.0 - i.constant
  }

  /** The WebGPU blend equation for one channel; min and max ignore the
      factors. */
  function WgpuBlend(d: BlendDescriptor, i: BlendInputs): real {
    var s := Weighted(i.src, WgpuFactor(d.srcFactor, i));
    var t := Weighted(i.dst, WgpuFactor(d.dstFactor, i));
    match d.operation
    case OpAdd => s + t
    case OpSubtract => s - t
    case OpReverseSubtract => t - s
    case OpMin => MinReal(i.src, i.dst)
    case OpMax => MaxReal(i.src, i.dst)
  }

  /** Each translated factor has pathfinder's meaning. */
  lemma BlendFactorPreservesMeaning(f: BlendFactor, i: BlendInputs)
    ensures WgpuFactor(ToWgpuBlendFactor(f), i) == PathfinderFactor(f, i)
  {
    match f
    case Zero =>
    case One =>
    case SrcAlpha =>
    case OneMinusSrcAlpha =>
    case DestAlpha =>
    case OneMinusDestAlpha =>
    case DestColor =>
  }

  /** The translated blend descriptor computes what pathfinder asked for,
      on every input. */
  lemma BlendDescriptorPreservesMeaning(src: BlendFactor, dst: BlendFactor, op: BlendOp, i: BlendInputs)
    ensures WgpuBlend(ToWgpuBlendDescriptor(src, dst, op), i) == PathfinderBlend(src, dst, op, i)
  {
    BlendFactorPreservesMeaning(src, i);
    BlendFactorPreservesMeaning(dst, i);
  }

  /** REPLACE writes the incoming value and ignores what is stored. */
  lemma ReplaceWritesSource(i: BlendInputs)
    ensures WgpuBlend(REPLACE, i) == i.src
  {
  }

  /** Distinct pathfinder factors and operations stay distinct. */
  lemma BlendMappingInjective(f: BlendFactor, g: BlendFactor, p: BlendOp, q: BlendOp)
    ensures ToWgpuBlendFactor(f) == ToWgpuBlendFactor(g) ==> f == g
    ensures ToWgpuBlendOp(p) == ToWgpuBlendOp(q) ==> p == q
  {
  }

  // ---------------------------------------------------------------------
  // Depth and stencil comparison functions
  // ---------------------------------------------------------------------

  datatype DepthFunc = Less | Always
  datatype StencilFunc = StencilAlways | StencilEqual

  datatype CompareFunction = Never | CLess | CEqual | CLessEqual | CGreater | CNotEqual | CGreaterEqual | CAlways

  function DepthFuncToWgpu(f: DepthFunc): CompareFunction {
    match f
    case Less => CLess
    case Always => CAlways
  }

  function StencilFuncToWgpu(f: StencilFunc): CompareFunction {
    match f
    case StencilAlways => CAlways
    case StencilEqual => CEqual
  }

  /** Whether a comparison passes for the incoming value `a` against the
      stored value `b`. */
  predicate Compare(f: CompareFunction, a: real, b: real) {
    match f
    case Never => false
    case CLess => a < b
    case CEqual => a == b
    case CLessEqual => a <= b
    case CGreater => a > b
    case CNotEqual => a != b
    case CGreaterEqual => a >= b
    case CAlways => true
  }

  /** pathfinder's meaning of its depth and stencil functions. */
  predicate DepthFuncHolds(f: DepthFunc, a: real, b: real) {
    match f
    case Less => a < b
    case Always => true
  }

  predicate StencilFuncHolds(f: StencilFunc, a: real, b: real) {
    match f
    case StencilAlways => true
    case StencilEqual => a == b
  }

  lemma CompareMappingPreservesMeaning(d: DepthFunc, s: StencilFunc, a: real, b: real)
    ensures Compare(DepthFuncToWgpu(d), a, b) == DepthFuncHolds(d, a, b)
    ensures Compare(StencilFuncToWgpu(s), a, b) == StencilFuncHolds(s, a, b)
  {
  }
}
