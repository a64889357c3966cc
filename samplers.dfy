/** The sixteen samplers `WebGpuDevice::new` builds, one per value of the
    4-bit `TextureSamplingFlags`, each field of a sampler chosen by one flag
    bit.  The bit values are those of pathfinder_gpu's
    `TextureSamplingFlags` (REPEAT_U 0x01, REPEAT_V 0x02, NEAREST_MIN 0x04,
    NEAREST_MAG 0x08); that crate is not part of this model. */
module Samplers {
  import opened Common
  import opened Formats

  datatype SamplingFlags = SamplingFlags(repeatU: bool, repeatV: bool, nearestMin: bool, nearestMag: bool)

  /** `TextureSamplingFlags::empty()`. */
  const NO_FLAGS := SamplingFlags(false, false, false, false)

  /** `bits()`: the flag set as its raw value. */
  function Bits(f: SamplingFlags): (b: nat)
    ensures b < 16
  {
    (if f.repeatU then 1 else 0) + (if f.repeatV then 2 else 0)
      + (if f.nearestMin then 4 else 0) + (if f.nearestMag then 8 else 0)
  }

  /** `from_bits` on a `u8`: None when a bit outside the four flags is set. */
  function FromBits(v: U8): (r: Option<SamplingFlags>)
    ensures r.Some? <==> v < 16
  {
    if v < 16 then
      Some(SamplingFlags(v % 2 == 1, v / 2 % 2 == 1, v / 4 % 2 == 1, v / 8 % 2 == 1))
    else
      None
  }

  lemma FlagsRoundTrip(f: SamplingFlags)
    ensures FromBits(Bits(f)) == Some(f)
  {
  }

  lemma BitsRoundTrip(v: U8)
    requires v < 16
    ensures Bits(FromBits(v).value) == v
  {
  }

  datatype AddressMode = ClampToEdge | Repeat | MirrorRepeat
  datatype FilterMode = Nearest | Linear

  /** A `wgpu::SamplerDescriptor` without its floating-point LOD clamps. */
  datatype SamplerDescriptor = SamplerDescriptor(
    addressModeU: AddressMode, addressModeV: AddressMode, addressModeW: AddressMode,
    magFilter: FilterMode, minFilter: FilterMode, mipmapFilter: FilterMode,
    compare: CompareFunction)

  /** The sampler built for one flag set. */
  function SamplerFor(f: SamplingFlags): SamplerDescriptor {
    SamplerDescriptor(
      if f.repeatU then Repeat else ClampToEdge,
      if f.repeatV then Repeat else ClampToEdge,
      ClampToEdge,
      if f.nearestMag then Nearest else Linear,
      if f.nearestMin then Nearest else Linear,
      Nearest,
      Never)
  }

  /** Reads back the flag set a sampler was built for. */
  function FlagsOf(d: SamplerDescriptor): SamplingFlags {
    SamplingFlags(d.addressModeU == Repeat, d.addressModeV == Repeat,
                  d.minFilter == Nearest, d.magFilter == Nearest)
  }

  lemma SamplerForRoundTrip(f: SamplingFlags)
    ensures FlagsOf(SamplerFor(f)) == f
  {
  }

  /** The table, indexed by the raw flag value. */
  function SamplerTable(): (t: seq<SamplerDescriptor>)
    ensures |t| == 16
  {
    seq(16, v requires 0 <= v < 16 => SamplerFor(FromBits(v).value))
  }

  /** Entry `v` of the table: bit 0 picks the U address mode, bit 1 the V
      address mode, bit 2 the minification filter and bit 3 the
      magnification filter; the rest is fixed. */
  lemma SamplerTableEntry(v: nat)
    requires v < 16
    ensures var s := SamplerTable()[v];
      && s.addressModeU == (if v % 2 == 1 then Repeat else ClampToEdge)
      && s.addressModeV == (if v / 2 % 2 == 1 then Repeat else ClampToEdge)
      && s.minFilter == (if v / 4 % 2 == 1 then Nearest else Linear)
      && s.magFilter == (if v / 8 % 2 == 1 then Nearest else Linear)
      && s.addressModeW == ClampToEdge && s.mipmapFilter == Nearest && s.compare == Never
  {
  }

  /** Looking a flag set up by its raw value finds the sampler built for it. */
  lemma SamplerTableIndexedByBits(f: SamplingFlags)
    ensures SamplerTable()[Bits(f)] == SamplerFor(f)
  {
    FlagsRoundTrip(f);
  }

  /** The sixteen samplers are pairwise different. */
  lemma SamplerTableInjective(i: nat, j: nat)
    requires i < 16 && j < 16
    ensures SamplerTable()[i] == SamplerTable()[j] ==> i == j
  {
    var t := SamplerTable();
    SamplerForRoundTrip(FromBits(i).value);
    SamplerForRoundTrip(FromBits(j).value);
    BitsRoundTrip(i);
    BitsRoundTrip(j);
    if t[i] == t[j] {
      assert FromBits(i).value == FlagsOf(t[i]) == FlagsOf(t[j]) == FromBits(j).value;
    }
  }
}
