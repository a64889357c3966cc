/** Shared value types: an option type and the fixed-width integers the
    backend passes between the generic device interface and wgpu. */
module Common {

  datatype Option<+T> = None | Some(value: T)

  /** Rust `i32`, the component type of `Vector2I` and `RectI`. */
  type I32 = x: int | -0x8000_0000 <= x < 0x8000_0000

  /** Rust `u32`: extents, shader locations, stencil masks. */
  type U32 = x: int | 0 <= x < 0x1_0000_0000

  /** Rust `u8`: the stencil clear value. */
  type U8 = x: int | 0 <= x < 0x100

  /** `!0` of type `u32`. */
  const U32_ALL_ONES: U32 := 0xFFFF_FFFF

  /** Whether an integer is a value of `u32`, i.e. a `u32` result
      computed from it does not overflow. */
  predicate FitsU32(x: int) {
    0 <= x < 0x1_0000_0000
  }
}
