/** The backend's failures.  In the source every one of them is a panic
    (`panic!`, `expect`, `assert!`, `todo!()`); here each is a tagged value
    so that the model can say exactly when it happens. */
module Errors {
  import opened Common
  import Formats

  datatype Fault =
    | AlreadyInitialized                 // LazilyInitialized::initialize_with on a full slot
    | NotInitialized                     // assume_init on an empty slot
    | NegativeValue(value: int)          // expect_unsigned on a negative i32
    | Overflow                           // a u32 multiplication that overflows (debug build)
    | UnboundBufferIndex(index: nat)     // configure_vertex_attr past the bound buffers
    | UnsupportedDivisor(divisor: nat)   // a divisor other than 0 or 1
    | UnsupportedVertexFormat(attrClass: Formats.VertexAttrClass, attrType: Formats.VertexAttrType, size: nat)
    | NoIndexBuffer                      // draw without a bound index buffer
    | NoAttributeTable                   // get_vertex_attr on a shader without attribute table
    | MalformedSpirv                     // byte length not a multiple of 4
    | ReflectionFailed                   // the SPIR-V reflection library refused the module
    | ResourceMissing(path: string)      // the resource loader could not read a shader file
    | Unimplemented                      // a `todo!()`

  datatype Result<+T> = Ok(value: T) | Err(fault: Fault)

  datatype Outcome = Pass | Fail(fault: Fault)

  /** `i32::expect_unsigned`: the same number as a `u32`, or a panic when
      it is negative. */
  function ExpectUnsigned(x: I32): (r: Result<U32>)
    ensures r.Ok? <==> x >= 0
    ensures r.Ok? ==> r.value == x
    ensures r.Err? ==> r.fault == NegativeValue(x)
  {
    if x >= 0 then Ok(x) else Err(NegativeValue(x))
  }

  /** `u32 * u32` as a debug build evaluates it: the exact product, or a
      panic when it does not fit in 32 bits. */
  function CheckedMulU32(a: U32, b: U32): (r: Result<U32>)
    ensures r.Ok? <==> FitsU32(a * b)
    ensures r.Ok? ==> r.value == a * b
    ensures r.Err? ==> r == Err(Overflow)
  {
    if a * b < 0x1_0000_0000 then Ok(a * b) else Err(Overflow)
  }
}
