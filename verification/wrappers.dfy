/** Option and Result, the two failure-carrying shapes the Rust program uses. */
module Wrappers {

  datatype Option<+T> = None | Some(value: T) {
    /** `unwrap_or` */
    function GetOr(default: T): T {
      match this
      case Some(v) => v
      case None => default
    }
  }

  datatype Result<+R, +E> = Success(value: R) | Failure(error: E)
}

/** The fixed-width unsigned integers of the source, as ranges of `int`. */
module Ints {
  const U8_MAX: int := 255
  const U16_MAX: int := 65535
  const U32_MAX: int := 4294967295

  type u8 = x: int | 0 <= x <= U8_MAX
  type u16 = x: int | 0 <= x <= U16_MAX
  type u32 = x: int | 0 <= x <= U32_MAX
}
