/** Small value types shared by every module: Rust's Option and Result,
    and the unsigned integer widths the board code uses. */
module Common {

  /** One more than the largest `u64`. */
  const U64_LIMIT: int := 0x1_0000_0000_0000_0000

  /** Rust `u64`, as a bounded integer; overflow is excluded by preconditions. */
  type u64 = x: int | 0 <= x < U64_LIMIT

  /** Rust `u8`. */
  type u8 = x: int | 0 <= x < 0x100

  datatype Option<+T> = None | Some(value: T)

  datatype Result<+T, +E> = Ok(value: T) | Err(error: E)
}
