/** Fixed-width unsigned integers of the source, as bounded subsets of `int`. */
module Ints {

  const U32_LIMIT: int := 0x1_0000_0000
  const U64_LIMIT: int := 0x1_0000_0000_0000_0000

  /** Rust's `u32`. */
  type u32 = x: int | 0 <= x < U32_LIMIT

  /** Rust's `u64`. */
  type u64 = x: int | 0 <= x < U64_LIMIT
}
