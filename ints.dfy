/** The fixed-width Rust integers that appear in the service's records. */
module Ints {

  /** Rust `i32`: error codes and the reserved pagination counters. */
  newtype i32 = x: int | -0x8000_0000 <= x < 0x8000_0000

  /** Rust `i64`: event and comment timestamps. */
  newtype i64 = x: int | -0x8000_0000_0000_0000 <= x < 0x8000_0000_0000_0000
}
