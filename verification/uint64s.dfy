/** Unsigned 64-bit machine integers, with the wrap-around of C++ `uint64_t`
    written out explicitly. */
module Uint64s {

  /** Number of distinct `uint64_t` values, 2^64. */
  const LIMIT: int := 0x1_0000_0000_0000_0000

  /** The largest `uint64_t` value. */
  const MAX: int := LIMIT - 1

  type Uint64 = x: int | 0 <= x < LIMIT

  /** Pre-increment on `uint64_t`: adds one, and wraps to zero past the top. */
  function Inc(x: Uint64): (r: Uint64)
    ensures x < MAX ==> r == x + 1
    ensures x == MAX ==> r == 0
  {
    (x + 1) % LIMIT
  }
}
