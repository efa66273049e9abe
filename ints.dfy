/**
 * The fixed-width integers of the Go source, on Dafny's unbounded integers.
 * Go's conversions and shifts are written out so that truncation and
 * wrap-around are explicit wherever the model relies on them.
 */
module Ints {
  const TWO_32: int := 0x1_0000_0000
  const TWO_63: int := 0x8000_0000_0000_0000
  const TWO_64: int := 0x1_0000_0000_0000_0000
  const MIN_INT64: int := -TWO_63
  const MAX_INT64: int := TWO_63 - 1

  type uint32 = x: int | 0 <= x < 0x1_0000_0000
  type int64 = x: int | -0x8000_0000_0000_0000 <= x < 0x8000_0000_0000_0000

  /** Go's `uint32(x)`: keeps the low 32 bits of the two's-complement value. */
  function Uint32(x: int): (r: uint32)
    ensures 0 <= x < TWO_32 ==> r == x
    ensures (x - r) % TWO_32 == 0
  {
    x % TWO_32
  }

  /** Go's int64 arithmetic: the mathematical result wrapped into 64 bits. */
  function Int64(x: int): (r: int64)
    ensures MIN_INT64 <= x <= MAX_INT64 ==> r == x
    ensures (x - r) % TWO_64 == 0
  {
    (x - MIN_INT64) % TWO_64 + MIN_INT64
  }

  /** Go's `x >> 32` on an int64: an arithmetic shift, rounding toward minus infinity. */
  function Shr32(x: int64): (r: int64)
    ensures r * TWO_32 <= x < r * TWO_32 + TWO_32
  {
    x / TWO_32
  }
}
