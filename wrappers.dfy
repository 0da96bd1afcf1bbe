/** Small shared definitions: an optional value and Go's fixed-width integers. */
module Wrappers {

  datatype Option<+T> = None | Some(value: T)

  const TwoTo63: int := 0x8000_0000_0000_0000
  const TwoTo64: int := 0x1_0000_0000_0000_0000

  /** Go's `int` on a 64-bit platform. */
  newtype Int64 = x: int | -TwoTo63 <= x < TwoTo63

  /** Go's `uint64`. */
  newtype UInt64 = x: int | 0 <= x < TwoTo64

  /** Two's-complement truncation of a mathematical integer to 64 bits, as Go's `int` arithmetic does. */
  function WrapInt64(x: int): (r: Int64)
    ensures (r as int - x) % TwoTo64 == 0
    ensures -TwoTo63 <= x < TwoTo63 ==> r as int == x
  {
    var m := x % TwoTo64;
    if m < TwoTo63 then m as Int64 else (m - TwoTo64) as Int64
  }

  /** Go's `uint64` increment, which wraps to zero after the largest value. */
  function IncUInt64(x: UInt64): (r: UInt64)
    ensures r as int == (x as int + 1) % TwoTo64
  {
    if x as int == TwoTo64 - 1 then 0 else x + 1
  }
}
