/** 64-bit integers as the kernel is compiled: signed arithmetic wraps around. */
module Wrapping {
  const TWO31 := 0x8000_0000
  const TWO32 := 0x1_0000_0000
  const TWO63 := 0x8000_0000_0000_0000
  const TWO64 := 0x1_0000_0000_0000_0000

  predicate IsS64(x: int) { -TWO63 <= x < TWO63 }

  predicate IsU64(x: int) { 0 <= x < TWO64 }

  /** The unsigned 64-bit value congruent to `x`. */
  function U64(x: int): (r: int)
    ensures IsU64(r) && (IsU64(x) ==> r == x)
    ensures -TWO64 <= x < 0 ==> r == x + TWO64
    ensures TWO64 <= x < 2 * TWO64 ==> r == x - TWO64
  {
    x % TWO64
  }

  /** The signed 64-bit value congruent to `x`. */
  function S64(x: int): (r: int)
    ensures IsS64(r) && (IsS64(x) ==> r == x)
    ensures TWO63 <= x < TWO64 + TWO63 ==> r == x - TWO64
    ensures -TWO64 - TWO63 <= x < -TWO63 ==> r == x + TWO64
  {
    (x + TWO63) % TWO64 - TWO63
  }

  /** The signed 32-bit value congruent to `x`. */
  function S32(x: int): (r: int)
    ensures -TWO31 <= r < TWO31 && (-TWO31 <= x < TWO31 ==> r == x)
  {
    (x + TWO31) % TWO32 - TWO31
  }
}
