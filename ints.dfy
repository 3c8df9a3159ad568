/**
  Machine integers of the 8-bit AVR target the stage driver runs on:
  `int` is 16 bits wide and `long` 32 bits wide.
 */
module Ints {

  const INT16_MIN: int := -0x8000
  const INT16_MAX: int := 0x7FFF
  const INT32_MIN: int := -0x8000_0000
  const INT32_MAX: int := 0x7FFF_FFFF

  /** A C `int` on the target. */
  type int16 = x: int | INT16_MIN <= x <= INT16_MAX

  /** A C `long` / `int32_t` on the target. */
  type int32 = x: int | INT32_MIN <= x <= INT32_MAX

  /**
    Storing a wider integer into a 16-bit `int`: the value is reduced
    modulo 2^16 into the signed range, as two's-complement narrowing does.
   */
  function Wrap16(x: int): (r: int16)
    ensures (r - x) % 0x1_0000 == 0
    ensures INT16_MIN <= x <= INT16_MAX ==> r == x
  {
    (x - INT16_MIN) % 0x1_0000 + INT16_MIN
  }

  /** Every multiple of 2^16 narrows to 0. */
  lemma Wrap16OfMultiple(x: int)
    requires x % 0x1_0000 == 0
    ensures Wrap16(x) == 0
  {
  }

  /** A value narrows to 0 exactly when it is a multiple of 2^16. */
  lemma Wrap16ZeroIff(x: int)
    ensures Wrap16(x) == 0 <==> x % 0x1_0000 == 0
  {
    var k := x % 0x1_0000;
    var q := x / 0x1_0000;
    if k < 0x8000 {
      assert x - INT16_MIN == q * 0x1_0000 + (k + 0x8000);
    } else {
      assert x - INT16_MIN == (q + 1) * 0x1_0000 + (k - 0x8000);
    }
  }

  /**
    The value `strtol` hands back for a mathematical result `x`: `x` itself
    when it fits in a `long`, otherwise the bound on the side `x` lies on.
   */
  function Saturate32(x: int): (r: int32)
    ensures INT32_MIN <= x <= INT32_MAX ==> r == x
    ensures x > INT32_MAX ==> r == INT32_MAX
    ensures x < INT32_MIN ==> r == INT32_MIN
    ensures r == 0 <==> x == 0
  {
    if x > INT32_MAX then INT32_MAX
    else if x < INT32_MIN then INT32_MIN
    else x
  }
}
