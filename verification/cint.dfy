/**
  The subset of C `int` arithmetic the watch face uses: the 32-bit range of
  `int`/`int32_t` on the watch's ARM target, and the `/` and `%` operators,
  which truncate toward zero (section 6.5.5 of ISO C11) rather than rounding
  toward negative infinity as Dafny's Euclidean operators do.
 */
module CInt {

  const INT32_MIN: int := -0x8000_0000
  const INT32_MAX: int := 0x7fff_ffff

  /** True when `x` is representable as a 32-bit signed C integer. */
  predicate IsInt32(x: int) {
    INT32_MIN <= x <= INT32_MAX
  }

  /** C's `a / b` for a positive divisor: the quotient truncated toward zero. */
  function Div(a: int, b: int): (q: int)
    requires 0 < b
    ensures 0 <= a ==> q == a / b
    ensures a <= 0 ==> q <= 0 && q * b >= a
    ensures a <= 0 ==> a <= q * b < a + b
    ensures a >= 0 ==> q >= 0 && q * b <= a
  {
    if 0 <= a then a / b else -((-a) / b)
  }

  /** C's `a % b` for a positive divisor: the remainder that goes with the
      truncating quotient, so it carries the sign of the dividend. */
  function Rem(a: int, b: int): (r: int)
    requires 0 < b
    ensures 0 <= a ==> r == a % b && 0 <= r < b
    ensures a <= 0 ==> -b < r <= 0
    ensures a <= 0 ==> r == -((-a) % b)
  {
    a - b * Div(a, b)
  }
}
