/**
 * The arithmetic the Kotlin code relies on, written out exactly:
 * `coerceIn` / `coerceAtLeast` / `coerceAtMost` on health and water levels
 * (exact reals instead of Float), and JVM integer division and remainder on
 * Long, which round toward zero (Dafny's `/` and `%` are Euclidean).
 */
module KotlinMath {

  /** `x.coerceIn(lo, hi)`; Kotlin throws when `lo > hi`. */
  function Clamp(x: real, lo: real, hi: real): (r: real)
    requires lo <= hi
    ensures lo <= r <= hi
    ensures lo <= x <= hi ==> r == x
    ensures x < lo ==> r == lo
    ensures x > hi ==> r == hi
  {
    if x < lo then lo else if x > hi then hi else x
  }

  /** `x.coerceAtLeast(lo)`. */
  function AtLeast(x: real, lo: real): (r: real)
    ensures r >= lo && r >= x
    ensures r == x || r == lo
  {
    if x < lo then lo else x
  }

  /** `x.coerceAtLeast(lo)` on Long. */
  function AtLeastLong(x: int, lo: int): (r: int)
    ensures r >= lo && r >= x
    ensures r == x || r == lo
  {
    if x < lo then lo else x
  }

  /** `x.coerceAtMost(hi)`. */
  function AtMost(x: real, hi: real): (r: real)
    ensures r <= hi && r <= x
    ensures r == x || r == hi
  {
    if x > hi then hi else x
  }

  /** `a / b` on JVM Long for a positive divisor: the quotient rounded toward zero. */
  function TruncDiv(a: int, b: int): (r: int)
    requires b > 0
    ensures a >= 0 ==> r == a / b && r >= 0
    ensures a < 0 ==> r <= 0 && r == -((-a) / b)
  {
    if a >= 0 then DivIsNonNegative(a, b); a / b
    else DivIsNonNegative(-a, b); -((-a) / b)
  }

  lemma DivIsNonNegative(a: int, b: int)
    requires a >= 0 && b > 0
    ensures a / b >= 0
  {
  }

  /** `a % b` on JVM Long for a positive divisor: the remainder takes the sign of `a`. */
  function TruncRem(a: int, b: int): (r: int)
    requires b > 0
    ensures a >= 0 ==> r == a % b && 0 <= r < b
    ensures a < 0 ==> -b < r <= 0
  {
    a - TruncDiv(a, b) * b
  }
}
