/** The two real-to-integer conversions the library relies on: the C cast,
    which truncates toward zero, and `lround`, which rounds to the nearest
    integer with halves away from zero. */
module Numeric {
  function Abs(x: real): real { if x < 0.0 then -x else x }

  /** `(long) x` for a finite `x`. */
  function Truncate(x: real): (r: int)
    ensures Abs(x - r as real) < 1.0
    ensures Abs(r as real) <= Abs(x)
    ensures x >= 0.0 ==> r >= 0
    ensures x <= 0.0 ==> r <= 0
  {
    if x >= 0.0 then x.Floor else -((-x).Floor)
  }

  /** `lround(x)`: the nearest integer, a tie going away from zero. */
  function Round(x: real): (r: int)
    ensures Abs(r as real - x) <= 0.5
    ensures r as real - x == 0.5 ==> x > 0.0
    ensures x - r as real == 0.5 ==> x < 0.0
  {
    if x >= 0.0 then (x + 0.5).Floor else -((-x + 0.5).Floor)
  }

  /** Integral values pass through both conversions unchanged. */
  lemma IntegralUnchanged(n: int)
    ensures Truncate(n as real) == n && Round(n as real) == n
  {
  }

  /** The rounding contract pins the result down: any integer within a half
      of `x`, taking ties away from zero, is Round(x). */
  lemma RoundUnique(x: real, k: int)
    requires Abs(k as real - x) <= 0.5
    requires k as real - x == 0.5 ==> x > 0.0
    requires x - k as real == 0.5 ==> x < 0.0
    ensures k == Round(x)
  {
  }
}
