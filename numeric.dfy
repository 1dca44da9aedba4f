/** Rounding as Python's built-in `round` performs it on an exact number. */
module Numeric {

  /**
   * `round(x)` with no digits: the nearest integer, ties to the even one
   * (banker's rounding, as Python rounds both floats and Decimals).
   */
  function RoundHalfEven(x: real): (r: int)
    ensures x - 0.5 <= r as real <= x + 0.5
    ensures (x - 0.5 < r as real < x + 0.5) || r % 2 == 0
  {
    var f := x.Floor;
    var d := x - f as real;
    if d < 0.5 then f
    else if d > 0.5 then f + 1
    else if f % 2 == 0 then f
    else f + 1
  }

  /** The product of two non-negative numbers is non-negative. */
  lemma MulNonNegative(a: real, b: real)
    requires a >= 0.0 && b >= 0.0
    ensures a * b >= 0.0
  {
  }

  /** A percentage between 0 and 100 of a non-negative amount lies between 0 and the amount. */
  lemma PercentageBounds(amount: real, pct: real)
    requires amount >= 0.0 && 0.0 <= pct <= 100.0
    ensures 0.0 <= amount * pct / 100.0 <= amount
  {
    MulNonNegative(amount, pct);
    MulNonNegative(amount, 100.0 - pct);
    assert amount * (100.0 - pct) == amount * 100.0 - amount * pct;
  }

  function Max(a: int, b: int): int { if a >= b then a else b }

  function Min(a: real, b: real): real { if a <= b then a else b }
}
