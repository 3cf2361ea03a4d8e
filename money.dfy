/** Monetary rounding. The game rounds every win with `Math.Round(decimal, 2)`,
    whose .NET default is round-half-to-even ("banker's rounding"). Amounts are
    exact reals here: decimal precision and overflow are not modelled. */
module Money {

  /** `n` is an integer nearest to `x`, and an even one when `x` lies exactly
      halfway between two integers. */
  ghost predicate IsNearestEven(x: real, n: int) {
    -0.5 <= n as real - x <= 0.5 &&
    ((n as real - x == 0.5 || x - n as real == 0.5) ==> n % 2 == 0)
  }

  /** Rounds `x` to an integer, ties to even. */
  function RoundHalfEven(x: real): (n: int)
    ensures IsNearestEven(x, n)
  {
    var f := x.Floor;
    var d := x - f as real;
    if d < 0.5 then f
    else if d > 0.5 then f + 1
    else if f % 2 == 0 then f
    else f + 1
  }

  /** The nearest-even integer is unique, so `RoundHalfEven` is exactly the
      rounding rule and not just one rounding with the same error bound. */
  lemma RoundHalfEvenUnique(x: real, n: int)
    requires IsNearestEven(x, n)
    ensures n == RoundHalfEven(x)
  {
  }

  lemma RoundHalfEvenMonotone(x: real, y: real)
    requires x <= y
    ensures RoundHalfEven(x) <= RoundHalfEven(y)
  {
    var fx, fy := x.Floor, y.Floor;
    assert fx <= fy;
    if fx < fy {
      assert RoundHalfEven(x) <= fx + 1 <= fy <= RoundHalfEven(y);
    }
  }

  /** `r` is a whole number of cents. */
  predicate IsCents(r: real) {
    (r * 100.0).Floor as real == r * 100.0
  }

  /** `Math.Round(x, 2)`: round to two decimal places, ties to even cents. */
  function Round2(x: real): (r: real)
    ensures IsCents(r)
    ensures -0.005 <= r - x <= 0.005
  {
    RoundHalfEven(x * 100.0) as real / 100.0
  }

  lemma Round2Monotone(x: real, y: real)
    requires x <= y
    ensures Round2(x) <= Round2(y)
  {
    RoundHalfEvenMonotone(x * 100.0, y * 100.0);
  }

  /** Rounding an amount that lies between two others lands between their roundings. */
  lemma Round2Between(lo: real, x: real, hi: real)
    requires 0.0 <= lo <= x <= hi
    ensures 0.0 <= Round2(lo) <= Round2(x) <= Round2(hi)
  {
    Round2Monotone(lo, x);
    Round2Monotone(x, hi);
    Round2NonNegative(lo);
  }

  /** An amount that already is a whole number of cents is left as it is. */
  lemma Round2OfCents(k: int)
    ensures Round2(k as real / 100.0) == k as real / 100.0
  {
    assert (k as real / 100.0) * 100.0 == k as real;
    assert (k as real).Floor == k;
  }

  /** Rounding keeps the sign: a non-negative amount rounds to a non-negative one. */
  lemma Round2NonNegative(x: real)
    requires x >= 0.0
    ensures Round2(x) >= 0.0
  {
    Round2OfCents(0);
    Round2Monotone(0.0, x);
  }
}
