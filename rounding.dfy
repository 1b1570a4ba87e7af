/** Rounding to the nearest integer with ties to even, as numpy's `round(0)`
    and pandas' `DataFrame.round(0)` do on the values of a table. */
module Rounding {

  import opened Wrappers

  /** `n` is a nearest integer to `x`, and an even one when `x` lies exactly
      half-way between two integers. */
  ghost predicate NearestTiesEven(x: real, n: int)
  {
    && -0.5 <= x - n as real <= 0.5
    && ((x - n as real == 0.5 || x - n as real == -0.5) ==> n % 2 == 0)
  }

  function RoundHalfEven(x: real): (r: int)
    ensures -0.5 <= x - r as real <= 0.5
    ensures (x - r as real == 0.5 || x - r as real == -0.5) ==> r % 2 == 0
  {
    var f := x.Floor;
    var d := x - f as real;
    if d < 0.5 then f
    else if d > 0.5 then f + 1
    else if f % 2 == 0 then f
    else f + 1
  }

  /** The rounded value is the only integer that is nearest with ties to even. */
  lemma RoundHalfEvenUnique(x: real, n: int)
    requires NearestTiesEven(x, n)
    ensures n == RoundHalfEven(x)
  {
  }

  /** Ties to even is symmetric: rounding commutes with negation. */
  lemma RoundHalfEvenNegate(x: real)
    ensures RoundHalfEven(-x) == -RoundHalfEven(x)
  {
    var r := RoundHalfEven(x);
    assert NearestTiesEven(-x, -r);
    RoundHalfEvenUnique(-x, -r);
  }

  /** Whole numbers are left unchanged. */
  lemma RoundHalfEvenOfInt(n: int)
    ensures RoundHalfEven(n as real) == n
  {
    assert NearestTiesEven(n as real, n);
    RoundHalfEvenUnique(n as real, n);
  }

  /** Rounding is monotone. */
  lemma RoundHalfEvenMonotone(x: real, y: real)
    requires x <= y
    ensures RoundHalfEven(x) <= RoundHalfEven(y)
  {
  }

  /** The half-way cases go to the even neighbour, in both directions. */
  lemma RoundHalfEvenTies()
    ensures RoundHalfEven(0.5) == 0 && RoundHalfEven(1.5) == 2 && RoundHalfEven(2.5) == 2
    ensures RoundHalfEven(-0.5) == 0 && RoundHalfEven(-1.5) == -2 && RoundHalfEven(299.4) == 299
  {
  }

  /** Rounding a missing value (NaN) gives a missing value. */
  function RoundOpt(x: Option<real>): (r: Option<int>)
    ensures r.Some? <==> x.Some?
    ensures r.Some? ==> NearestTiesEven(x.value, r.value)
  {
    match x
    case None => None
    case Some(v) => Some(RoundHalfEven(v))
  }
}
