/**
 * Python's built-in round() on exact real values: round(x) to the nearest
 * integer and round(x, 2) to the nearest hundredth, a tie going to the even
 * neighbour (banker's rounding).
 */
module Rounding {

  /** True when x is a whole number. */
  predicate IsWhole(x: real) {
    x.Floor as real == x
  }

  /** round(x): the nearest integer, a tie going to the even one. */
  function RoundHalfEven(x: real): (n: int)
    ensures x - 0.5 <= n as real <= x + 0.5
    ensures IsWhole(x) ==> n as real == x
    ensures x - 0.5 == n as real || x + 0.5 == n as real ==> n % 2 == 0
  {
    var f := x.Floor;
    var frac := x - f as real;
    if frac < 0.5 then f
    else if frac > 0.5 then f + 1
    else if f % 2 == 0 then f
    else f + 1
  }

  /** round(x, 2): the nearest whole number of hundredths. */
  function RoundTo2(x: real): (r: real)
    ensures x - 0.005 <= r <= x + 0.005
  {
    var n := RoundHalfEven(x * 100.0);
    assert (n as real / 100.0) * 100.0 == n as real;
    n as real / 100.0
  }

  /** round(x, 2) is a whole number of hundredths. */
  lemma RoundTo2OnGrid(x: real)
    ensures IsWhole(RoundTo2(x) * 100.0)
  {
    var n := RoundHalfEven(x * 100.0);
    var r := RoundTo2(x);
    assert r == n as real / 100.0;
    assert r * 100.0 == n as real;
    assert (n as real).Floor == n;
  }

  /** A value that already is a whole number of hundredths is left as it is. */
  lemma RoundTo2Exact(x: real)
    requires IsWhole(x * 100.0)
    ensures RoundTo2(x) == x
  {
    var n := RoundHalfEven(x * 100.0);
    assert n as real == x * 100.0;
  }

  /** Rounding never reverses the order of two values. */
  lemma RoundHalfEvenMonotone(x: real, y: real)
    requires x <= y
    ensures RoundHalfEven(x) <= RoundHalfEven(y)
  {
    var fx, fy := x.Floor, y.Floor;
    if fx < fy {
      assert RoundHalfEven(x) <= fx + 1 <= fy <= RoundHalfEven(y);
    } else {
      assert fx == fy;
      assert x - fx as real <= y - fy as real;
    }
  }

  /** round(., 2) never reverses the order of two values. */
  lemma RoundTo2Monotone(x: real, y: real)
    requires x <= y
    ensures RoundTo2(x) <= RoundTo2(y)
  {
    RoundHalfEvenMonotone(x * 100.0, y * 100.0);
  }

  /** Rounding a non-negative value gives a non-negative value. */
  lemma RoundTo2NonNegative(x: real)
    requires x >= 0.0
    ensures RoundTo2(x) >= 0.0
  {
    RoundTo2Monotone(0.0, x);
  }

  /** Rounding a non-negative value to an integer gives a non-negative integer. */
  lemma RoundHalfEvenNonNegative(x: real)
    requires x >= 0.0
    ensures RoundHalfEven(x) >= 0
  {
    RoundHalfEvenMonotone(0.0, x);
  }
}
