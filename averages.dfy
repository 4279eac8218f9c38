/**
 * calcAvg of Mvpmetrics.js: 0 for an empty list, otherwise the arithmetic
 * mean printed with `toFixed(1)` and read back with `parseFloat`.  Durations
 * are exact reals here; `toFixed` rounds to the nearest tenth and a half
 * tenth away from zero.
 */
module Averages {

  /** `reduce((acc, val) => acc + val, 0)`: the sum, accumulated left to right. */
  function Sum(s: seq<real>): real
  {
    if |s| == 0 then 0.0 else Sum(s[..|s| - 1]) + s[|s| - 1]
  }

  /** A whole number of tenths. */
  predicate IsTenths(x: real)
  {
    (x * 10.0).Floor as real == x * 10.0
  }

  lemma FloorBounds(y: real)
    ensures y.Floor as real <= y < y.Floor as real + 1.0
  {
  }

  lemma WholeTenths(k: int)
    ensures IsTenths(k as real / 10.0)
  {
    assert (k as real / 10.0) * 10.0 == k as real;
  }

  /**
   * `parseFloat(x.toFixed(1))`: the nearest multiple of 0.1, a tie going to
   * the one farther from zero.
   */
  function RoundTenths(x: real): (r: real)
    ensures IsTenths(r)
    ensures x >= 0.0 ==> x - 0.05 < r <= x + 0.05
    ensures x < 0.0 ==> x - 0.05 <= r < x + 0.05
  {
    if x >= 0.0 then
      var k := (x * 10.0 + 0.5).Floor;
      FloorBounds(x * 10.0 + 0.5);
      WholeTenths(k);
      k as real / 10.0
    else
      var k := (-x * 10.0 + 0.5).Floor;
      FloorBounds(-x * 10.0 + 0.5);
      WholeTenths(-k);
      assert -(k as real / 10.0) == (-k) as real / 10.0;
      -(k as real / 10.0)
  }

  /**
   * calcAvg: exactly 0 for the empty list; otherwise a whole number of tenths
   * within half a tenth of the arithmetic mean.
   */
  function CalcAvg(s: seq<real>): (r: real)
    ensures |s| == 0 ==> r == 0.0
    ensures |s| > 0 ==> IsTenths(r) && -0.05 <= r - Sum(s) / |s| as real <= 0.05
  {
    if |s| == 0 then 0.0 else RoundTenths(Sum(s) / |s| as real)
  }

  /** A value already given in tenths is left as it is. */
  lemma RoundTenthsKeepsTenths(x: real)
    requires IsTenths(x)
    ensures RoundTenths(x) == x
  {
    var k := (x * 10.0).Floor;
    if x >= 0.0 {
      assert (x * 10.0 + 0.5).Floor == k;
    } else {
      assert (-x * 10.0 + 0.5).Floor == -k;
    }
  }

  /** Rounding never reverses the order of two values. */
  lemma RoundTenthsMonotone(x: real, y: real)
    requires x <= y
    ensures RoundTenths(x) <= RoundTenths(y)
  {
    if 0.0 <= x {
      assert (x * 10.0 + 0.5).Floor <= (y * 10.0 + 0.5).Floor;
    } else if y < 0.0 {
      assert (-y * 10.0 + 0.5).Floor <= (-x * 10.0 + 0.5).Floor;
    }
  }

  lemma {:induction false} SumBounds(s: seq<real>, lo: real, hi: real)
    requires forall i :: 0 <= i < |s| ==> lo <= s[i] <= hi
    ensures |s| as real * lo <= Sum(s) <= |s| as real * hi
  {
    if |s| > 0 {
      SumBounds(s[..|s| - 1], lo, hi);
    }
  }

  /**
   * When every duration lies between two bounds given in tenths, so does the
   * average: the rounding never pushes it past the smallest or the largest run.
   */
  lemma CalcAvgWithinBounds(s: seq<real>, lo: real, hi: real)
    requires |s| > 0 && IsTenths(lo) && IsTenths(hi)
    requires forall i :: 0 <= i < |s| ==> lo <= s[i] <= hi
    ensures lo <= CalcAvg(s) <= hi
  {
    var n := |s| as real;
    SumBounds(s, lo, hi);
    assert lo <= Sum(s) / n <= hi by {
      assert n * lo <= Sum(s) <= n * hi;
      assert n * (Sum(s) / n) == Sum(s);
    }
    RoundTenthsMonotone(lo, Sum(s) / n);
    RoundTenthsMonotone(Sum(s) / n, hi);
    RoundTenthsKeepsTenths(lo);
    RoundTenthsKeepsTenths(hi);
  }
}
