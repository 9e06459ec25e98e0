/** Number handling of the JavaScript source: `Math.round`, the
    `parseFloat(x.toFixed(d))` idiom, and the rounded averages the views show.
    JavaScript numbers are modelled as exact `real`s (integers as `int`). */
module Numeric {

  /** `Math.round`: the nearest integer, halves rounded up. */
  function Round(x: real): (r: int)
    ensures x - 0.5 < r as real <= x + 0.5
  {
    (x + 0.5).Floor
  }

  /** An integer already rounds to itself, and rounding is monotone. */
  lemma RoundBetween(x: real, lo: int, hi: int)
    requires lo as real <= x <= hi as real
    ensures lo <= Round(x) <= hi
  {
  }

  /** Rounding a non-negative amount to the nearest multiple of `1/scale`. */
  function RoundToScale(x: real, scale: nat): (r: real)
    requires scale > 0
    ensures -0.5 / scale as real <= r - x <= 0.5 / scale as real
  {
    Round(x * scale as real) as real / scale as real
  }

  /** `parseFloat(x.toFixed(digits))` with `scale == 10^digits`: round to the
      nearest multiple of `1/scale`, halves away from zero. */
  function ToFixed(x: real, scale: nat): (r: real)
    requires scale > 0
    ensures -0.5 / scale as real <= r - x <= 0.5 / scale as real
  {
    if x >= 0.0 then RoundToScale(x, scale) else -RoundToScale(-x, scale)
  }

  lemma DivideMonotone(a: real, b: real, k: real)
    requires a <= b
    requires k > 0.0
    ensures a / k <= b / k
  {
  }

  /** Dividing by a positive number keeps a chain of inequalities. */
  lemma DivideBetween(a: real, b: real, c: real, k: real)
    requires a <= b <= c
    requires k > 0.0
    ensures a / k <= b / k <= c / k
  {
    DivideMonotone(a, b, k);
    DivideMonotone(b, c, k);
  }

  lemma RoundToScaleWithin(x: real, scale: nat, lo: int, hi: int)
    requires scale > 0
    requires lo as real <= x * scale as real <= hi as real
    ensures lo as real / scale as real <= RoundToScale(x, scale) <= hi as real / scale as real
  {
    var r := Round(x * scale as real);
    RoundBetween(x * scale as real, lo, hi);
    DivideBetween(lo as real, r as real, hi as real, scale as real);
  }

  /** Rounding to `1/scale` stays within bounds that are themselves multiples
      of `1/scale`. */
  lemma ToFixedWithin(x: real, scale: nat, lo: int, hi: int)
    requires scale > 0
    requires lo as real <= x * scale as real <= hi as real
    ensures lo as real / scale as real <= ToFixed(x, scale) <= hi as real / scale as real
  {
    var k := scale as real;
    if x >= 0.0 {
      RoundToScaleWithin(x, scale, lo, hi);
    } else {
      Negate(x, lo as real, hi as real, k);
      RoundToScaleWithin(-x, scale, -hi, -lo);
      assert ToFixed(x, scale) == -RoundToScale(-x, scale);
    }
  }

  /** Negation flips a product and two quotients by a positive `k`. */
  lemma Negate(x: real, lo: real, hi: real, k: real)
    requires k > 0.0
    ensures (-x) * k == -(x * k)
    ensures (-hi) / k == -(hi / k) && (-lo) / k == -(lo / k)
  {
  }

  function Sum(xs: seq<real>): real {
    if |xs| == 0 then 0.0 else xs[0] + Sum(xs[1..])
  }

  /** `Math.round(xs.reduce(+, 0) / xs.length || 0)`: the rounded mean, and 0
      for an empty list (where the division gives NaN and `|| 0` applies). */
  function RoundedMean(xs: seq<real>): (r: int)
    ensures |xs| == 0 ==> r == 0
    ensures |xs| > 0 ==> Sum(xs) / |xs| as real - 0.5 < r as real <= Sum(xs) / |xs| as real + 0.5
  {
    if |xs| == 0 then 0 else Round(Sum(xs) / |xs| as real)
  }

  lemma {:induction false} SumBetween(xs: seq<real>, lo: real, hi: real)
    requires forall i :: 0 <= i < |xs| ==> lo <= xs[i] <= hi
    ensures |xs| as real * lo <= Sum(xs) <= |xs| as real * hi
  {
    if |xs| > 0 {
      SumBetween(xs[1..], lo, hi);
      assert xs[0] + (|xs| - 1) as real * lo <= Sum(xs) <= xs[0] + (|xs| - 1) as real * hi;
    }
  }

  /** A total between `n * lo` and `n * hi` has its mean between `lo` and
      `hi`. */
  lemma MeanBetween(total: real, n: real, lo: real, hi: real)
    requires n > 0.0
    requires n * lo <= total <= n * hi
    ensures lo <= total / n <= hi
  {
    DivideBetween(n * lo, total, n * hi, n);
    assert n * lo / n == lo;
    assert n * hi / n == hi;
  }

  /** The rounded mean of values in an integer interval lies in that interval. */
  lemma RoundedMeanBetween(xs: seq<real>, lo: int, hi: int)
    requires forall i :: 0 <= i < |xs| ==> lo as real <= xs[i] <= hi as real
    requires 0 < |xs|
    ensures lo <= RoundedMean(xs) <= hi
  {
    SumBetween(xs, lo as real, hi as real);
    MeanBetween(Sum(xs), |xs| as real, lo as real, hi as real);
    RoundBetween(Sum(xs) / |xs| as real, lo, hi);
  }
}
