/** The descriptive statistics the report takes from commons-math
    DescriptiveStatistics, over exact reals: sum, mean, minimum, maximum
    and the bias-corrected (sample) standard deviation. The square root is
    a parameter of the model. */
module Statistics {

  /** Sum of the values, accumulated from the left as a loop does. */
  function Sum(xs: seq<real>): real
  {
    if xs == [] then 0.0 else Sum(xs[..|xs| - 1]) + xs[|xs| - 1]
  }

  function Mean(xs: seq<real>): real
    requires |xs| > 0
  {
    Sum(xs) / (|xs| as real)
  }

  /** getMin: the smallest value. */
  function MinOf(xs: seq<real>): (m: real)
    requires |xs| > 0
    ensures m in xs
    ensures forall k :: 0 <= k < |xs| ==> m <= xs[k]
  {
    if |xs| == 1 then xs[0]
    else
      var rest := MinOf(xs[1..]);
      if xs[0] <= rest then xs[0] else rest
  }

  /** getMax: the largest value. */
  function MaxOf(xs: seq<real>): (m: real)
    requires |xs| > 0
    ensures m in xs
    ensures forall k :: 0 <= k < |xs| ==> xs[k] <= m
  {
    if |xs| == 1 then xs[0]
    else
      var rest := MaxOf(xs[1..]);
      if xs[0] >= rest then xs[0] else rest
  }

  /** Sum of squared deviations from m. */
  function SumSquaredDeviations(xs: seq<real>, m: real): real
  {
    if xs == [] then 0.0
    else SumSquaredDeviations(xs[..|xs| - 1], m) + (xs[|xs| - 1] - m) * (xs[|xs| - 1] - m)
  }

  /** getStandardDeviation: 0 for a single value, otherwise the square root
      of the sum of squared deviations from the mean over n - 1. */
  function StandardDeviation(xs: seq<real>, sqrt: real -> real): real
    requires |xs| > 0
  {
    if |xs| == 1 then 0.0
    else sqrt(SumSquaredDeviations(xs, Mean(xs)) / ((|xs| - 1) as real))
  }

  /** Each value bounds the sum: n times the least value is at most the sum,
      which is at most n times the greatest. */
  lemma {:induction false} SumBounds(xs: seq<real>, lo: real, hi: real)
    requires forall k :: 0 <= k < |xs| ==> lo <= xs[k] <= hi
    ensures (|xs| as real) * lo <= Sum(xs) <= (|xs| as real) * hi
  {
    if xs != [] {
      SumBounds(xs[..|xs| - 1], lo, hi);
    }
  }

  /** Dividing by a positive count keeps a bound on the total. */
  lemma DivideBounds(lo: real, total: real, hi: real, n: real)
    requires n > 0.0
    requires n * lo <= total <= n * hi
    ensures lo <= total / n <= hi
  {
    assert n * (total / n) == total;
  }

  /** The mean lies between the minimum and the maximum. */
  lemma {:induction false} MeanBetweenMinAndMax(xs: seq<real>)
    requires |xs| > 0
    ensures MinOf(xs) <= Mean(xs) <= MaxOf(xs)
  {
    var lo, hi, n := MinOf(xs), MaxOf(xs), |xs| as real;
    assert Mean(xs) == Sum(xs) / n;
    SumBounds(xs, lo, hi);
    DivideBounds(lo, Sum(xs), hi, n);
  }

  /** The sum of squared deviations is never negative, so the standard
      deviation is a square root of a non-negative number. */
  lemma {:induction false} SumSquaredDeviationsNonNegative(xs: seq<real>, m: real)
    ensures SumSquaredDeviations(xs, m) >= 0.0
  {
    if xs != [] {
      SumSquaredDeviationsNonNegative(xs[..|xs| - 1], m);
      var d := xs[|xs| - 1] - m;
      assert d * d >= 0.0;
    }
  }

  /** Values all equal to m deviate by nothing from m. */
  lemma {:induction false} ConstantHasNoDeviation(xs: seq<real>, m: real)
    requires forall k :: 0 <= k < |xs| ==> xs[k] == m
    ensures SumSquaredDeviations(xs, m) == 0.0
  {
    if xs != [] {
      ConstantHasNoDeviation(xs[..|xs| - 1], m);
    }
  }

  /** Values that are all equal have a mean equal to that value and a
      standard deviation of sqrt(0). */
  lemma {:induction false} ConstantStandardDeviation(xs: seq<real>, sqrt: real -> real)
    requires |xs| > 1
    requires forall k :: 0 <= k < |xs| ==> xs[k] == xs[0]
    ensures Mean(xs) == xs[0]
    ensures StandardDeviation(xs, sqrt) == sqrt(0.0)
  {
    SumBounds(xs, xs[0], xs[0]);
    var n := |xs| as real;
    assert Sum(xs) == n * xs[0];
    ConstantHasNoDeviation(xs, xs[0]);
  }
}
