/** Wait-time statistics of one simulation run: the collector that records the
    waits of queued customers and the summary it reports (mean, sample
    variance with Bessel's correction, maximum and count). Times are exact
    reals; floating-point rounding is not modelled. */
module Stats {

  /** The summary of one run, the dictionary that `results` returns. */
  datatype RunResult = RunResult(meanWait: real, varWait: real, maxWait: real, count: nat)

  /** Sum of the samples, accumulated from the front. */
  function Sum(s: seq<real>): real
  {
    if |s| == 0 then 0.0 else Sum(s[..|s| - 1]) + s[|s| - 1]
  }

  /** The largest sample. */
  function MaxOf(s: seq<real>): (m: real)
    requires |s| > 0
    ensures m in s
    ensures forall k :: 0 <= k < |s| ==> s[k] <= m
  {
    if |s| == 1 then s[0]
    else
      var rest := MaxOf(s[..|s| - 1]);
      if s[|s| - 1] > rest then s[|s| - 1] else rest
  }

  /** The smallest sample. */
  function MinOf(s: seq<real>): (m: real)
    requires |s| > 0
    ensures m in s
  {
    if |s| == 1 then s[0]
    else
      var rest := MinOf(s[..|s| - 1]);
      if s[|s| - 1] < rest then s[|s| - 1] else rest
  }

  /** No sample is below the smallest one. */
  lemma {:induction false} MinOfIsLeast(s: seq<real>)
    requires |s| > 0
    ensures forall k :: 0 <= k < |s| ==> MinOf(s) <= s[k]
  {
    if |s| > 1 {
      var init := s[..|s| - 1];
      MinOfIsLeast(init);
      forall k | 0 <= k < |s| - 1
        ensures MinOf(s) <= s[k]
      {
        assert s[k] == init[k];
      }
    }
  }

  /** Arithmetic mean of a non-empty sample. */
  function Mean(s: seq<real>): real
    requires |s| > 0
  {
    Sum(s) / (|s| as real)
  }

  /** Sum of squared deviations of the samples from `m`. */
  function SquaredDeviations(s: seq<real>, m: real): real
  {
    if |s| == 0 then 0.0
    else SquaredDeviations(s[..|s| - 1], m) + (s[|s| - 1] - m) * (s[|s| - 1] - m)
  }

  /** Sample variance with Bessel's correction (divisor n - 1). */
  function Variance(s: seq<real>): real
    requires |s| > 1
  {
    Bessel(SquaredDeviations(s, Mean(s)), |s|)
  }

  /** A sum of squared deviations over n samples divided by n - 1. */
  function Bessel(d: real, n: int): real
    requires n > 1
  {
    d / ((n - 1) as real)
  }

  /** `results`: mean and maximum are 0 without samples and the variance is 0
      with fewer than two; otherwise the fields are the sample mean, the
      sample variance and the largest sample. */
  function Summarize(waits: seq<real>): (r: RunResult)
    ensures r.count == |waits|
    ensures |waits| == 0 ==> r == RunResult(0.0, 0.0, 0.0, 0)
    ensures |waits| > 0 ==> r.meanWait == Mean(waits) && r.maxWait == MaxOf(waits)
    ensures |waits| == 1 ==> r.varWait == 0.0
    ensures |waits| > 1 ==> r.varWait == Variance(waits)
  {
    if |waits| == 0 then RunResult(0.0, 0.0, 0.0, 0)
    else if |waits| == 1 then RunResult(Mean(waits), 0.0, MaxOf(waits), 1)
    else RunResult(Mean(waits), Variance(waits), MaxOf(waits), |waits|)
  }

  // ---------------------------------------------------------------------------
  // What the summary means

  /** The sample variance is never negative. */
  lemma VarianceNonNegative(s: seq<real>)
    requires |s| > 1
    ensures Variance(s) >= 0.0
  {
    SquaredDeviationsNonNegative(s, Mean(s));
    BesselNonNegative(SquaredDeviations(s, Mean(s)), |s|);
  }

  /** The mean of a non-empty sample lies between its minimum and its maximum. */
  lemma MeanBetweenMinAndMax(s: seq<real>)
    requires |s| > 0
    ensures MinOf(s) <= Mean(s) <= MaxOf(s)
  {
    MinOfIsLeast(s);
    MeanWithinBounds(s, MinOf(s), MaxOf(s));
  }

  /** Non-negative waits give a non-negative mean, variance and maximum. */
  lemma NonNegativeSummary(waits: seq<real>)
    requires forall k :: 0 <= k < |waits| ==> waits[k] >= 0.0
    ensures Summarize(waits).meanWait >= 0.0
    ensures Summarize(waits).varWait >= 0.0
    ensures Summarize(waits).maxWait >= 0.0
  {
    if |waits| > 0 {
      MeanWithinBounds(waits, 0.0, MaxOf(waits));
    }
    if |waits| > 1 {
      VarianceNonNegative(waits);
    }
  }

  /** With a single sample the variance is 0 and mean and maximum are that sample. */
  lemma SingleSample(a: real)
    ensures Summarize([a]) == RunResult(a, 0.0, a, 1)
  {
    assert [a][..0] == [];
    assert Sum([a]) == a;
    assert Mean([a]) == a;
  }

  /** Equal waits: the mean and the maximum are that wait and the variance is 0. */
  lemma ConstantWaits(waits: seq<real>, a: real)
    requires |waits| > 0 && forall k :: 0 <= k < |waits| ==> waits[k] == a
    ensures Summarize(waits) == RunResult(a, 0.0, a, |waits|)
  {
    MeanWithinBounds(waits, a, a);
    if |waits| > 1 {
      SquaredDeviationsOfConstant(waits, a);
      assert Variance(waits) == Bessel(0.0, |waits|);
    }
  }

  /** Bessel's correction: for two waits a, b the variance is (a - b)^2 / 2. */
  lemma TwoSampleVariance(a: real, b: real)
    ensures Summarize([a, b]).varWait == (a - b) * (a - b) / 2.0
    ensures Summarize([a, b]).meanWait == (a + b) / 2.0
  {
    var s := [a, b];
    assert s[..1] == [a];
    assert [a][..0] == [];
    assert Sum([a]) == a;
    assert Sum(s) == a + b;
    var m := (a + b) / 2.0;
    assert Mean(s) == m;
    assert SquaredDeviations([a], m) == (a - m) * (a - m);
    assert SquaredDeviations(s, m) == (a - m) * (a - m) + (b - m) * (b - m);
    assert (a - m) * (a - m) + (b - m) * (b - m) == (a - b) * (a - b) / 2.0;
  }

  // ---------------------------------------------------------------------------
  // Arithmetic helpers

  lemma SquareNonNegative(x: real)
    ensures x * x >= 0.0
  {
    if x < 0.0 {
      assert x * x == (-x) * (-x);
    }
  }

  /** Samples equal to `m` have no deviation from `m`. */
  lemma {:induction false} SquaredDeviationsOfConstant(s: seq<real>, m: real)
    requires forall k :: 0 <= k < |s| ==> s[k] == m
    ensures SquaredDeviations(s, m) == 0.0
  {
    if |s| > 0 {
      SquaredDeviationsOfConstant(s[..|s| - 1], m);
    }
  }

  /** A sum of squares is never negative. */
  lemma {:induction false} SquaredDeviationsNonNegative(s: seq<real>, m: real)
    ensures SquaredDeviations(s, m) >= 0.0
  {
    if |s| > 0 {
      SquaredDeviationsNonNegative(s[..|s| - 1], m);
      SquareNonNegative(s[|s| - 1] - m);
    }
  }

  /** Bessel's division keeps a non-negative sum non-negative. */
  lemma BesselNonNegative(d: real, n: int)
    requires n > 1 && d >= 0.0
    ensures Bessel(d, n) >= 0.0
  {
  }

  /** Dividing both sides of n * lo <= x <= n * hi by a positive n. */
  lemma DivideBounds(x: real, n: real, lo: real, hi: real)
    requires n > 0.0 && n * lo <= x <= n * hi
    ensures lo <= x / n <= hi
  {
    assert (x / n) * n == x;
  }

  /** Every sample lies in [lo, hi], so the sum lies in [n * lo, n * hi]. */
  lemma {:induction false} SumBounds(s: seq<real>, lo: real, hi: real)
    requires forall k :: 0 <= k < |s| ==> lo <= s[k] <= hi
    ensures (|s| as real) * lo <= Sum(s) <= (|s| as real) * hi
  {
    if |s| > 0 {
      SumBounds(s[..|s| - 1], lo, hi);
      assert ((|s| - 1) as real) * lo + lo == (|s| as real) * lo;
      assert ((|s| - 1) as real) * hi + hi == (|s| as real) * hi;
    }
  }

  /** Samples within [lo, hi] have their mean within [lo, hi]. */
  lemma MeanWithinBounds(s: seq<real>, lo: real, hi: real)
    requires |s| > 0
    requires forall k :: 0 <= k < |s| ==> lo <= s[k] <= hi
    ensures lo <= Mean(s) <= hi
  {
    SumBounds(s, lo, hi);
    DivideBounds(Sum(s), |s| as real, lo, hi);
  }

  // ---------------------------------------------------------------------------
  // The collector

  /** `StatsCollector`: the list of recorded waits of one run. */
  class StatsCollector {
    var waits: seq<real>

    constructor ()
      ensures waits == []
    {
      waits := [];
    }

    /** `add_wait`: appends one wait. */
    method AddWait(waitTime: real)
      modifies this
      ensures waits == old(waits) + [waitTime]
    {
      waits := waits + [waitTime];
    }

    /** `results`: the summary of the recorded waits; reading it changes nothing. */
    function Results(): (r: RunResult)
      reads this
      ensures r.count == |waits|
      ensures r == Summarize(waits)
    {
      Summarize(waits)
    }
  }
}
