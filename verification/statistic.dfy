/** The descriptive statistics and Pearson chi-square tests of
    `StatisticalAnalyzer` (statistic.py:15-82).

    Library values are inputs: the natural logarithm in Sturges' rule, the
    histogram edges and counts numpy computes, the square roots, the Student-t
    and chi-square quantiles, the candidate distributions' bin probabilities
    and the chi-square upper-tail probability. */
module Statistic {
  import opened RealSums
  import opened Outcomes
  import opened BinMerging

  /** Coefficient of the logarithm in Sturges' rule. */
  const SturgesFactor: real := 3.322

  function Min(s: seq<real>): (m: real)
    requires |s| > 0
    ensures forall i :: 0 <= i < |s| ==> m <= s[i]
    ensures m in s
  {
    if |s| == 1 then s[0]
    else
      var t := Min(s[..|s| - 1]);
      if s[|s| - 1] < t then s[|s| - 1] else t
  }

  function Max(s: seq<real>): (m: real)
    requires |s| > 0
    ensures forall i :: 0 <= i < |s| ==> s[i] <= m
    ensures m in s
  {
    if |s| == 1 then s[0]
    else
      var t := Max(s[..|s| - 1]);
      if s[|s| - 1] > t then s[|s| - 1] else t
  }

  /** The analyzer built from the observations; `logN` is the natural
      logarithm of their number. */
  datatype Analyzer = Analyzer(values: seq<real>, logN: real)
  {
    ghost predicate Valid()
    {
      |values| > 0 && logN >= 0.0
    }

    function N(): nat
    {
      |values|
    }

    function XMin(): real
      requires Valid()
    {
      Min(values)
    }

    function XMax(): real
      requires Valid()
    {
      Max(values)
    }

    /** Sturges' rule bin width; positive exactly when the sample is not
        constant, which needs at least two observations. */
    function H(): (h: real)
      requires Valid()
      ensures h >= 0.0
      ensures h > 0.0 <==> XMin() < XMax()
      ensures h > 0.0 ==> N() >= 2
    {
      (XMax() - XMin()) / (1.0 + SturgesFactor * logN)
    }
  }

  /** The constructor: numpy's minimum of an empty array raises. */
  function NewAnalyzer(data: seq<real>, logN: real): (r: Result<Analyzer>)
    requires logN >= 0.0
    ensures r.Success? <==> |data| > 0
    ensures r.Failure? ==> r.error == EmptySample
    ensures r.Success? ==> r.value.Valid() && r.value.values == data && r.value.N() == |data|
  {
    if |data| == 0 then Failure(EmptySample) else Success(Analyzer(data, logN))
  }

  // ---------------------------------------------------------------------
  // Histogram summary

  /** Bin midpoints `(edges[:-1] + edges[1:]) / 2`. */
  function Midpoints(edges: seq<real>): (mids: seq<real>)
    ensures |mids| == if |edges| == 0 then 0 else |edges| - 1
  {
    if |edges| == 0 then []
    else seq(|edges| - 1, i requires 0 <= i < |edges| - 1 => (edges[i] + edges[i + 1]) / 2.0)
  }

  /** `np.sum(x * w)`; its bounds are the lemmas that follow. */
  function WeightedSum(x: seq<real>, w: seq<real>): (r: real)
    requires |x| == |w|
  {
    if |x| == 0 then 0.0
    else WeightedSum(x[..|x| - 1], w[..|w| - 1]) + x[|x| - 1] * w[|w| - 1]
  }

  /** `np.sum((x - m)**2 * w)`: non-negative for non-negative weights. */
  function SquaredDeviations(x: seq<real>, w: seq<real>, m: real): (r: real)
    requires |x| == |w|
    ensures (forall i :: 0 <= i < |w| ==> w[i] >= 0.0) ==> r >= 0.0
  {
    if |x| == 0 then 0.0
    else
      var d := x[|x| - 1] - m;
      SquaredDeviations(x[..|x| - 1], w[..|w| - 1], m) + d * d * w[|w| - 1]
  }

  datatype Summary = Summary(edges: seq<real>, counts: seq<real>, mids: seq<real>, mean: real, variance: real)

  /** `calculate` up to the confidence intervals. Nothing is computed when the
      bin width is not positive; otherwise the histogram-weighted mean and the
      sample variance (divided by N - 1) of the bin midpoints. `edges` and
      `counts` are numpy's histogram of the observations. */
  function Calculate(a: Analyzer, edges: seq<real>, counts: seq<real>): (r: Option<Summary>)
    requires a.Valid()
    requires |edges| == |counts| + 1
    ensures r.None? <==> a.H() <= 0.0
    ensures r.Some? ==> r.value.edges == edges && r.value.counts == counts
    ensures r.Some? ==> |r.value.mids| == |counts| && r.value.mids == Midpoints(edges)
    ensures r.Some? ==> r.value.mean * (a.N() as real) == WeightedSum(r.value.mids, counts)
    ensures r.Some? ==> Times(r.value.variance, a.N() as real - 1.0) == SquaredDeviations(r.value.mids, counts, r.value.mean)
    ensures r.Some? && (forall i :: 0 <= i < |counts| ==> counts[i] >= 0.0) ==> r.value.variance >= 0.0
  {
    if a.H() <= 0.0 then None
    else
      var n := a.N() as real;
      var mids := Midpoints(edges);
      var m := SampleMean(WeightedSum(mids, counts), n);
      var d := SampleVariance(SquaredDeviations(mids, counts, m), n);
      Some(Summary(edges, counts, mids, m, d))
  }

  /** Every midpoint is as far from its left edge as from its right edge. */
  lemma MidpointsEquidistant(edges: seq<real>)
    ensures var mids := Midpoints(edges);
            forall i :: 0 <= i < |mids| ==> mids[i] - edges[i] == edges[i + 1] - mids[i]
  {
  }

  /** A total over `n` observations. */
  function SampleMean(total: real, n: real): (m: real)
    requires n > 0.0
    ensures m * n == total
  {
    total / n
  }

  /** The squared deviations over `n - 1` degrees of freedom. */
  function SampleVariance(sd: real, n: real): (v: real)
    requires n > 1.0
    ensures Times(v, n - 1.0) == sd
    ensures sd >= 0.0 ==> v >= 0.0
  {
    QuotientSign(sd, n - 1.0);
    sd / (n - 1.0)
  }

  /** Between consecutive strictly increasing edges lies their midpoint, so
      the midpoints are strictly increasing too. */
  lemma MidpointsBetweenEdges(edges: seq<real>)
    requires forall i :: 0 <= i < |edges| - 1 ==> edges[i] < edges[i + 1]
    ensures var mids := Midpoints(edges);
            && (forall i :: 0 <= i < |mids| ==> edges[i] < mids[i] < edges[i + 1])
            && (forall i :: 0 <= i < |mids| - 1 ==> mids[i] < mids[i + 1])
  {
  }

  /** Evenly spaced edges `start + i*h` have the bin centres `start + (i + 1/2)*h`. */
  lemma MidpointsOfEvenEdges(edges: seq<real>, start: real, h: real)
    requires forall i :: 0 <= i < |edges| ==> edges[i] == start + (i as real) * h
    ensures var mids := Midpoints(edges);
            forall i :: 0 <= i < |mids| ==> mids[i] == start + (i as real + 0.5) * h
  {
    var mids := Midpoints(edges);
    forall i | 0 <= i < |mids|
      ensures mids[i] == start + (i as real + 0.5) * h
    {
      assert edges[i + 1] == start + (i as real) * h + h;
    }
  }

  /** A product kept as a function application, so that facts about it are
      matched as terms rather than re-derived by the arithmetic solver. */
  function Times(a: real, b: real): real
  {
    a * b
  }

  lemma TimesDistributes(a: real, b: real, c: real)
    ensures Times(a, b + c) == Times(a, b) + Times(a, c)
  {
  }

  lemma TimesMonotone(a: real, b: real, c: real)
    requires a <= b && c >= 0.0
    ensures Times(a, c) <= Times(b, c)
  {
    assert Times(b, c) - Times(a, c) == (b - a) * c;
  }

  lemma {:induction false} WeightedSumAtLeast(x: seq<real>, w: seq<real>, lo: real)
    requires |x| == |w|
    requires forall i :: 0 <= i < |x| ==> lo <= x[i]
    requires forall i :: 0 <= i < |w| ==> w[i] >= 0.0
    ensures Times(lo, Sum(w)) <= WeightedSum(x, w)
    decreases |x|
  {
    if |x| == 0 {
      assert Times(lo, 0.0) == 0.0;
    } else {
      var k := |x| - 1;
      var xs, ws := x[..k], w[..k];
      WeightedSumAtLeast(xs, ws, lo);
      TimesDistributes(lo, Sum(ws), w[k]);
      TimesMonotone(lo, x[k], w[k]);
      assert WeightedSum(x, w) == WeightedSum(xs, ws) + Times(x[k], w[k]);
    }
  }

  lemma {:induction false} WeightedSumAtMost(x: seq<real>, w: seq<real>, hi: real)
    requires |x| == |w|
    requires forall i :: 0 <= i < |x| ==> x[i] <= hi
    requires forall i :: 0 <= i < |w| ==> w[i] >= 0.0
    ensures WeightedSum(x, w) <= Times(hi, Sum(w))
    decreases |x|
  {
    if |x| == 0 {
      assert Times(hi, 0.0) == 0.0;
    } else {
      var k := |x| - 1;
      var xs, ws := x[..k], w[..k];
      WeightedSumAtMost(xs, ws, hi);
      TimesDistributes(hi, Sum(ws), w[k]);
      TimesMonotone(x[k], hi, w[k]);
      assert WeightedSum(x, w) == WeightedSum(xs, ws) + Times(x[k], w[k]);
    }
  }

  lemma QuotientBetween(lo: real, hi: real, n: real, ws: real)
    requires n > 0.0
    requires Times(lo, n) <= ws <= Times(hi, n)
    ensures lo <= ws / n <= hi
  {
  }

  /** A weighted mean with non-negative weights that sum to n lies between
      the extreme values. */
  lemma WeightedMeanBounds(x: seq<real>, w: seq<real>, n: real)
    requires |x| == |w| && |x| > 0 && n > 0.0
    requires forall i :: 0 <= i < |w| ==> w[i] >= 0.0
    requires Sum(w) == n
    ensures Min(x) <= WeightedSum(x, w) / n <= Max(x)
  {
    WeightedSumAtLeast(x, w, Min(x));
    WeightedSumAtMost(x, w, Max(x));
    QuotientBetween(Min(x), Max(x), Sum(w), WeightedSum(x, w));
  }

  /** When every observation is counted in some bin, the histogram mean lies
      between the smallest and the largest midpoint. */
  lemma MeanWithinMidpoints(a: Analyzer, edges: seq<real>, counts: seq<real>)
    requires a.Valid() && |edges| == |counts| + 1 && |counts| > 0
    requires forall i :: 0 <= i < |counts| ==> counts[i] >= 0.0
    requires Sum(counts) == a.N() as real
    requires Calculate(a, edges, counts).Some?
    ensures var s := Calculate(a, edges, counts).value;
            Min(s.mids) <= s.mean <= Max(s.mids)
  {
    var s := Calculate(a, edges, counts).value;
    WeightedMeanBounds(s.mids, counts, a.N() as real);
  }

  // ---------------------------------------------------------------------
  // Confidence intervals

  datatype Intervals = Intervals(meanLow: real, meanHigh: real, varLow: real, varHigh: real)

  /** The 1 - alpha intervals for the mean and the variance: `sd` is the
      square root of the variance, `sqrtN` that of N, `tCrit` the Student-t
      quantile, `chiLow`/`chiHigh` the chi-square quantiles. */
  function ConfidenceIntervals(s: Summary, n: nat, sd: real, sqrtN: real, tCrit: real, chiLow: real, chiHigh: real): (ci: Intervals)
    requires sqrtN > 0.0 && chiLow > 0.0 && chiHigh > 0.0
    ensures ci.meanLow + ci.meanHigh == 2.0 * s.mean
    ensures tCrit >= 0.0 && sd >= 0.0 ==> ci.meanLow <= s.mean <= ci.meanHigh
    ensures n >= 1 && s.variance >= 0.0 && chiLow <= chiHigh ==> ci.varLow <= ci.varHigh
  {
    var margin := tCrit * (sd / sqrtN);
    var k := (n as real) - 1.0;
    Intervals(s.mean - margin, s.mean + margin, k * s.variance / chiHigh, k * s.variance / chiLow)
  }

  /** With a positive deviation, a strictly larger critical value gives a
      strictly wider mean interval: the half-width is `t * sd / sqrtN`. */
  lemma MeanIntervalWidensStrictly(s: Summary, n: nat, sd: real, sqrtN: real, t1: real, t2: real, chiLow: real, chiHigh: real)
    requires sqrtN > 0.0 && chiLow > 0.0 && chiHigh > 0.0
    requires sd > 0.0 && t1 < t2
    ensures var c1 := ConfidenceIntervals(s, n, sd, sqrtN, t1, chiLow, chiHigh);
            var c2 := ConfidenceIntervals(s, n, sd, sqrtN, t2, chiLow, chiHigh);
            c1.meanHigh - c1.meanLow < c2.meanHigh - c2.meanLow
  {
    var q := sd / sqrtN;
    QuotientNonNegative(sd, sqrtN);
    ProductPositive(t2 - t1, q);
    assert (t2 - t1) * q > 0.0;
  }

  /** For a positive variance and N >= 2, the variance interval
      `((N-1) d / chiHigh, (N-1) d / chiLow)` contains d exactly when the
      quantiles bracket N - 1: the lower bound is at most d iff
      `N - 1 <= chiHigh`, the upper bound at least d iff `chiLow <= N - 1`. */
  lemma VarianceIntervalContains(s: Summary, n: nat, sd: real, sqrtN: real, tCrit: real, chiLow: real, chiHigh: real)
    requires sqrtN > 0.0 && chiLow > 0.0 && chiHigh > 0.0
    requires n >= 2 && s.variance > 0.0
    ensures var ci := ConfidenceIntervals(s, n, sd, sqrtN, tCrit, chiLow, chiHigh);
            && (ci.varLow <= s.variance <==> (n as real) - 1.0 <= chiHigh)
            && (s.variance <= ci.varHigh <==> chiLow <= (n as real) - 1.0)
  {
    var k := (n as real) - 1.0;
    var ci := ConfidenceIntervals(s, n, sd, sqrtN, tCrit, chiLow, chiHigh);
    ScaledAtMost(k, s.variance, chiHigh, ci.varLow);
    ScaledAtLeast(k, s.variance, chiLow, ci.varHigh);
  }

  /** `k v / c <= v` exactly when `k <= c`, for positive v and c. */
  lemma ScaledAtMost(k: real, v: real, c: real, r: real)
    requires v > 0.0 && c > 0.0 && r == k * v / c
    ensures r <= v <==> k <= c
  {
    ScaledDifference(k, v, c, r);
  }

  /** `v <= k v / c` exactly when `c <= k`, for positive v and c. */
  lemma ScaledAtLeast(k: real, v: real, c: real, r: real)
    requires v > 0.0 && c > 0.0 && r == k * v / c
    ensures v <= r <==> c <= k
  {
    ScaledDifference(k, v, c, r);
  }

  /** `k v / c - v` has the sign of `k - c`, for positive v and c. */
  lemma ScaledDifference(k: real, v: real, c: real, r: real)
    requires v > 0.0 && c > 0.0 && r == k * v / c
    ensures (r - v <= 0.0 <==> k - c <= 0.0) && (r - v >= 0.0 <==> k - c >= 0.0)
  {
    assert r * c == k * v;
    assert (r - v) * c == (k - c) * v;
    SameSign(r - v, c);
    SameSign(k - c, v);
  }

  /** Multiplying by a positive number keeps the sign. */
  lemma SameSign(x: real, c: real)
    requires c > 0.0
    ensures (x <= 0.0 <==> x * c <= 0.0) && (x >= 0.0 <==> x * c >= 0.0)
  {
    if x < 0.0 {
      assert x * c < 0.0;
    } else if x > 0.0 {
      assert x * c > 0.0;
    }
  }

  /** A larger critical value (a smaller alpha) gives a mean interval at least as wide. */
  lemma MeanIntervalWidens(s: Summary, n: nat, sd: real, sqrtN: real, t1: real, t2: real, chiLow: real, chiHigh: real)
    requires sqrtN > 0.0 && chiLow > 0.0 && chiHigh > 0.0
    requires sd >= 0.0 && t1 <= t2
    ensures var c1 := ConfidenceIntervals(s, n, sd, sqrtN, t1, chiLow, chiHigh);
            var c2 := ConfidenceIntervals(s, n, sd, sqrtN, t2, chiLow, chiHigh);
            c1.meanHigh - c1.meanLow <= c2.meanHigh - c2.meanLow
  {
    assert (t2 - t1) * (sd / sqrtN) >= 0.0;
  }

  // ---------------------------------------------------------------------
  // Pearson tests

  datatype Family = Normal | Exponential

  /** Parameters fitted from the sample: mean and deviation, or the rate. */
  function FittedParameters(f: Family): nat
  {
    match f
    case Normal => 2
    case Exponential => 1
  }

  /** Fewest merged bins for which the statistic is computed. */
  function MinMergedBins(f: Family): nat
  {
    match f
    case Normal => 3
    case Exponential => 2
  }

  /** `max(1, k - 3)` for the normal test and `max(1, k - 2)` for the
      exponential one: one degree per merged bin, less one for the total and
      one per fitted parameter, floored at 1. */
  function DegreesOfFreedom(f: Family, k: nat): (df: nat)
    ensures df >= 1
    ensures k >= FittedParameters(f) + 2 ==> df + 1 + FittedParameters(f) == k
    ensures k < FittedParameters(f) + 2 ==> df == 1
  {
    match f
    case Normal => if k - 3 > 1 then k - 3 else 1
    case Exponential => if k - 2 > 1 then k - 2 else 1
  }

  lemma ProductPositive(a: real, b: real)
    requires a > 0.0 && b > 0.0
    ensures Times(a, b) > 0.0
  {
  }

  lemma SquareNonNegative(d: real)
    ensures Times(d, d) >= 0.0
    ensures d != 0.0 ==> Times(d, d) > 0.0
  {
    if d > 0.0 {
      ProductPositive(d, d);
    } else if d < 0.0 {
      ProductPositive(-d, -d);
      assert Times(d, d) == Times(-d, -d);
    }
  }

  /** Dividing by a positive number keeps a non-negative value non-negative. */
  lemma QuotientSign(x: real, e: real)
    requires e > 0.0
    ensures x >= 0.0 ==> x / e >= 0.0
  {
    if x >= 0.0 {
      QuotientNonNegative(x, e);
    }
  }

  lemma QuotientNonNegative(x: real, e: real)
    requires e > 0.0 && x >= 0.0
    ensures x / e >= 0.0
    ensures x / e == 0.0 <==> x == 0.0
  {
  }

  /** One bin's term `(o - e)**2 / e`: never negative, and zero exactly when
      the bin is fitted perfectly. */
  function Contribution(o: real, e: real): (c: real)
    requires e > 0.0
    ensures c >= 0.0
    ensures c == 0.0 <==> o == e
  {
    SquareNonNegative(o - e);
    QuotientNonNegative(Times(o - e, o - e), e);
    Times(o - e, o - e) / e
  }

  /** `np.sum((obs - exp)**2 / exp)`. */
  function ChiSquare(obs: seq<real>, exp: seq<real>): (x: real)
    requires |obs| == |exp|
    requires forall j :: 0 <= j < |exp| ==> exp[j] > 0.0
    ensures x >= 0.0
  {
    if |exp| == 0 then 0.0
    else
      var k := |exp| - 1;
      ChiSquare(obs[..k], exp[..k]) + Contribution(obs[k], exp[k])
  }

  /** The statistic is zero exactly for a perfect fit. */
  lemma {:induction false} ChiSquareZeroIff(obs: seq<real>, exp: seq<real>)
    requires |obs| == |exp|
    requires forall j :: 0 <= j < |exp| ==> exp[j] > 0.0
    ensures ChiSquare(obs, exp) == 0.0 <==> obs == exp
    decreases |exp|
  {
    if |exp| > 0 {
      var k := |exp| - 1;
      ChiSquareZeroIff(obs[..k], exp[..k]);
      if ChiSquare(obs, exp) == 0.0 {
        assert obs == obs[..k] + [obs[k]];
        assert exp == exp[..k] + [exp[k]];
      }
    }
  }

  /** A float that may be NaN. */
  datatype Num = NaN | Finite(v: real)

  datatype Decision = Accepted | Rejected

  datatype FitResult = FitResult(chi2: Num, df: nat, p: Num, decision: Decision)

  /** `"Accepted" if p >= alpha else "Rejected"`; a comparison with NaN is false. */
  function Decide(p: Num, alpha: real): (d: Decision)
    ensures d == Accepted <==> p.Finite? && p.v >= alpha
  {
    match p
    case NaN => Rejected
    case Finite(v) => if v >= alpha then Accepted else Rejected
  }

  /** Merged bins as `_merge_intervals` returns them. */
  ghost predicate WellMerged(m: Merged)
  {
    |m.obs| == |m.exp| && forall j :: 0 <= j < |m.exp| ==> m.exp[j] >= MinExpected
  }

  /** The test on already merged bins: degrees of freedom, the statistic when
      enough merged bins remain (NaN otherwise), its upper-tail probability
      `1 - chi2.cdf(x, df)` taken from `upperTail`, and the decision. */
  function TestMerged(f: Family, m: Merged, alpha: real, upperTail: (real, nat) -> real): (r: FitResult)
    requires WellMerged(m)
    ensures r.df == DegreesOfFreedom(f, |m.exp|)
    ensures r.df >= 1
    ensures r.chi2.NaN? <==> |m.exp| < MinMergedBins(f)
    ensures |m.exp| >= MinMergedBins(f) ==> r.chi2 == Finite(ChiSquare(m.obs, m.exp))
    ensures r.chi2.Finite? ==> r.p == Finite(upperTail(r.chi2.v, r.df))
    ensures r.chi2.Finite? ==> r.chi2.v >= 0.0 && (r.chi2.v == 0.0 <==> m.obs == m.exp)
    ensures r.decision == Accepted <==> r.chi2.Finite? && upperTail(r.chi2.v, r.df) >= alpha
    ensures r.chi2.NaN? ==> r.p.NaN? && r.decision == Rejected
  {
    var df := DegreesOfFreedom(f, |m.exp|);
    var chi2 := if |m.exp| >= MinMergedBins(f) then Finite(ChiSquare(m.obs, m.exp)) else NaN;
    var p := match chi2 case NaN => NaN case Finite(x) => Finite(upperTail(x, df));
    ChiSquareZeroIff(m.obs, m.exp);
    FitResult(chi2, df, p, Decide(p, alpha))
  }

  /** One Pearson test (one half of `_run_pearson_tests`): merge the bins,
      then test the merged bins. */
  function PearsonTest(f: Family, observed: seq<real>, expected: seq<real>, alpha: real,
                       upperTail: (real, nat) -> real): (r: FitResult)
    ensures WellMerged(MergeIntervals(observed, expected))
    ensures var k := |MergeIntervals(observed, expected).exp|;
            r.df == DegreesOfFreedom(f, k) && r.df >= 1 && (r.chi2.NaN? <==> k < MinMergedBins(f))
    ensures var m := MergeIntervals(observed, expected);
            |m.exp| >= MinMergedBins(f) ==> r.chi2 == Finite(ChiSquare(m.obs, m.exp))
    ensures r.chi2.Finite? ==> r.chi2.v >= 0.0 && r.p == Finite(upperTail(r.chi2.v, r.df))
    ensures r.decision == Accepted <==> r.chi2.Finite? && upperTail(r.chi2.v, r.df) >= alpha
  {
    var m := MergeIntervals(observed, expected);
    TestMerged(f, m, alpha, upperTail)
  }

  /** `N * p_i`: the expected counts add up to N times the total
      probability of the bins. */
  function ExpectedCounts(n: nat, probs: seq<real>): (e: seq<real>)
    ensures |e| == |probs|
    ensures forall i :: 0 <= i < |probs| ==> e[i] == Times(n as real, probs[i])
    ensures Sum(e) == Times(n as real, Sum(probs))
  {
    var e := seq(|probs|, i requires 0 <= i < |probs| => Times(n as real, probs[i]));
    SumScaled(n as real, probs, e);
    e
  }

  /** Scaling every element scales the sum. */
  lemma {:induction false} SumScaled(c: real, a: seq<real>, b: seq<real>)
    requires |a| == |b|
    requires forall i :: 0 <= i < |a| ==> b[i] == Times(c, a[i])
    ensures Sum(b) == Times(c, Sum(a))
    decreases |a|
  {
    if |a| == 0 {
      assert Times(c, 0.0) == 0.0;
    } else {
      var k := |a| - 1;
      SumScaled(c, a[..k], b[..k]);
      TimesDistributes(c, Sum(a[..k]), a[k]);
    }
  }

  /** `_run_pearson_tests`: the normal and the exponential test on the same
      histogram counts, with each family's bin probabilities given. */
  function RunPearsonTests(s: Summary, n: nat, normalProbs: seq<real>, expProbs: seq<real>,
                           alpha: real, upperTail: (real, nat) -> real): (r: (FitResult, FitResult))
    ensures r.0 == PearsonTest(Normal, s.counts, ExpectedCounts(n, normalProbs), alpha, upperTail)
    ensures r.1 == PearsonTest(Exponential, s.counts, ExpectedCounts(n, expProbs), alpha, upperTail)
    ensures r.0.df >= 1 && r.1.df >= 1
    ensures r.0.decision == Accepted ==> r.0.chi2.Finite? && r.0.chi2.v >= 0.0 && upperTail(r.0.chi2.v, r.0.df) >= alpha
    ensures r.1.decision == Accepted ==> r.1.chi2.Finite? && r.1.chi2.v >= 0.0 && upperTail(r.1.chi2.v, r.1.df) >= alpha
  {
    (PearsonTest(Normal, s.counts, ExpectedCounts(n, normalProbs), alpha, upperTail),
     PearsonTest(Exponential, s.counts, ExpectedCounts(n, expProbs), alpha, upperTail))
  }

  /** With the same merged bins, the exponential statistic is defined whenever
      the normal one is, and has one more degree of freedom once both exceed the floor. */
  lemma NormalNeedsMoreBins(observed: seq<real>, expected: seq<real>, alpha: real, upperTail: (real, nat) -> real)
    ensures var rn := PearsonTest(Normal, observed, expected, alpha, upperTail);
            var re := PearsonTest(Exponential, observed, expected, alpha, upperTail);
            && (rn.chi2.Finite? ==> re.chi2.Finite? && re.chi2 == rn.chi2)
            && (|MergeIntervals(observed, expected).exp| >= 4 ==> re.df == rn.df + 1)
  {
    var m := MergeIntervals(observed, expected);
    assert WellMerged(m);
  }
}
