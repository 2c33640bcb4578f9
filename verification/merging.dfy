/** The low-count bin merging of the Pearson goodness-of-fit test
    (`StatisticalAnalyzer._merge_intervals`, statistic.py:53-64).

    Observed and expected bin counts are scanned pairwise from the left. The
    running sums are emitted as one merged bin as soon as the running expected
    sum reaches 5, and then restart from zero. A trailing run that never
    reached 5 is folded into the last merged bin when its expected sum is
    positive and a merged bin exists; otherwise it is dropped.

    Three descriptions of the same result live here:
    - the accumulator fold the source performs (`Step`, `ScanPrefix`, `Finish`);
    - a group-wise reference that recomputes each run's sum (`Boundaries`);
    - a declarative characterisation (`ClosedGroups`, `MergedBy`) that is
      shown to determine the result uniquely. */
module BinMerging {
  import opened RealSums

  /** Expected count a merged bin must reach. */
  const MinExpected: real := 5.0

  datatype Merged = Merged(obs: seq<real>, exp: seq<real>)

  /** Number of pairs Python's `zip` yields. */
  function Paired(obs: seq<real>, exp: seq<real>): (n: nat)
    ensures n <= |obs| && n <= |exp|
    ensures n == |obs| || n == |exp|
  {
    if |obs| <= |exp| then |obs| else |exp|
  }

  // ---------------------------------------------------------------------
  // Declarative characterisation

  /** The run exp[a..b] closes exactly at b: its sum reaches the threshold and
      no shorter run from a does. */
  ghost predicate ClosesAt(exp: seq<real>, a: nat, b: nat)
    requires a < b <= |exp|
  {
    && RunSum(exp, a, b) >= MinExpected
    && forall m :: a < m < b ==> RunSum(exp, a, m) < MinExpected
  }

  /** The run starting at a has not reached the threshold anywhere up to n. */
  ghost predicate StaysOpen(exp: seq<real>, a: nat, n: nat)
    requires a <= n <= |exp|
  {
    forall m :: a < m <= n ==> RunSum(exp, a, m) < MinExpected
  }

  /** `cuts` are the starts of the closed groups of exp[..n] followed by the
      start of the trailing, still open run, which has not reached the
      threshold anywhere up to n. */
  ghost predicate ClosedGroups(exp: seq<real>, n: nat, cuts: seq<nat>)
  {
    && n <= |exp|
    && |cuts| >= 1
    && cuts[0] == 0
    && cuts[|cuts| - 1] <= n
    && Increasing(cuts)
    && (forall j :: 0 <= j < |cuts| - 1 ==> ClosesAt(exp, cuts[j], cuts[j + 1]))
    && StaysOpen(exp, cuts[|cuts| - 1], n)
  }

  /** Whether the trailing run is folded into the last group. */
  ghost predicate Folds(exp: seq<real>, n: nat, cuts: seq<nat>)
    requires ClosedGroups(exp, n, cuts)
  {
    |cuts| > 1 && RunSum(exp, cuts[|cuts| - 1], n) > 0.0
  }

  /** End of merged bin j: the next boundary, or n for a last bin that
      absorbed the trailing run. */
  ghost function GroupEnd(exp: seq<real>, n: nat, cuts: seq<nat>, j: nat): (e: nat)
    requires ClosedGroups(exp, n, cuts)
    requires j < |cuts| - 1
    ensures cuts[j] < e <= n
  {
    if Folds(exp, n, cuts) && j == |cuts| - 2 then n else cuts[j + 1]
  }

  /** `r` holds, for every group, the observed and expected sums over the
      contiguous run the group covers, in input order. */
  ghost predicate MergedBy(obs: seq<real>, exp: seq<real>, n: nat, cuts: seq<nat>, r: Merged)
    requires n <= |obs| && ClosedGroups(exp, n, cuts)
  {
    && |r.obs| == |cuts| - 1
    && |r.exp| == |cuts| - 1
    && forall j :: 0 <= j < |cuts| - 1 ==>
         && r.obs[j] == RunSum(obs, cuts[j], GroupEnd(exp, n, cuts, j))
         && r.exp[j] == RunSum(exp, cuts[j], GroupEnd(exp, n, cuts, j))
  }

  // ---------------------------------------------------------------------
  // Group-wise reference

  /** Boundaries of the groups of exp[..i], each group recomputed from its start. */
  function Boundaries(exp: seq<real>, i: nat): (cuts: seq<nat>)
    requires i <= |exp|
    ensures ClosedGroups(exp, i, cuts)
    decreases i
  {
    if i == 0 then [0]
    else
      var c := Boundaries(exp, i - 1);
      if RunSum(exp, c[|c| - 1], i) >= MinExpected then c + [i] else c
  }

  // ---------------------------------------------------------------------
  // The source's accumulator fold

  /** Loop state: merged bins so far and the running sums of the open run. */
  datatype Scan = Scan(obsM: seq<real>, expM: seq<real>, cObs: real, cExp: real)

  /** One iteration of the loop body: a bin is emitted exactly when the
      running expected sum reaches the threshold. */
  function Step(acc: Scan, o: real, e: real): (r: Scan)
    ensures acc.cExp + e >= MinExpected <==> |r.expM| == |acc.expM| + 1
    ensures |r.obsM| - |acc.obsM| == |r.expM| - |acc.expM| <= 1
  {
    var cObs := acc.cObs + o;
    var cExp := acc.cExp + e;
    if cExp >= MinExpected then Scan(acc.obsM + [cObs], acc.expM + [cExp], 0.0, 0.0)
    else Scan(acc.obsM, acc.expM, cObs, cExp)
  }

  /** An iteration keeps the bins emitted so far, and no count is lost
      between the emitted bins and the running sums. */
  lemma StepConserves(acc: Scan, o: real, e: real)
    ensures var r := Step(acc, o, e);
            && |r.expM| >= |acc.expM| && r.expM[..|acc.expM|] == acc.expM
            && |r.obsM| >= |acc.obsM| && r.obsM[..|acc.obsM|] == acc.obsM
            && Sum(r.obsM) + r.cObs == Sum(acc.obsM) + acc.cObs + o
            && Sum(r.expM) + r.cExp == Sum(acc.expM) + acc.cExp + e
  {
    SumSnoc(acc.obsM, acc.cObs + o);
    SumSnoc(acc.expM, acc.cExp + e);
  }

  /** The loop state agrees with the boundaries: one merged bin per closed
      group holding that group's sums, and the open run's sums pending. */
  ghost predicate Tracks(obs: seq<real>, exp: seq<real>, i: nat, cuts: seq<nat>, acc: Scan)
    requires i <= |obs| && ClosedGroups(exp, i, cuts)
  {
    && |acc.obsM| == |cuts| - 1
    && |acc.expM| == |cuts| - 1
    && (forall j :: 0 <= j < |cuts| - 1 ==>
          acc.obsM[j] == RunSum(obs, cuts[j], cuts[j + 1]) && acc.expM[j] == RunSum(exp, cuts[j], cuts[j + 1]))
    && acc.cObs == RunSum(obs, cuts[|cuts| - 1], i)
    && acc.cExp == RunSum(exp, cuts[|cuts| - 1], i)
  }

  /** The loop state after the first i pairs. */
  function ScanPrefix(obs: seq<real>, exp: seq<real>, i: nat): (acc: Scan)
    requires i <= |obs| && i <= |exp|
    ensures Tracks(obs, exp, i, Boundaries(exp, i), acc)
    decreases i
  {
    if i == 0 then Scan([], [], 0.0, 0.0)
    else
      var prev := ScanPrefix(obs, exp, i - 1);
      StepTracks(obs, exp, i, Boundaries(exp, i - 1), prev);
      Step(prev, obs[i - 1], exp[i - 1])
  }

  /** The statement after the loop: fold a positive trailing run into the
      last bin. The bins keep their number. */
  function Finish(acc: Scan): (r: Merged)
    requires |acc.obsM| == |acc.expM|
    ensures |r.obs| == |r.exp| == |acc.expM|
  {
    if acc.cExp > 0.0 && |acc.expM| > 0 then
      var k := |acc.expM| - 1;
      Merged(acc.obsM[k := acc.obsM[k] + acc.cObs], acc.expM[k := acc.expM[k] + acc.cExp])
    else
      Merged(acc.obsM, acc.expM)
  }

  /** Finishing never lowers a bin; a fold carries the running sums into the
      totals, and otherwise nothing changes. */
  lemma FinishConserves(acc: Scan)
    requires |acc.obsM| == |acc.expM|
    ensures var r := Finish(acc);
            && (forall j :: 0 <= j < |r.exp| ==> r.exp[j] >= acc.expM[j])
            && (acc.cExp > 0.0 && |acc.expM| > 0 ==>
                  Sum(r.obs) == Sum(acc.obsM) + acc.cObs && Sum(r.exp) == Sum(acc.expM) + acc.cExp)
            && (!(acc.cExp > 0.0 && |acc.expM| > 0) ==> r == Merged(acc.obsM, acc.expM))
  {
    if acc.cExp > 0.0 && |acc.expM| > 0 {
      SumBumpLast(acc.obsM, acc.cObs);
      SumBumpLast(acc.expM, acc.cExp);
    }
  }

  /** `_merge_intervals`. */
  function MergeIntervals(obs: seq<real>, exp: seq<real>): (r: Merged)
    ensures |r.obs| == |r.exp| <= Paired(obs, exp)
    ensures forall j :: 0 <= j < |r.exp| ==> r.exp[j] >= MinExpected
    ensures MergedBy(obs, exp, Paired(obs, exp), Boundaries(exp, Paired(obs, exp)), r)
  {
    var n := Paired(obs, exp);
    var acc := ScanPrefix(obs, exp, n);
    FinishMatches(obs, exp, n, Boundaries(exp, n), acc);
    Finish(acc)
  }

  // ---------------------------------------------------------------------
  // Lemmas

  /** A strictly increasing sequence of naturals starting at 0 and bounded by n
      has at most n + 1 elements. */
  lemma {:induction false} IncreasingLength(cuts: seq<nat>, n: nat)
    requires |cuts| >= 1 && cuts[0] == 0 && Increasing(cuts) && cuts[|cuts| - 1] <= n
    ensures |cuts| <= n + 1
    decreases |cuts|
  {
    if |cuts| > 1 {
      var k := |cuts| - 1;
      assert cuts[k - 1] < cuts[k];
      IncreasingLength(cuts[..k], n - 1);
    }
  }

  /** One loop iteration keeps the state in step with the boundaries. */
  lemma StepTracks(obs: seq<real>, exp: seq<real>, i: nat, c: seq<nat>, acc: Scan)
    requires 0 < i <= |obs| && i <= |exp|
    requires c == Boundaries(exp, i - 1)
    requires Tracks(obs, exp, i - 1, c, acc)
    ensures Tracks(obs, exp, i, Boundaries(exp, i), Step(acc, obs[i - 1], exp[i - 1]))
  {
    var last := c[|c| - 1];
    RunSumSnoc(obs, last, i - 1);
    RunSumSnoc(exp, last, i - 1);
    if RunSum(exp, last, i) >= MinExpected {
      StepCloses(obs, exp, i, c, acc);
    } else {
      assert Boundaries(exp, i) == c;
    }
  }

  /** The iteration that closes a group appends its sums and restarts at zero. */
  lemma StepCloses(obs: seq<real>, exp: seq<real>, i: nat, c: seq<nat>, acc: Scan)
    requires 0 < i <= |obs| && i <= |exp|
    requires c == Boundaries(exp, i - 1)
    requires Tracks(obs, exp, i - 1, c, acc)
    requires RunSum(exp, c[|c| - 1], i) >= MinExpected
    requires acc.cObs + obs[i - 1] == RunSum(obs, c[|c| - 1], i)
    requires acc.cExp + exp[i - 1] == RunSum(exp, c[|c| - 1], i)
    ensures Tracks(obs, exp, i, Boundaries(exp, i), Step(acc, obs[i - 1], exp[i - 1]))
  {
    var last := c[|c| - 1];
    var s := Step(acc, obs[i - 1], exp[i - 1]);
    var c' := c + [i];
    assert Boundaries(exp, i) == c';
    assert s.obsM == acc.obsM + [RunSum(obs, last, i)];
    assert s.expM == acc.expM + [RunSum(exp, last, i)];
    forall j | 0 <= j < |c'| - 1
      ensures s.obsM[j] == RunSum(obs, c'[j], c'[j + 1])
      ensures s.expM[j] == RunSum(exp, c'[j], c'[j + 1])
    {
      if j < |c| - 1 {
        assert c'[j] == c[j] && c'[j + 1] == c[j + 1];
      }
    }
    assert obs[i..i] == [] && exp[i..i] == [];
  }

  /** Finishing a state that tracks the boundaries yields the characterised result. */
  lemma FinishMatches(obs: seq<real>, exp: seq<real>, n: nat, cuts: seq<nat>, acc: Scan)
    requires n <= |obs| && ClosedGroups(exp, n, cuts) && Tracks(obs, exp, n, cuts, acc)
    ensures |acc.obsM| == |acc.expM|
    ensures MergedBy(obs, exp, n, cuts, Finish(acc))
    ensures |Finish(acc).exp| <= n
    ensures forall j :: 0 <= j < |Finish(acc).exp| ==> Finish(acc).exp[j] >= MinExpected
  {
    IncreasingLength(cuts, n);
    var k := |cuts| - 1;
    var r := Finish(acc);
    if Folds(exp, n, cuts) {
      RunSumSplit(obs, cuts[k - 1], cuts[k], n);
      RunSumSplit(exp, cuts[k - 1], cuts[k], n);
      assert r.obs[k - 1] == RunSum(obs, cuts[k - 1], n);
      assert r.exp[k - 1] == RunSum(exp, cuts[k - 1], n);
      forall j | 0 <= j < k
        ensures r.obs[j] == RunSum(obs, cuts[j], GroupEnd(exp, n, cuts, j))
        ensures r.exp[j] == RunSum(exp, cuts[j], GroupEnd(exp, n, cuts, j))
        ensures r.exp[j] >= MinExpected
      {
        assert ClosesAt(exp, cuts[j], cuts[j + 1]);
      }
    } else {
      assert r.obs == acc.obsM && r.exp == acc.expM;
      forall j | 0 <= j < k
        ensures r.obs[j] == RunSum(obs, cuts[j], GroupEnd(exp, n, cuts, j))
        ensures r.exp[j] == RunSum(exp, cuts[j], GroupEnd(exp, n, cuts, j))
        ensures r.exp[j] >= MinExpected
      {
        assert ClosesAt(exp, cuts[j], cuts[j + 1]);
      }
    }
  }

  /** Where the merged bins stop covering the input: n when the trailing run
      is folded in, else the start of the trailing run, which is dropped. */
  ghost function CoveredEnd(exp: seq<real>, n: nat, cuts: seq<nat>): (e: nat)
    requires ClosedGroups(exp, n, cuts)
    ensures e <= n
  {
    if Folds(exp, n, cuts) then n else cuts[|cuts| - 1]
  }

  /** Sums over the merged bins equal the sums over the covered prefix. */
  lemma MergedTotals(obs: seq<real>, exp: seq<real>, n: nat, cuts: seq<nat>, r: Merged)
    requires n <= |obs| && ClosedGroups(exp, n, cuts) && MergedBy(obs, exp, n, cuts, r)
    ensures Sum(r.obs) == RunSum(obs, 0, CoveredEnd(exp, n, cuts))
    ensures Sum(r.exp) == RunSum(exp, 0, CoveredEnd(exp, n, cuts))
  {
    var k := |cuts| - 1;
    var ends := cuts[..k] + [CoveredEnd(exp, n, cuts)];
    assert Increasing(ends) by {
      forall j, l | 0 <= j < l < |ends|
        ensures ends[j] < ends[l]
      {
        if l < k {
          assert ends[j] == cuts[j] && ends[l] == cuts[l];
        } else {
          assert cuts[j] < cuts[k];
        }
      }
    }
    assert ends[|ends| - 1] <= |obs| && ends[|ends| - 1] <= |exp|;
    forall j | 0 <= j < k
      ensures r.obs[j] == RunSum(obs, ends[j], ends[j + 1])
      ensures r.exp[j] == RunSum(exp, ends[j], ends[j + 1])
    {
      assert ends[j] == cuts[j];
      assert ends[j + 1] == GroupEnd(exp, n, cuts, j);
    }
    SumOfRuns(obs, ends, r.obs);
    SumOfRuns(exp, ends, r.exp);
  }

  /** Totals: a positive trailing run folded into an existing bin keeps both
      totals; otherwise exactly the trailing run's counts are missing. */
  lemma {:induction false} MergeIntervalsTotals(obs: seq<real>, exp: seq<real>)
    ensures var n := Paired(obs, exp);
            var cuts := Boundaries(exp, n);
            var tail := cuts[|cuts| - 1];
            var r := MergeIntervals(obs, exp);
            && (RunSum(exp, tail, n) > 0.0 && |r.exp| > 0 ==>
                  Sum(r.obs) == RunSum(obs, 0, n) && Sum(r.exp) == RunSum(exp, 0, n))
            && (RunSum(exp, tail, n) <= 0.0 || |r.exp| == 0 ==>
                  Sum(r.obs) + RunSum(obs, tail, n) == RunSum(obs, 0, n)
                  && Sum(r.exp) + RunSum(exp, tail, n) == RunSum(exp, 0, n))
  {
    var n := Paired(obs, exp);
    var cuts := Boundaries(exp, n);
    var tail := cuts[|cuts| - 1];
    MergedTotals(obs, exp, n, cuts, MergeIntervals(obs, exp));
    RunSumSplit(obs, 0, tail, n);
    RunSumSplit(exp, 0, tail, n);
  }

  /** No merged bin at all exactly when the running expected sum from the
      first bin never reaches the threshold. */
  lemma MergeIntervalsEmpty(obs: seq<real>, exp: seq<real>)
    ensures var n := Paired(obs, exp);
            |MergeIntervals(obs, exp).exp| == 0 <==>
            forall m :: 0 < m <= n ==> RunSum(exp, 0, m) < MinExpected
  {
    var n := Paired(obs, exp);
    var cuts := Boundaries(exp, n);
    if |cuts| > 1 {
      assert ClosesAt(exp, cuts[0], cuts[1]);
      assert cuts[1] <= cuts[|cuts| - 1];
    }
  }

  /** Two boundary sequences that agree at a group start agree on where that group closes. */
  lemma NextAgrees(exp: seq<real>, n: nat, c1: seq<nat>, c2: seq<nat>, j: nat)
    requires ClosedGroups(exp, n, c1) && ClosedGroups(exp, n, c2)
    requires j < |c1| && j < |c2| && c1[j] == c2[j]
    ensures j + 1 < |c1| <==> j + 1 < |c2|
    ensures j + 1 < |c1| ==> c1[j + 1] == c2[j + 1]
  {
    var a := c1[j];
    if j + 1 < |c1| {
      assert ClosesAt(exp, a, c1[j + 1]);
      assert c1[j + 1] <= c1[|c1| - 1];
    }
    if j + 1 < |c2| {
      assert ClosesAt(exp, a, c2[j + 1]);
      assert c2[j + 1] <= c2[|c2| - 1];
    }
  }

  lemma {:induction false} AgreeUpTo(exp: seq<real>, n: nat, c1: seq<nat>, c2: seq<nat>, j: nat)
    requires ClosedGroups(exp, n, c1) && ClosedGroups(exp, n, c2)
    requires j < |c1| && j < |c2|
    ensures c1[..j + 1] == c2[..j + 1]
    decreases j
  {
    if j > 0 {
      AgreeUpTo(exp, n, c1, c2, j - 1);
      assert c1[j - 1] == c1[..j][j - 1] == c2[..j][j - 1] == c2[j - 1];
      NextAgrees(exp, n, c1, c2, j - 1);
      assert c1[..j + 1] == c1[..j] + [c1[j]];
      assert c2[..j + 1] == c2[..j] + [c2[j]];
    }
  }

  /** The declarative description determines the boundaries. */
  lemma ClosedGroupsUnique(exp: seq<real>, n: nat, c1: seq<nat>, c2: seq<nat>)
    requires ClosedGroups(exp, n, c1) && ClosedGroups(exp, n, c2)
    ensures c1 == c2
  {
    var j := if |c1| <= |c2| then |c1| - 1 else |c2| - 1;
    AgreeUpTo(exp, n, c1, c2, j);
    assert c1[j] == c1[..j + 1][j];
    NextAgrees(exp, n, c1, c2, j);
    assert c1 == c1[..j + 1] && c2 == c2[..j + 1];
  }

  /** Any result that merges contiguous runs closed at the first point their
      expected sum reaches the threshold, with the fold rule for the trailing
      run, is the one `MergeIntervals` returns. */
  lemma MergeIntervalsCharacterized(obs: seq<real>, exp: seq<real>, cuts: seq<nat>, r: Merged)
    requires ClosedGroups(exp, Paired(obs, exp), cuts)
    requires MergedBy(obs, exp, Paired(obs, exp), cuts, r)
    ensures r == MergeIntervals(obs, exp)
  {
    var n := Paired(obs, exp);
    ClosedGroupsUnique(exp, n, cuts, Boundaries(exp, n));
    MergedByUnique(obs, exp, n, cuts, r, MergeIntervals(obs, exp));
  }

  /** The groups determine the merged bins. */
  lemma MergedByUnique(obs: seq<real>, exp: seq<real>, n: nat, cuts: seq<nat>, r1: Merged, r2: Merged)
    requires n <= |obs| && ClosedGroups(exp, n, cuts)
    requires MergedBy(obs, exp, n, cuts, r1) && MergedBy(obs, exp, n, cuts, r2)
    ensures r1 == r2
  {
    assert r1.obs == r2.obs;
    assert r1.exp == r2.exp;
  }
}
