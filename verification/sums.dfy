/** Sums and means of real sequences: a left-to-right sum, as Python's `sum`
    accumulates; numpy's summation order gives the same real value. With the
    lemmas the rest of the model uses. */
module RealSums {

  function Sum(s: seq<real>): real
  {
    if |s| == 0 then 0.0 else Sum(s[..|s| - 1]) + s[|s| - 1]
  }

  /** Sum of the half-open run s[a..b]. */
  function RunSum(s: seq<real>, a: nat, b: nat): real
    requires a <= b <= |s|
  {
    Sum(s[a..b])
  }

  /** numpy's `np.mean` of a non-empty array. */
  function Mean(s: seq<real>): real
    requires |s| > 0
  {
    Sum(s) / (|s| as real)
  }

  /** Strictly increasing index sequence (group boundaries). */
  ghost predicate Increasing(cuts: seq<nat>)
  {
    forall j, k :: 0 <= j < k < |cuts| ==> cuts[j] < cuts[k]
  }

  /** The run between consecutive cut points lies within the last cut. */
  lemma IncreasingRun(cuts: seq<nat>, j: nat)
    requires Increasing(cuts) && j + 1 < |cuts|
    ensures cuts[j] < cuts[j + 1] <= cuts[|cuts| - 1]
  {
    assert j + 1 == |cuts| - 1 || cuts[j + 1] < cuts[|cuts| - 1];
  }

  lemma {:induction false} SumAppend(a: seq<real>, b: seq<real>)
    ensures Sum(a + b) == Sum(a) + Sum(b)
    decreases |b|
  {
    if |b| == 0 {
      assert a + b == a;
    } else {
      var b' := b[..|b| - 1];
      assert (a + b)[..|a + b| - 1] == a + b';
      SumAppend(a, b');
    }
  }

  lemma SumSingleton(x: real)
    ensures Sum([x]) == x
  {
    assert [x][..0] == [];
  }

  lemma MeanSingleton(s: seq<real>)
    requires |s| == 1
    ensures Mean(s) == s[0]
  {
    assert s[..0] == [];
    assert Sum(s) == s[0];
  }

  /** A one-element run sums and averages to its element. */
  lemma SingletonRun(s: seq<real>, i: nat)
    requires i < |s|
    ensures RunSum(s, i, i + 1) == s[i] && Mean(s[i..i + 1]) == s[i]
  {
    assert s[i..i + 1] == [s[i]];
    SumSingleton(s[i]);
  }

  lemma SumThree(s: seq<real>)
    requires |s| == 3
    ensures Sum(s) == s[0] + s[1] + s[2]
  {
    assert s[..2][..1] == [s[0]];
    SumSingleton(s[0]);
  }

  lemma SumFour(s: seq<real>)
    requires |s| == 4
    ensures Sum(s) == s[0] + s[1] + s[2] + s[3]
  {
    SumThree(s[..3]);
  }

  /** Appending an element adds it to the sum. */
  lemma SumSnoc(s: seq<real>, x: real)
    ensures Sum(s + [x]) == Sum(s) + x
  {
    assert (s + [x])[..|s|] == s;
  }

  /** Raising the last element raises the sum by as much. */
  lemma SumBumpLast(s: seq<real>, c: real)
    requires |s| > 0
    ensures var k := |s| - 1;
            Sum(s[k := s[k] + c]) == Sum(s) + c
  {
    var k := |s| - 1;
    assert s[k := s[k] + c][..k] == s[..k];
  }

  /** Extending a run by one element adds that element. */
  lemma RunSumSnoc(s: seq<real>, a: nat, b: nat)
    requires a <= b < |s|
    ensures RunSum(s, a, b + 1) == RunSum(s, a, b) + s[b]
  {
    assert s[a..b + 1][..b - a] == s[a..b];
  }

  /** Adjacent runs add up to the run that covers both. */
  lemma RunSumSplit(s: seq<real>, a: nat, b: nat, c: nat)
    requires a <= b <= c <= |s|
    ensures RunSum(s, a, c) == RunSum(s, a, b) + RunSum(s, b, c)
  {
    assert s[a..c] == s[a..b] + s[b..c];
    SumAppend(s[a..b], s[b..c]);
  }

  /** Telescoping: values that are the sums of consecutive runs add up to the
      run from the first boundary to the last. */
  lemma {:induction false} SumOfRuns(s: seq<real>, cuts: seq<nat>, vals: seq<real>)
    requires |cuts| == |vals| + 1
    requires Increasing(cuts) && cuts[|cuts| - 1] <= |s|
    requires forall j :: 0 <= j < |vals| ==> vals[j] == RunSum(s, cuts[j], cuts[j + 1])
    ensures Sum(vals) == RunSum(s, cuts[0], cuts[|vals|])
    decreases |vals|
  {
    var k := |vals|;
    if k > 0 {
      SumOfRuns(s, cuts[..k], vals[..k - 1]);
      assert vals[..k - 1] + [vals[k - 1]] == vals;
      RunSumSplit(s, cuts[0], cuts[k - 1], cuts[k]);
    }
  }

  /** Pointwise sum of two sequences sums to the sum of their sums. */
  lemma {:induction false} SumPointwiseAdd(a: seq<real>, b: seq<real>, c: seq<real>)
    requires |a| == |b| == |c|
    requires forall i :: 0 <= i < |c| ==> c[i] == a[i] + b[i]
    ensures Sum(c) == Sum(a) + Sum(b)
    decreases |c|
  {
    if |c| > 0 {
      var k := |c| - 1;
      SumPointwiseAdd(a[..k], b[..k], c[..k]);
    }
  }

  /** Dividing every element by the same non-zero value divides the sum. */
  lemma {:induction false} SumPointwiseDivide(a: seq<real>, b: seq<real>, c: real)
    requires c != 0.0
    requires |a| == |b|
    requires forall i :: 0 <= i < |b| ==> b[i] == a[i] / c
    ensures Sum(b) == Sum(a) / c
    decreases |b|
  {
    if |b| > 0 {
      var k := |b| - 1;
      SumPointwiseDivide(a[..k], b[..k], c);
      assert Sum(b) == Sum(a[..k]) / c + a[k] / c;
    }
  }

  lemma {:induction false} SumZeros(s: seq<real>)
    requires forall i :: 0 <= i < |s| ==> s[i] == 0.0
    ensures Sum(s) == 0.0
    decreases |s|
  {
    if |s| > 0 {
      SumZeros(s[..|s| - 1]);
    }
  }

  lemma {:induction false} SumNonNegative(s: seq<real>)
    requires forall i :: 0 <= i < |s| ==> s[i] >= 0.0
    ensures Sum(s) >= 0.0
    decreases |s|
  {
    if |s| > 0 {
      SumNonNegative(s[..|s| - 1]);
    }
  }
}
