/** `LayersManager` (layers_manager.py): collapsing the four tissue layers of
    a parameter dictionary into one, two or three effective layers. Each
    effective layer averages the indices, absorption and scattering
    coefficients and anisotropies of a consecutive group of tissue layers
    and sums their thicknesses; the ambient indices and the grid are copied. */
module LayersManager {
  import opened RealSums
  import opened Outcomes
  import opened Params

  // ---------------------------------------------------------------------
  // The reference: aggregation by an arbitrary grouping

  /** Cut points splitting the four tissue layers into consecutive non-empty
      groups: group j holds layers `cuts[j] .. cuts[j + 1] - 1`. */
  ghost predicate IsGrouping(cuts: seq<nat>)
  {
    |cuts| >= 2 && cuts[0] == 0 && cuts[|cuts| - 1] == 4 && Increasing(cuts)
  }

  /** The mean of every group of `s`. */
  function GroupMeans(s: seq<real>, cuts: seq<nat>): (r: seq<real>)
    requires |cuts| >= 1 && Increasing(cuts) && cuts[|cuts| - 1] <= |s|
    ensures |r| == |cuts| - 1
    ensures forall j :: 0 <= j < |r| ==> r[j] == Mean(s[cuts[j]..cuts[j + 1]])
    decreases |cuts|
  {
    if |cuts| == 1 then []
    else
      var k := |cuts| - 1;
      IncreasingRun(cuts, k - 1);
      GroupMeans(s, cuts[..k]) + [Mean(s[cuts[k - 1]..cuts[k]])]
  }

  /** The sum of every group of `s`. */
  function GroupSums(s: seq<real>, cuts: seq<nat>): (r: seq<real>)
    requires |cuts| >= 1 && Increasing(cuts) && cuts[|cuts| - 1] <= |s|
    ensures |r| == |cuts| - 1
    ensures forall j :: 0 <= j < |r| ==> r[j] == RunSum(s, cuts[j], cuts[j + 1])
    decreases |cuts|
  {
    if |cuts| == 1 then []
    else
      var k := |cuts| - 1;
      IncreasingRun(cuts, k - 1);
      GroupSums(s, cuts[..k]) + [RunSum(s, cuts[k - 1], cuts[k])]
  }

  /** The refractive indices of the tissue layers sit one place to the
      right in `n`, after the ambient index above. */
  function Shift(cuts: seq<nat>): (r: seq<nat>)
    ensures |r| == |cuts|
    ensures forall j :: 0 <= j < |r| ==> r[j] == cuts[j] + 1
  {
    seq(|cuts|, j requires 0 <= j < |cuts| => cuts[j] + 1)
  }

  /** The cut points of the refractive indices of grouping `cuts`. */
  lemma ShiftIncreasing(cuts: seq<nat>)
    requires IsGrouping(cuts)
    ensures Increasing(Shift(cuts)) && Shift(cuts)[|cuts| - 1] == 5
  {
  }

  /** The parameter dictionary of the effective layers for `cuts`. */
  function Aggregate(data: InputData, cuts: seq<nat>): (r: InputData)
    requires FourLayers(data) && IsGrouping(cuts)
    ensures r.SameGrid(data)
    ensures r.nl == |cuts| - 1
    ensures |r.n| == r.nl + 2
    ensures |r.mua| == r.nl && |r.mus| == r.nl && |r.g| == r.nl && |r.d| == r.nl
    ensures r.n[0] == data.n[0] && r.n[r.nl + 1] == data.n[5]
  {
    ShiftIncreasing(cuts);
    InputData(data.photons, data.dz, data.dr, data.nz, data.nr, data.na, |cuts| - 1,
              [data.n[0]] + GroupMeans(data.n, Shift(cuts)) + [data.n[5]],
              GroupMeans(data.mua, cuts), GroupMeans(data.mus, cuts), GroupMeans(data.g, cuts),
              GroupSums(data.d, cuts))
  }

  /** Effective layer j averages the indices and coefficients of its group
      and is as thick as the group. */
  ghost predicate GroupAggregated(data: InputData, cuts: seq<nat>, r: InputData, j: nat)
    requires FourLayers(data) && IsGrouping(cuts) && j < |cuts| - 1
    requires |r.n| == |cuts| + 1 && |r.mua| == |r.mus| == |r.g| == |r.d| == |cuts| - 1
  {
    && r.n[j + 1] == Mean(data.n[cuts[j] + 1..cuts[j + 1] + 1])
    && r.mua[j] == Mean(data.mua[cuts[j]..cuts[j + 1]])
    && r.mus[j] == Mean(data.mus[cuts[j]..cuts[j + 1]])
    && r.g[j] == Mean(data.g[cuts[j]..cuts[j + 1]])
    && r.d[j] == RunSum(data.d, cuts[j], cuts[j + 1])
  }

  lemma AggregateGroups(data: InputData, cuts: seq<nat>)
    requires FourLayers(data) && IsGrouping(cuts)
    ensures forall j :: 0 <= j < |cuts| - 1 ==> GroupAggregated(data, cuts, Aggregate(data, cuts), j)
  {
    var r := Aggregate(data, cuts);
    ShiftIncreasing(cuts);
    var ms := GroupMeans(data.n, Shift(cuts));
    forall j | 0 <= j < |cuts| - 1
      ensures GroupAggregated(data, cuts, r, j)
    {
      assert r.n[j + 1] == ms[j];
    }
  }

  /** The effective layers are exactly as thick as the four tissue layers together. */
  lemma AggregateThickness(data: InputData, cuts: seq<nat>)
    requires FourLayers(data) && IsGrouping(cuts)
    ensures Sum(Aggregate(data, cuts).d) == Sum(data.d)
  {
    SumOfRuns(data.d, cuts, Aggregate(data, cuts).d);
    assert data.d[0..4] == data.d;
  }

  /** The shape, the copied grid, the ambient indices and the group facts
      determine the aggregated dictionary. */
  lemma AggregateCharacterized(data: InputData, cuts: seq<nat>, r: InputData)
    requires FourLayers(data) && IsGrouping(cuts)
    requires r.SameGrid(data) && r.nl == |cuts| - 1
    requires |r.n| == |cuts| + 1 && |r.mua| == |r.mus| == |r.g| == |r.d| == |cuts| - 1
    requires r.n[0] == data.n[0] && r.n[|cuts|] == data.n[5]
    requires forall j :: 0 <= j < |cuts| - 1 ==> GroupAggregated(data, cuts, r, j)
    ensures r == Aggregate(data, cuts)
  {
    var a := Aggregate(data, cuts);
    AggregateGroups(data, cuts);
    forall k | 0 <= k < |r.n|
      ensures r.n[k] == a.n[k]
    {
      if 0 < k < |cuts| {
        assert GroupAggregated(data, cuts, r, k - 1) && GroupAggregated(data, cuts, a, k - 1);
      }
    }
    forall j | 0 <= j < |cuts| - 1
      ensures r.mua[j] == a.mua[j] && r.mus[j] == a.mus[j] && r.g[j] == a.g[j] && r.d[j] == a.d[j]
    {
      assert GroupAggregated(data, cuts, r, j) && GroupAggregated(data, cuts, a, j);
    }
  }

  /** Grouping every layer on its own gives the original four-layer dictionary back. */
  lemma AggregateIdentity(data: InputData)
    requires FourLayers(data) && data.nl == 4
    ensures Aggregate(data, [0, 1, 2, 3, 4]) == data
  {
    SingletonGroup(data, 0);
    SingletonGroup(data, 1);
    SingletonGroup(data, 2);
    SingletonGroup(data, 3);
    AggregateCharacterized(data, [0, 1, 2, 3, 4], data);
  }

  /** The record the schemes return: the grid is copied, the ambient
      indices frame the effective layers' indices. */
  function Assemble(data: InputData, nl: nat, ns: seq<real>, mua: seq<real>, mus: seq<real>, g: seq<real>, d: seq<real>): (r: InputData)
    requires |data.n| == 6
    ensures r.SameGrid(data) && r.nl == nl
    ensures r.n == [data.n[0]] + ns + [data.n[5]]
    ensures r.mua == mua && r.mus == mus && r.g == g && r.d == d
  {
    InputData(data.photons, data.dz, data.dr, data.nz, data.nr, data.na, nl,
              [data.n[0]] + ns + [data.n[5]], mua, mus, g, d)
  }

  // ---------------------------------------------------------------------
  // One layer

  /** `make_one_layer` as written: the refractive index averages `n[1:4]`,
      the first three tissue layers only, while the coefficients average all
      four layers. */
  function MakeOneLayer(data: InputData): (r: InputData)
    requires FourLayers(data)
    ensures r.SameGrid(data) && r.nl == 1
    ensures |r.n| == 3 && r.n[0] == data.n[0] && r.n[2] == data.n[5]
    ensures r.n[1] == Mean(data.n[1..4])
    ensures var c := MakeOneLayerCorrected(data);
            r.mua == c.mua && r.mus == c.mus && r.g == c.g && r.d == c.d
    ensures Sum(r.d) == Sum(data.d)
  {
    SumSingleton(Sum(data.d));
    Assemble(data, 1, [Mean(data.n[1..4])], [Mean(data.mua)], [Mean(data.mus)], [Mean(data.g)], [Sum(data.d)])
  }

  /** The one-layer scheme as the other schemes are written: the single
      group of all four tissue layers, so the index too averages all four. */
  function MakeOneLayerCorrected(data: InputData): (r: InputData)
    requires FourLayers(data)
    ensures r.SameGrid(data) && r.nl == 1
    ensures r.n == [data.n[0], Mean(data.n[1..5]), data.n[5]]
    ensures r.mua == [Mean(data.mua)] && r.mus == [Mean(data.mus)] && r.g == [Mean(data.g)]
    ensures r.d == [Sum(data.d)]
  {
    AggregateGroups(data, [0, 4]);
    AggregateThickness(data, [0, 4]);
    assert data.mua[0..4] == data.mua && data.mus[0..4] == data.mus && data.g[0..4] == data.g;
    Aggregate(data, [0, 4])
  }

  /** The two one-layer records differ exactly when the fourth tissue's
      index differs from the mean of the other three. */
  lemma {:induction false} OneLayerDiscrepancy(data: InputData)
    requires FourLayers(data)
    ensures MakeOneLayer(data) == MakeOneLayerCorrected(data) <==> data.n[4] == Mean(data.n[1..4])
  {
    var a, c := MakeOneLayer(data), MakeOneLayerCorrected(data);
    assert data.n[1..5] == data.n[1..4] + [data.n[4]];
    MeanAppend(data.n[1..4], data.n[4]);
    if a == c {
      assert a.n[1] == c.n[1];
    }
    if data.n[4] == Mean(data.n[1..4]) {
      assert a.n == c.n;
    }
  }

  /** Appending an element to three values leaves their mean unchanged
      exactly when the element equals that mean. */
  lemma MeanAppend(s: seq<real>, x: real)
    requires |s| == 3
    ensures Mean(s + [x]) == Mean(s) <==> x == Mean(s)
  {
    SumThree(s);
    SumFour(s + [x]);
    MeanOfFourFromThree(s[0] + s[1] + s[2], x);
  }

  /** `(t + x)/4 == t/3` holds exactly when `x == t/3`. */
  lemma MeanOfFourFromThree(t: real, x: real)
    ensures (t + x) / 4.0 == t / 3.0 <==> x == t / 3.0
  {
    if x == t / 3.0 {
      assert t + x == 4.0 * (t / 3.0);
    }
  }

  /** With the default stack the as-written index is 4.13/3 instead of 5.5/4. */
  lemma OneLayerDefaultIndex()
    ensures MakeOneLayer(DefaultInput).n[1] == 4.13 / 3.0
    ensures MakeOneLayerCorrected(DefaultInput).n[1] == 1.375
    ensures MakeOneLayer(DefaultInput) != MakeOneLayerCorrected(DefaultInput)
  {
    var n := DefaultInput.n;
    SumThree(n[1..4]);
    SumFour(n[1..5]);
    assert MakeOneLayer(DefaultInput).n[1] != MakeOneLayerCorrected(DefaultInput).n[1];
  }

  // ---------------------------------------------------------------------
  // Two and three layers

  /** The groupings behind the two-layer scheme codes. */
  function TwoLayerCuts(scheme: string): Option<seq<nat>>
  {
    if scheme == "2-2" then Some([0, 2, 4])
    else if scheme == "1-3" then Some([0, 1, 4])
    else if scheme == "3-1" then Some([0, 3, 4])
    else None
  }

  /** The groupings behind the three-layer scheme codes. */
  function ThreeLayerCuts(scheme: string): Option<seq<nat>>
  {
    if scheme == "1-1-2" then Some([0, 1, 2, 4])
    else if scheme == "1-2-1" then Some([0, 1, 3, 4])
    else if scheme == "2-1-1" then Some([0, 2, 3, 4])
    else None
  }

  /** `make_two_layers`: the per-scheme formulas, and `ValueError` for any
      other code. */
  function MakeTwoLayers(data: InputData, scheme: string): (r: Result<InputData>)
    requires FourLayers(data)
    ensures r.Failure? <==> scheme != "2-2" && scheme != "1-3" && scheme != "3-1"
    ensures r.Failure? ==> r.error == InvalidScheme
    ensures r.Success? ==> r.value.SameGrid(data) && r.value.nl == 2
    ensures r.Success? ==> |r.value.n| == 4 && |r.value.mua| == |r.value.mus| == |r.value.g| == |r.value.d| == 2
    ensures r.Success? ==> r.value.n[0] == data.n[0] && r.value.n[3] == data.n[5]
  {
    var n, mua, mus, g, d := data.n, data.mua, data.mus, data.g, data.d;
    if scheme == "2-2" then
      Success(Assemble(data, 2, [Mean(n[1..3]), Mean(n[3..5])], [Mean(mua[0..2]), Mean(mua[2..4])],
                       [Mean(mus[0..2]), Mean(mus[2..4])], [Mean(g[0..2]), Mean(g[2..4])],
                       [Sum(d[0..2]), Sum(d[2..4])]))
    else if scheme == "1-3" then
      Success(Assemble(data, 2, [n[1], Mean(n[2..5])], [mua[0], Mean(mua[1..4])],
                       [mus[0], Mean(mus[1..4])], [g[0], Mean(g[1..4])],
                       [d[0], Sum(d[1..4])]))
    else if scheme == "3-1" then
      Success(Assemble(data, 2, [Mean(n[1..4]), n[4]], [Mean(mua[0..3]), mua[3]],
                       [Mean(mus[0..3]), mus[3]], [Mean(g[0..3]), g[3]],
                       [Sum(d[0..3]), d[3]]))
    else Failure(InvalidScheme)
  }

  /** `make_three_layers`: the per-scheme formulas, and `ValueError` for any
      other code. */
  function MakeThreeLayers(data: InputData, scheme: string): (r: Result<InputData>)
    requires FourLayers(data)
    ensures r.Failure? <==> scheme != "1-1-2" && scheme != "1-2-1" && scheme != "2-1-1"
    ensures r.Failure? ==> r.error == InvalidScheme
    ensures r.Success? ==> r.value.SameGrid(data) && r.value.nl == 3
    ensures r.Success? ==> |r.value.n| == 5 && |r.value.mua| == |r.value.mus| == |r.value.g| == |r.value.d| == 3
    ensures r.Success? ==> r.value.n[0] == data.n[0] && r.value.n[4] == data.n[5]
  {
    if scheme == "1-1-2" then Success(OneOneTwo(data))
    else if scheme == "1-2-1" then Success(OneTwoOne(data))
    else if scheme == "2-1-1" then Success(TwoOneOne(data))
    else Failure(InvalidScheme)
  }

  /** Scheme '1-1-2' (layers_manager.py:83-89): three effective layers
      between the ambient media, the first two tissues passed through. */
  function OneOneTwo(data: InputData): (r: InputData)
    requires FourLayers(data)
    ensures r.SameGrid(data) && r.nl == 3
    ensures |r.n| == 5 && |r.mua| == |r.mus| == |r.g| == |r.d| == 3
    ensures r.n[0] == data.n[0] && r.n[4] == data.n[5]
    ensures forall j :: 0 <= j < 2 ==>
              && r.n[j + 1] == data.n[j + 1] && r.mua[j] == data.mua[j] && r.mus[j] == data.mus[j]
              && r.g[j] == data.g[j] && r.d[j] == data.d[j]
  {
    var n, mua, mus, g, d := data.n, data.mua, data.mus, data.g, data.d;
    Assemble(data, 3, [n[1], n[2], Mean(n[3..5])], [mua[0], mua[1], Mean(mua[2..4])],
             [mus[0], mus[1], Mean(mus[2..4])], [g[0], g[1], Mean(g[2..4])],
             [d[0], d[1], Sum(d[2..4])])
  }

  /** Scheme '1-2-1' (layers_manager.py:91-97): three effective layers
      between the ambient media, the outer two tissues passed through. */
  function OneTwoOne(data: InputData): (r: InputData)
    requires FourLayers(data)
    ensures r.SameGrid(data) && r.nl == 3
    ensures |r.n| == 5 && |r.mua| == |r.mus| == |r.g| == |r.d| == 3
    ensures r.n[0] == data.n[0] && r.n[4] == data.n[5]
    ensures r.mua[0] == data.mua[0] && r.mua[2] == data.mua[3] && r.d[0] == data.d[0] && r.d[2] == data.d[3]
  {
    var n, mua, mus, g, d := data.n, data.mua, data.mus, data.g, data.d;
    Assemble(data, 3, [Mean([n[1]]), Mean(n[2..4]), Mean([n[4]])], [mua[0], Mean(mua[1..3]), mua[3]],
             [mus[0], Mean(mus[1..3]), mus[3]], [g[0], Mean(g[1..3]), g[3]],
             [d[0], Sum(d[1..3]), d[3]])
  }

  /** Scheme '2-1-1' (layers_manager.py:99-105): three effective layers
      between the ambient media, the last two tissues passed through. */
  function TwoOneOne(data: InputData): (r: InputData)
    requires FourLayers(data)
    ensures r.SameGrid(data) && r.nl == 3
    ensures |r.n| == 5 && |r.mua| == |r.mus| == |r.g| == |r.d| == 3
    ensures r.n[0] == data.n[0] && r.n[4] == data.n[5]
    ensures forall j :: 1 <= j < 3 ==>
              && r.n[j + 1] == data.n[j + 2] && r.mua[j] == data.mua[j + 1] && r.mus[j] == data.mus[j + 1]
              && r.g[j] == data.g[j + 1] && r.d[j] == data.d[j + 1]
  {
    var n, mua, mus, g, d := data.n, data.mua, data.mus, data.g, data.d;
    Assemble(data, 3, [Mean(n[1..3]), n[3], n[4]], [Mean(mua[0..2]), mua[2], mua[3]],
             [Mean(mus[0..2]), mus[2], mus[3]], [Mean(g[0..2]), g[2], g[3]],
             [Sum(d[0..2]), d[2], d[3]])
  }

  /** Tissue layer j on its own is an effective layer with its own values. */
  lemma SingletonGroup(data: InputData, j: nat)
    requires FourLayers(data) && j < 4
    ensures && Mean(data.n[j + 1..j + 2]) == data.n[j + 1]
            && Mean(data.mua[j..j + 1]) == data.mua[j]
            && Mean(data.mus[j..j + 1]) == data.mus[j]
            && Mean(data.g[j..j + 1]) == data.g[j]
            && RunSum(data.d, j, j + 1) == data.d[j]
  {
    SingletonRun(data.n, j + 1);
    SingletonRun(data.mua, j);
    SingletonRun(data.mus, j);
    SingletonRun(data.g, j);
    SingletonRun(data.d, j);
  }

  /** Every two-layer scheme is the aggregation by its grouping, so it keeps
      the total thickness and averages each group. */
  lemma MakeTwoLayersAggregates(data: InputData, scheme: string, cuts: seq<nat>)
    requires FourLayers(data) && TwoLayerCuts(scheme) == Some(cuts)
    ensures IsGrouping(cuts)
    ensures MakeTwoLayers(data, scheme) == Success(Aggregate(data, cuts))
    ensures Sum(MakeTwoLayers(data, scheme).value.d) == Sum(data.d)
  {
    if scheme == "2-2" {
      SchemeTwoTwo(data, scheme, cuts);
    } else if scheme == "1-3" {
      SchemeOneThree(data, scheme, cuts);
    } else {
      SchemeThreeOne(data, scheme, cuts);
    }
  }

  /** The formulas of scheme '2-2' are the aggregation by its grouping. */
  lemma SchemeTwoTwo(data: InputData, scheme: string, cuts: seq<nat>)
    requires FourLayers(data) && scheme == "2-2" && cuts == [0, 2, 4]
    ensures IsGrouping(cuts)
    ensures MakeTwoLayers(data, scheme) == Success(Aggregate(data, cuts))
    ensures Sum(MakeTwoLayers(data, scheme).value.d) == Sum(data.d)
  {
    var r := MakeTwoLayers(data, scheme).value;
    assert GroupAggregated(data, cuts, r, 0);
    assert GroupAggregated(data, cuts, r, 1);
    AggregateCharacterized(data, cuts, r);
    AggregateThickness(data, cuts);
  }

  /** The formulas of scheme '1-3' are the aggregation by its grouping. */
  lemma SchemeOneThree(data: InputData, scheme: string, cuts: seq<nat>)
    requires FourLayers(data) && scheme == "1-3" && cuts == [0, 1, 4]
    ensures IsGrouping(cuts)
    ensures MakeTwoLayers(data, scheme) == Success(Aggregate(data, cuts))
    ensures Sum(MakeTwoLayers(data, scheme).value.d) == Sum(data.d)
  {
    var r := MakeTwoLayers(data, scheme).value;
    SingletonGroup(data, 0);
    assert GroupAggregated(data, cuts, r, 0);
    assert GroupAggregated(data, cuts, r, 1);
    AggregateCharacterized(data, cuts, r);
    AggregateThickness(data, cuts);
  }

  /** The formulas of scheme '3-1' are the aggregation by its grouping. */
  lemma SchemeThreeOne(data: InputData, scheme: string, cuts: seq<nat>)
    requires FourLayers(data) && scheme == "3-1" && cuts == [0, 3, 4]
    ensures IsGrouping(cuts)
    ensures MakeTwoLayers(data, scheme) == Success(Aggregate(data, cuts))
    ensures Sum(MakeTwoLayers(data, scheme).value.d) == Sum(data.d)
  {
    var r := MakeTwoLayers(data, scheme).value;
    SingletonGroup(data, 3);
    assert GroupAggregated(data, cuts, r, 0);
    assert GroupAggregated(data, cuts, r, 1);
    AggregateCharacterized(data, cuts, r);
    AggregateThickness(data, cuts);
  }

  /** The formulas of scheme '1-1-2' are the aggregation by its grouping. */
  lemma SchemeOneOneTwo(data: InputData, scheme: string, cuts: seq<nat>)
    requires FourLayers(data) && scheme == "1-1-2" && cuts == [0, 1, 2, 4]
    ensures IsGrouping(cuts)
    ensures MakeThreeLayers(data, scheme) == Success(Aggregate(data, cuts))
    ensures Sum(MakeThreeLayers(data, scheme).value.d) == Sum(data.d)
  {
    var r := MakeThreeLayers(data, scheme).value;
    SingletonGroup(data, 0);
    SingletonGroup(data, 1);
    assert GroupAggregated(data, cuts, r, 0);
    assert GroupAggregated(data, cuts, r, 1);
    assert GroupAggregated(data, cuts, r, 2);
    AggregateCharacterized(data, cuts, r);
    AggregateThickness(data, cuts);
  }

  /** The formulas of scheme '1-2-1' are the aggregation by its grouping. */
  lemma SchemeOneTwoOne(data: InputData, scheme: string, cuts: seq<nat>)
    requires FourLayers(data) && scheme == "1-2-1" && cuts == [0, 1, 3, 4]
    ensures IsGrouping(cuts)
    ensures MakeThreeLayers(data, scheme) == Success(Aggregate(data, cuts))
    ensures Sum(MakeThreeLayers(data, scheme).value.d) == Sum(data.d)
  {
    var r := MakeThreeLayers(data, scheme).value;
    SingletonGroup(data, 0);
    SingletonGroup(data, 3);
    MeanSingleton([data.n[1]]);
    MeanSingleton([data.n[4]]);
    assert GroupAggregated(data, cuts, r, 0);
    assert GroupAggregated(data, cuts, r, 1);
    assert GroupAggregated(data, cuts, r, 2);
    AggregateCharacterized(data, cuts, r);
    AggregateThickness(data, cuts);
  }

  /** The formulas of scheme '2-1-1' are the aggregation by its grouping. */
  lemma SchemeTwoOneOne(data: InputData, scheme: string, cuts: seq<nat>)
    requires FourLayers(data) && scheme == "2-1-1" && cuts == [0, 2, 3, 4]
    ensures IsGrouping(cuts)
    ensures MakeThreeLayers(data, scheme) == Success(Aggregate(data, cuts))
    ensures Sum(MakeThreeLayers(data, scheme).value.d) == Sum(data.d)
  {
    var r := MakeThreeLayers(data, scheme).value;
    SingletonGroup(data, 2);
    SingletonGroup(data, 3);
    assert GroupAggregated(data, cuts, r, 0);
    assert GroupAggregated(data, cuts, r, 1);
    assert GroupAggregated(data, cuts, r, 2);
    AggregateCharacterized(data, cuts, r);
    AggregateThickness(data, cuts);
  }

  /** Every three-layer scheme is the aggregation by its grouping, so it
      keeps the total thickness and averages each group. */
  lemma MakeThreeLayersAggregates(data: InputData, scheme: string, cuts: seq<nat>)
    requires FourLayers(data) && ThreeLayerCuts(scheme) == Some(cuts)
    ensures IsGrouping(cuts)
    ensures MakeThreeLayers(data, scheme) == Success(Aggregate(data, cuts))
    ensures Sum(MakeThreeLayers(data, scheme).value.d) == Sum(data.d)
  {
    if scheme == "1-1-2" {
      SchemeOneOneTwo(data, scheme, cuts);
    } else if scheme == "1-2-1" {
      SchemeOneTwoOne(data, scheme, cuts);
    } else {
      SchemeTwoOneOne(data, scheme, cuts);
    }
  }
}
