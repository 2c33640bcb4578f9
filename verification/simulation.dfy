/** `SimulationMonteCarlo` (monte_carlo_simulation.py): the layer records
    `initialize_input` builds, the photon-count normalisation and the axis
    reductions at the start of `process_output`, and the radial bin centres
    of `get_analysis_data`. The square root and pi are inputs. */
module Simulation {
  import opened RealSums
  import opened Outcomes
  import opened Params
  import opened Grids
  import Statistic

  // ---------------------------------------------------------------------
  // Layer records

  /** One tissue layer: its indices and coefficients, its depth bounds and
      the critical cosine at its upper interface. */
  datatype Layer = Layer(n: real, mua: real, mus: real, g: real, z0: real, z1: real, cosCrit0: real)

  /** The structured input `initialize_input` returns; `da` is the angular bin width. */
  datatype SimInput = SimInput(
    photons: int, dz: real, dr: real, da: real, nz: nat, nr: nat, na: nat, nl: nat,
    nAbove: real, nBelow: real, layers: seq<Layer>)

  /** `sqrt(1 - n0**2 / n1**2) if n1 > n0 else 0.0`: zero unless the layer is
      optically denser than the medium above; a zero index below a negative
      one divides by zero. */
  function CriticalCosine(above: real, here: real, sqrt: real -> real): (r: Result<real>)
    ensures here <= above ==> r == Success(0.0)
    ensures r.Failure? <==> above < here == 0.0
    ensures r.Failure? ==> r.error == ZeroDivision
  {
    if here > above then
      if here == 0.0 then Failure(ZeroDivision)
      else Success(sqrt(1.0 - (above * above) / (here * here)))
    else Success(0.0)
  }

  /** Below a strictly denser layer with a positive index above, and with a
      `sqrt` that is a non-negative square root, the critical cosine is
      strictly between 0 and 1 and satisfies `cos^2 + (n0/n1)^2 == 1`:
      it is the cosine of the angle whose sine is `n0/n1`. */
  lemma CriticalCosineRange(above: real, here: real, sqrt: real -> real)
    requires forall x :: x >= 0.0 ==> sqrt(x) >= 0.0 && sqrt(x) * sqrt(x) == x
    requires 0.0 < above < here
    ensures var r := CriticalCosine(above, here, sqrt);
            && r.Success? && 0.0 < r.value < 1.0
            && r.value * r.value + (above / here) * (above / here) == 1.0
  {
    var q := above / here;
    QuotientBelowOne(above, here);
    assert (above * above) / (here * here) == q * q;
    assert 0.0 < q * q < 1.0;
    var x := 1.0 - q * q;
    var c := sqrt(x);
    assert c >= 0.0 && c * c == x;
    if c >= 1.0 {
      assert c * c >= 1.0;
    }
  }

  /** A positive value below a larger one gives a quotient strictly between 0 and 1. */
  lemma QuotientBelowOne(a: real, b: real)
    requires 0.0 < a < b
    ensures 0.0 < a / b < 1.0
    ensures 0.0 < (a / b) * (a / b) < 1.0
  {
    var q := a / b;
    assert q * b == a;
    assert (1.0 - q) * b == b - a;
    Statistic.SameSign(q, b);
    Statistic.SameSign(1.0 - q, b);
    Statistic.SameSign(1.0 - q, q);
    assert q * q == q - (1.0 - q) * q;
  }

  /** The conditions under which record `i` can be built. */
  ghost predicate LayerDefined(data: InputData, i: nat)
  {
    && i < |data.d| && i + 1 < |data.n|
    && !(data.n[i] < data.n[i + 1] == 0.0)
    && i < |data.mua| && i < |data.mus| && i < |data.g|
  }

  /** One iteration of the loop in `initialize_input`, failing where Python
      would raise: `d[i]`, then `n[i]` and `n[i + 1]`, then the critical
      cosine, then `mua[i]`, `mus[i]` and `g[i]`. */
  function LayerAt(data: InputData, i: nat, sqrt: real -> real): (r: Result<Layer>)
    ensures r.Success? <==> LayerDefined(data, i)
    ensures r.Failure? ==> (r.error == ZeroDivision <==> i < |data.d| && i + 1 < |data.n| && data.n[i] < data.n[i + 1] == 0.0)
    ensures r.Failure? ==> r.error in {IndexError, ZeroDivision}
    ensures r.Success? ==>
              && r.value.n == data.n[i + 1]
              && r.value.mua == data.mua[i] && r.value.mus == data.mus[i] && r.value.g == data.g[i]
              && r.value.z1 == Sum(data.d[..i + 1])
              && r.value.z0 == Sum(data.d[..i])
              && r.value.z1 - r.value.z0 == data.d[i]
              && (data.n[i + 1] <= data.n[i] ==> r.value.cosCrit0 == 0.0)
    ensures r.Success? ==> CriticalCosine(data.n[i], data.n[i + 1], sqrt) == Success(r.value.cosCrit0)
  {
    if i >= |data.d| || i + 1 >= |data.n| then Failure(IndexError)
    else
      var z1 := Sum(data.d[..i + 1]);
      var z0 := z1 - data.d[i];
      assert data.d[..i + 1][..i] == data.d[..i];
      match CriticalCosine(data.n[i], data.n[i + 1], sqrt)
      case Failure(e) => Failure(e)
      case Success(c) =>
        if i >= |data.mua| || i >= |data.mus| || i >= |data.g| then Failure(IndexError)
        else Success(Layer(data.n[i + 1], data.mua[i], data.mus[i], data.g[i], z0, z1, c))
  }

  /** The loop over the first `k` layers; the first failing record's error
      is the one raised. */
  function BuildLayers(data: InputData, k: nat, sqrt: real -> real): (r: Result<seq<Layer>>)
    ensures r.Success? <==> forall i :: 0 <= i < k ==> LayerDefined(data, i)
    ensures r.Success? ==> |r.value| == k
    ensures r.Success? ==> forall i :: 0 <= i < k ==> LayerAt(data, i, sqrt) == Success(r.value[i])
    ensures r.Failure? ==> exists i :: 0 <= i < k && LayerAt(data, i, sqrt) == Failure(r.error)
                                   && forall j :: 0 <= j < i ==> LayerDefined(data, j)
  {
    if k == 0 then Success([])
    else
      match BuildLayers(data, k - 1, sqrt)
      case Failure(e) => Failure(e)
      case Success(ls) =>
        match LayerAt(data, k - 1, sqrt)
        case Failure(e) => Failure(e)
        case Success(l) => Success(ls + [l])
  }

  /** What `initialize_input` needs to succeed: every record can be built,
      the angular grid is not empty and there is an ambient index. */
  ghost predicate StackDefined(data: InputData)
  {
    && (forall i :: 0 <= i < data.nl ==> LayerDefined(data, i))
    && data.na > 0
    && |data.n| > 0
  }

  /** `initialize_input`: the records for layers `0 .. nl - 1`, then
      `da = 0.5 * pi / na` and the two ambient indices, in that order. */
  function InitializeInput(data: InputData, pi: real, sqrt: real -> real): (r: Result<SimInput>)
    ensures r.Success? <==> StackDefined(data)
    ensures r.Failure? && (forall i :: 0 <= i < data.nl ==> LayerDefined(data, i)) ==>
              r.error == (if data.na == 0 then ZeroDivision else IndexError)
    ensures r.Success? ==>
              && r.value.photons == data.photons && r.value.dz == data.dz && r.value.dr == data.dr
              && r.value.nz == data.nz && r.value.nr == data.nr && r.value.na == data.na
              && r.value.nl == data.nl
              && r.value.nAbove == data.n[0] && r.value.nBelow == data.n[|data.n| - 1]
              && |r.value.layers| == data.nl
              && forall i :: 0 <= i < data.nl ==> LayerAt(data, i, sqrt) == Success(r.value.layers[i])
  {
    match BuildLayers(data, data.nl, sqrt)
    case Failure(e) => Failure(e)
    case Success(ls) =>
      if data.na == 0 then Failure(ZeroDivision)
      else if |data.n| == 0 then Failure(IndexError)
      else
        Success(SimInput(data.photons, data.dz, data.dr, 0.5 * pi / (data.na as real),
                         data.nz, data.nr, data.na, data.nl,
                         data.n[0], data.n[|data.n| - 1], ls))
  }

  /** Layers stacked without gaps from depth 0, each as thick as its entry of `d`. */
  ghost predicate Contiguous(layers: seq<Layer>, d: seq<real>)
  {
    && |layers| <= |d|
    && (|layers| > 0 ==> layers[0].z0 == 0.0)
    && (forall i :: 0 <= i < |layers| ==> layers[i].z1 - layers[i].z0 == d[i])
    && (forall i :: 0 <= i < |layers| - 1 ==> layers[i].z1 == layers[i + 1].z0)
  }

  /** The records `initialize_input` builds are contiguous, ordered by depth
      when the thicknesses are positive, and reach the summed thickness. */
  lemma InitializeInputStack(data: InputData, pi: real, sqrt: real -> real)
    requires InitializeInput(data, pi, sqrt).Success?
    ensures var ls := InitializeInput(data, pi, sqrt).value.layers;
            && Contiguous(ls, data.d)
            && (|ls| > 0 ==> ls[|ls| - 1].z1 == Sum(data.d[..|ls|]))
            && ((forall i :: 0 <= i < |data.d| ==> data.d[i] > 0.0) ==>
                  forall i :: 0 <= i < |ls| ==> ls[i].z0 < ls[i].z1)
  {
    var ls := InitializeInput(data, pi, sqrt).value.layers;
    if |ls| > 0 {
      LayerBounds(data, 0, sqrt, ls[0]);
      assert data.d[..0] == [];
      LayerBounds(data, |ls| - 1, sqrt, ls[|ls| - 1]);
    }
    forall i | 0 <= i < |ls| - 1
      ensures ls[i].z1 == ls[i + 1].z0
    {
      LayerBounds(data, i, sqrt, ls[i]);
      LayerBounds(data, i + 1, sqrt, ls[i + 1]);
    }
    forall i | 0 <= i < |ls|
      ensures ls[i].z1 - ls[i].z0 == data.d[i]
    {
      LayerBounds(data, i, sqrt, ls[i]);
    }
  }

  /** The depth bounds of a record that was built. */
  lemma LayerBounds(data: InputData, i: nat, sqrt: real -> real, l: Layer)
    requires LayerAt(data, i, sqrt) == Success(l)
    ensures i < |data.d| && l.z1 == Sum(data.d[..i + 1]) && l.z0 == Sum(data.d[..i]) && l.z1 - l.z0 == data.d[i]
  {
  }

  // ---------------------------------------------------------------------
  // Output normalisation and reduction

  /** The raw per-bin photon weights: diffuse reflectance by radius and
      angle, absorption by radius and depth, transmittance by radius and angle. */
  datatype RawCounts = RawCounts(rdRa: Matrix, abRz: Matrix, ttRa: Matrix)

  /** The fields after dividing by the photon count, their profiles along
      each axis and their totals. */
  datatype Profiles = Profiles(
    rdRa: Matrix, abRz: Matrix, ttRa: Matrix,
    rdR: seq<real>, rdA: seq<real>, abR: seq<real>, abZ: seq<real>, ttR: seq<real>, ttA: seq<real>,
    rd: real, ab: real, tt: real)

  /** The shapes the transport kernel produces for the grid. */
  ghost predicate RawShaped(sim: SimInput, raw: RawCounts)
  {
    && IsShape(raw.rdRa, sim.nr, sim.na)
    && IsShape(raw.abRz, sim.nr, sim.nz)
    && IsShape(raw.ttRa, sim.nr, sim.na)
  }

  /** `field` is `m / c` elementwise, `byRow` and `byCol` are its sums along
      each axis and `total` the sum of all its elements. Each profile entry
      is the matching raw sum divided by c, so normalising and reducing
      commute, and both profiles add up to the normalised total. */
  ghost predicate NormalizedReduction(m: Matrix, cols: nat, c: real, field: Matrix, byRow: seq<real>, byCol: seq<real>, total: real)
    requires c != 0.0 && IsShape(m, |m|, cols)
  {
    && IsShape(field, |m|, cols)
    && (forall i, j :: 0 <= i < |m| && 0 <= j < cols ==> field[i][j] == m[i][j] / c)
    && |byRow| == |m| && |byCol| == cols
    && (forall i :: 0 <= i < |m| ==> byRow[i] == Sum(m[i]) / c)
    && (forall j :: 0 <= j < cols ==> byCol[j] == Sum(Column(m, j)) / c)
    && Sum(byRow) == total && Sum(byCol) == total
    && total == Total(m) / c
  }

  /** `process_output` up to the geometric rescaling (lines 74-88): each of
      the three fields is divided by the photon count and reduced along
      both axes and in total. */
  function NormalizeAndReduce(sim: SimInput, raw: RawCounts): (p: Profiles)
    requires sim.photons != 0
    requires RawShaped(sim, raw)
    ensures var c := sim.photons as real;
            && NormalizedReduction(raw.rdRa, sim.na, c, p.rdRa, p.rdR, p.rdA, p.rd)
            && NormalizedReduction(raw.abRz, sim.nz, c, p.abRz, p.abR, p.abZ, p.ab)
            && NormalizedReduction(raw.ttRa, sim.na, c, p.ttRa, p.ttR, p.ttA, p.tt)
  {
    var c := sim.photons as real;
    var rd, ab, tt := NormalizeField(raw.rdRa, sim.na, c), NormalizeField(raw.abRz, sim.nz, c), NormalizeField(raw.ttRa, sim.na, c);
    Profiles(rd.field, ab.field, tt.field, rd.byRow, rd.byCol, ab.byRow, ab.byCol, tt.byRow, tt.byCol,
             rd.total, ab.total, tt.total)
  }

  /** One field divided by the photon count, with its two axis profiles and its total. */
  datatype Reduced = Reduced(field: Matrix, byRow: seq<real>, byCol: seq<real>, total: real)

  /** Lines 74-86 for one field: divide every element by c, then reduce. */
  function NormalizeField(m: Matrix, cols: nat, c: real): (r: Reduced)
    requires c != 0.0 && IsShape(m, |m|, cols)
    ensures NormalizedReduction(m, cols, c, r.field, r.byRow, r.byCol, r.total)
  {
    var q := Divide(m, c);
    RowSumsTotal(q);
    ColSumsTotal(q, cols);
    DivideTotal(m, c);
    ReduceDivide(m, cols, c);
    Reduced(q, RowSums(q), ColSums(q, cols), Total(q))
  }

  /** Empty raw fields give zero totals. */
  lemma ZeroCountsZeroTotals(sim: SimInput, raw: RawCounts)
    requires sim.photons != 0 && RawShaped(sim, raw)
    requires forall i, j :: 0 <= i < |raw.rdRa| && 0 <= j < |raw.rdRa[i]| ==> raw.rdRa[i][j] == 0.0
    requires forall i, j :: 0 <= i < |raw.abRz| && 0 <= j < |raw.abRz[i]| ==> raw.abRz[i][j] == 0.0
    requires forall i, j :: 0 <= i < |raw.ttRa| && 0 <= j < |raw.ttRa[i]| ==> raw.ttRa[i][j] == 0.0
    ensures var p := NormalizeAndReduce(sim, raw);
            p.rd == 0.0 && p.ab == 0.0 && p.tt == 0.0
  {
    var p, c := NormalizeAndReduce(sim, raw), sim.photons as real;
    ZeroTotal(raw.rdRa);
    ZeroTotal(raw.abRz);
    ZeroTotal(raw.ttRa);
    ZeroQuotient(c);
  }

  lemma ZeroQuotient(c: real)
    requires c != 0.0
    ensures 0.0 / c == 0.0
  {
  }

  lemma UnitQuotient(c: real)
    requires c != 0.0
    ensures c / c == 1.0
  {
  }

  /** When the reflectance weights add up to the photon count, the
      normalised total reflectance is one. */
  lemma UnitReflectance(sim: SimInput, raw: RawCounts)
    requires sim.photons != 0 && RawShaped(sim, raw)
    requires Total(raw.rdRa) == sim.photons as real
    ensures NormalizeAndReduce(sim, raw).rd == 1.0
  {
    var p, c := NormalizeAndReduce(sim, raw), sim.photons as real;
    UnitQuotient(c);
  }

  // ---------------------------------------------------------------------
  // Radial bin centres

  /** `np.arange(1, nr + 1) * dr - dr / 2`: the i-th radius lies halfway
      between the bin edges `i*dr` and `(i + 1)*dr`. */
  function RIndex(dr: real, nr: nat): (r: seq<real>)
    ensures |r| == nr
    ensures forall i :: 0 <= i < nr ==> r[i] - (i as real) * dr == ((i + 1) as real) * dr - r[i]
  {
    seq(nr, i requires 0 <= i < nr => ((i + 1) as real) * dr - dr / 2.0)
  }

  /** The radii are the centres of the bins `[i*dr, (i + 1)*dr]`. */
  lemma RIndexAreBinCentres(dr: real, nr: nat)
    ensures RIndex(dr, nr) == Statistic.Midpoints(seq(nr + 1, k requires 0 <= k <= nr => (k as real) * dr))
  {
    var edges := seq(nr + 1, k requires 0 <= k <= nr => (k as real) * dr);
    Statistic.MidpointsOfEvenEdges(edges, 0.0, dr);
    var mids := Statistic.Midpoints(edges);
    forall i | 0 <= i < nr
      ensures RIndex(dr, nr)[i] == mids[i]
    {
      assert mids[i] == 0.0 + (i as real + 0.5) * dr;
    }
  }

  /** The first radius is half a bin, consecutive radii are `dr` apart, and
      for a positive bin width they strictly increase. */
  lemma RIndexSpacing(dr: real, nr: nat)
    ensures var r := RIndex(dr, nr);
            && (nr > 0 ==> r[0] == dr / 2.0)
            && (forall i :: 0 <= i < nr - 1 ==> r[i + 1] - r[i] == dr)
            && (dr > 0.0 ==> forall i, j :: 0 <= i < j < nr ==> r[i] < r[j])
  {
    var r := RIndex(dr, nr);
    forall i | 0 <= i < nr - 1
      ensures r[i + 1] - r[i] == dr
    {
      RIndexStep(dr, nr, i);
    }
    if dr > 0.0 {
      forall i, j | 0 <= i < j < nr
        ensures r[i] < r[j]
      {
        assert r[j] - r[i] == ((j - i) as real) * dr;
      }
    }
  }

  lemma RIndexStep(dr: real, nr: nat, i: nat)
    requires i + 1 < nr
    ensures RIndex(dr, nr)[i + 1] == RIndex(dr, nr)[i] + dr
  {
    var a := (i + 1) as real;
    assert RIndex(dr, nr)[i + 1] == (a + 1.0) * dr - dr / 2.0;
    assert (a + 1.0) * dr == a * dr + dr;
  }
}
