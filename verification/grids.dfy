/** Two-dimensional count fields and the numpy reductions applied to them:
    the sum along each axis and the sum of every element. */
module Grids {
  import opened RealSums

  /** A field stored row by row; rows are radial bins. */
  type Matrix = seq<seq<real>>

  ghost predicate IsShape(m: Matrix, rows: nat, cols: nat)
  {
    |m| == rows && forall i :: 0 <= i < |m| ==> |m[i]| == cols
  }

  /** The elements in row-major order, as `np.sum` without an axis visits them. */
  function Flatten(m: Matrix): (f: seq<real>)
    ensures |m| == 0 ==> f == []
  {
    if |m| == 0 then [] else Flatten(m[..|m| - 1]) + m[|m| - 1]
  }

  /** `np.sum(m)`. */
  function Total(m: Matrix): real
  {
    Sum(Flatten(m))
  }

  /** `np.sum(m, axis=1)`: one sum per row. */
  function RowSums(m: Matrix): (r: seq<real>)
    ensures |r| == |m|
    ensures forall i :: 0 <= i < |m| ==> r[i] == Sum(m[i])
  {
    seq(|m|, i requires 0 <= i < |m| => Sum(m[i]))
  }

  function Column(m: Matrix, j: nat): (c: seq<real>)
    requires forall i :: 0 <= i < |m| ==> j < |m[i]|
    ensures |c| == |m|
    ensures forall i :: 0 <= i < |m| ==> c[i] == m[i][j]
  {
    seq(|m|, i requires 0 <= i < |m| && j < |m[i]| => m[i][j])
  }

  /** `np.sum(m, axis=0)` on a field with `cols` columns: one sum per column. */
  function ColSums(m: Matrix, cols: nat): (r: seq<real>)
    requires IsShape(m, |m|, cols)
    ensures |r| == cols
    ensures forall j :: 0 <= j < cols ==> r[j] == Sum(Column(m, j))
  {
    seq(cols, j requires 0 <= j < cols => Sum(Column(m, j)))
  }

  /** `m / c` elementwise. */
  function Divide(m: Matrix, c: real): (q: Matrix)
    requires c != 0.0
    ensures |q| == |m|
    ensures forall i :: 0 <= i < |m| ==> |q[i]| == |m[i]|
    ensures forall i, j :: 0 <= i < |m| && 0 <= j < |m[i]| ==> q[i][j] == m[i][j] / c
  {
    seq(|m|, i requires 0 <= i < |m| => seq(|m[i]|, j requires 0 <= j < |m[i]| => m[i][j] / c))
  }

  /** Summing the row sums gives the total. */
  lemma {:induction false} RowSumsTotal(m: Matrix)
    ensures Sum(RowSums(m)) == Total(m)
    decreases |m|
  {
    if |m| > 0 {
      var k := |m| - 1;
      RowSumsTotal(m[..k]);
      assert RowSums(m[..k]) == RowSums(m)[..k];
      SumAppend(Flatten(m[..k]), m[k]);
    }
  }

  /** Adding a row adds it to every column sum. */
  lemma ColSumsSnoc(m: Matrix, cols: nat)
    requires |m| > 0 && IsShape(m, |m|, cols)
    ensures var k := |m| - 1;
            forall j :: 0 <= j < cols ==> ColSums(m, cols)[j] == ColSums(m[..k], cols)[j] + m[k][j]
  {
    var k := |m| - 1;
    forall j | 0 <= j < cols
      ensures ColSums(m, cols)[j] == ColSums(m[..k], cols)[j] + m[k][j]
    {
      assert Column(m, j)[..k] == Column(m[..k], j);
    }
  }

  /** Summing the column sums gives the total too. */
  lemma {:induction false} ColSumsTotal(m: Matrix, cols: nat)
    requires IsShape(m, |m|, cols)
    ensures Sum(ColSums(m, cols)) == Total(m)
    decreases |m|
  {
    if |m| == 0 {
      SumZeros(ColSums(m, cols));
    } else {
      var k := |m| - 1;
      ColSumsTotal(m[..k], cols);
      ColSumsSnoc(m, cols);
      SumPointwiseAdd(ColSums(m[..k], cols), m[k], ColSums(m, cols));
      SumAppend(Flatten(m[..k]), m[k]);
    }
  }

  /** Dividing every element divides the total. */
  lemma DivideTotal(m: Matrix, c: real)
    requires c != 0.0
    ensures Total(Divide(m, c)) == Total(m) / c
  {
    var q := Divide(m, c);
    forall i | 0 <= i < |m|
      ensures RowSums(q)[i] == RowSums(m)[i] / c
    {
      SumPointwiseDivide(m[i], q[i], c);
    }
    SumPointwiseDivide(RowSums(m), RowSums(q), c);
    RowSumsTotal(m);
    RowSumsTotal(q);
  }

  /** Reducing along either axis commutes with dividing every element:
      each row or column sum of the divided field is that sum of the
      original field divided by c. */
  lemma ReduceDivide(m: Matrix, cols: nat, c: real)
    requires c != 0.0 && IsShape(m, |m|, cols)
    ensures forall i :: 0 <= i < |m| ==> RowSums(Divide(m, c))[i] == Sum(m[i]) / c
    ensures forall j :: 0 <= j < cols ==> ColSums(Divide(m, c), cols)[j] == Sum(Column(m, j)) / c
  {
    var q := Divide(m, c);
    forall i | 0 <= i < |m|
      ensures RowSums(q)[i] == Sum(m[i]) / c
    {
      SumPointwiseDivide(m[i], q[i], c);
    }
    forall j | 0 <= j < cols
      ensures ColSums(q, cols)[j] == Sum(Column(m, j)) / c
    {
      SumPointwiseDivide(Column(m, j), Column(q, j), c);
    }
  }

  /** A field of zeros has total zero. */
  lemma ZeroTotal(m: Matrix)
    requires forall i, j :: 0 <= i < |m| && 0 <= j < |m[i]| ==> m[i][j] == 0.0
    ensures Total(m) == 0.0
  {
    forall i | 0 <= i < |m|
      ensures RowSums(m)[i] == 0.0
    {
      SumZeros(m[i]);
    }
    SumZeros(RowSums(m));
    RowSumsTotal(m);
  }
}
