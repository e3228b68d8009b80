/** The elementwise numeric operations the optimizer performs with numpy:
    `np.ones`, elementwise `*`, and `np.mean(rows, axis=0)`, over exact reals. */
module Vectors {

  import Sequences

  /** Every entry is strictly positive. */
  predicate AllPositive(v: seq<real>) {
    forall j :: 0 <= j < |v| ==> v[j] > 0.0
  }

  /** Every row has exactly `width` entries. */
  predicate Rectangular(rows: seq<seq<real>>, width: nat) {
    forall k :: 0 <= k < |rows| ==> |rows[k]| == width
  }

  /** Every row has an entry in column j. */
  predicate HasColumn(rows: seq<seq<real>>, j: nat) {
    forall k :: 0 <= k < |rows| ==> j < |rows[k]|
  }

  /** `np.ones(n)`. */
  function Ones(n: nat): (v: seq<real>)
    ensures |v| == n && AllPositive(v)
    ensures forall j :: 0 <= j < n ==> v[j] == 1.0
  {
    seq(n, _ => 1.0)
  }

  /** Elementwise product `u * v` of two vectors of one length. */
  function Product(u: seq<real>, v: seq<real>): (w: seq<real>)
    requires |u| == |v|
    ensures |w| == |u|
    ensures forall j :: 0 <= j < |w| ==> w[j] == u[j] * v[j]
  {
    seq(|u|, j requires 0 <= j < |u| => u[j] * v[j])
  }

  /** The sum of column j over all rows. */
  function ColumnSum(rows: seq<seq<real>>, j: nat): real
    requires HasColumn(rows, j)
  {
    if rows == [] then 0.0 else rows[0][j] + ColumnSum(rows[1..], j)
  }

  /** `np.mean(rows, axis=0)` for a non-empty list of rows of one width. */
  function Mean(rows: seq<seq<real>>, width: nat): (m: seq<real>)
    requires |rows| > 0 && Rectangular(rows, width)
    ensures |m| == width
    ensures forall j :: 0 <= j < width ==> m[j] == ColumnSum(rows, j) / (|rows| as real)
  {
    seq(width, j requires 0 <= j < width => ColumnSum(rows, j) / (|rows| as real))
  }

  lemma {:induction false} ColumnSumConcat(a: seq<seq<real>>, b: seq<seq<real>>, j: nat)
    requires HasColumn(a, j) && HasColumn(b, j)
    ensures HasColumn(a + b, j)
    ensures ColumnSum(a + b, j) == ColumnSum(a, j) + ColumnSum(b, j)
    decreases |a|
  {
    if a != [] {
      assert (a + b)[1..] == a[1..] + b;
      ColumnSumConcat(a[1..], b, j);
    } else {
      assert a + b == b;
    }
  }

  /** A column sum is the entry of row p plus the sum without row p. */
  lemma ColumnSumRemoved(rows: seq<seq<real>>, p: nat, j: nat)
    requires p < |rows| && HasColumn(rows, j)
    ensures HasColumn(rows[..p] + rows[p + 1..], j)
    ensures ColumnSum(rows, j) == rows[p][j] + ColumnSum(rows[..p] + rows[p + 1..], j)
  {
    var before, after := rows[..p], rows[p + 1..];
    assert rows == before + ([rows[p]] + after);
    ColumnSumConcat(before, [rows[p]] + after, j);
    ColumnSumConcat(before, after, j);
    assert ([rows[p]] + after)[1..] == after;
  }

  /** Rows of a permutation have the columns the original rows have. */
  lemma HasColumnPermutation(rows: seq<seq<real>>, rows': seq<seq<real>>, j: nat)
    requires multiset(rows) == multiset(rows') && HasColumn(rows, j)
    ensures HasColumn(rows', j)
  {
    forall k | 0 <= k < |rows'| ensures j < |rows'[k]| {
      assert rows'[k] in multiset(rows);
    }
  }

  /** A column sum does not depend on the order of the rows. */
  lemma {:induction false} ColumnSumPermutation(rows: seq<seq<real>>, rows': seq<seq<real>>, j: nat)
    requires multiset(rows) == multiset(rows') && HasColumn(rows, j)
    ensures HasColumn(rows', j)
    ensures ColumnSum(rows, j) == ColumnSum(rows', j)
    decreases |rows|
  {
    HasColumnPermutation(rows, rows', j);
    if rows == [] {
      assert |rows'| == |multiset(rows')| == 0;
    } else {
      var p := Sequences.FindHead(rows, rows');
      Sequences.RemoveMatch(rows, rows', p);
      ColumnSumPermutation(rows[1..], rows'[..p] + rows'[p + 1..], j);
      ColumnSumRemoved(rows', p, j);
    }
  }

  /** The mean does not depend on the order of the rows. */
  lemma MeanPermutation(rows: seq<seq<real>>, rows': seq<seq<real>>, width: nat)
    requires |rows| > 0 && Rectangular(rows, width) && multiset(rows) == multiset(rows')
    ensures |rows'| == |rows| && Rectangular(rows', width)
    ensures Mean(rows, width) == Mean(rows', width)
  {
    assert |rows'| == |multiset(rows')| == |multiset(rows)| == |rows|;
    forall k | 0 <= k < |rows'| ensures |rows'[k]| == width {
      assert rows'[k] in multiset(rows);
    }
    forall j | 0 <= j < width ensures ColumnSum(rows, j) == ColumnSum(rows', j) {
      ColumnSumPermutation(rows, rows', j);
    }
  }

  lemma {:induction false} ColumnSumPositive(rows: seq<seq<real>>, j: nat)
    requires |rows| > 0 && HasColumn(rows, j)
    requires forall k :: 0 <= k < |rows| ==> rows[k][j] > 0.0
    ensures ColumnSum(rows, j) > 0.0
    decreases |rows|
  {
    if |rows| > 1 {
      ColumnSumPositive(rows[1..], j);
    }
  }

  /** The elementwise product of strictly positive vectors is strictly positive. */
  lemma ProductPositive(u: seq<real>, v: seq<real>)
    requires |u| == |v| && AllPositive(u) && AllPositive(v)
    ensures AllPositive(Product(u, v))
  {
    forall j | 0 <= j < |u| ensures Product(u, v)[j] > 0.0 {
      assert Product(u, v)[j] == u[j] * v[j];
    }
  }

  /** The mean of strictly positive rows is strictly positive. */
  lemma MeanPositive(rows: seq<seq<real>>, width: nat)
    requires |rows| > 0 && Rectangular(rows, width)
    requires forall k :: 0 <= k < |rows| ==> AllPositive(rows[k])
    ensures AllPositive(Mean(rows, width))
  {
    var m := Mean(rows, width);
    forall j | 0 <= j < width ensures m[j] > 0.0 {
      ColumnSumPositive(rows, j);
    }
  }
}
