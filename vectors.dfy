/** Real vectors and the element-wise numpy arithmetic the aggregation uses:
    `reduce(lambda x, y: x + y, np.array(list))` to sum the rows of a list of
    equally long vectors, then division of the sum by the number of rows. */
module Vectors {

  type Vec = seq<real>

  /** Every vector of `vs` has `dim` components. */
  ghost predicate AllDim(vs: seq<Vec>, dim: nat)
  {
    forall i :: 0 <= i < |vs| ==> |vs[i]| == dim
  }

  /** Entry `k` of every row, in order: one channel's values across the
      samples of a window, or one component (`points[:, k]`) of a list of
      vectors. */
  function Column<T>(rows: seq<seq<T>>, k: nat): (c: seq<T>)
    requires forall i :: 0 <= i < |rows| ==> k < |rows[i]|
    ensures |c| == |rows|
  {
    seq(|rows|, i requires 0 <= i < |rows| => rows[i][k])
  }

  /** One more row appends its entry to the column. */
  lemma ColumnSnoc<T>(rows: seq<seq<T>>, n: nat, k: nat)
    requires n < |rows| && forall i :: 0 <= i < |rows| ==> k < |rows[i]|
    ensures Column(rows[..n + 1], k) == Column(rows[..n], k) + [rows[n][k]]
  {
  }

  function Add(u: Vec, v: Vec): (w: Vec)
    requires |u| == |v|
    ensures |w| == |u|
  {
    seq(|u|, k requires 0 <= k < |u| => u[k] + v[k])
  }

  function Sub(u: Vec, v: Vec): (w: Vec)
    requires |u| == |v|
    ensures |w| == |u|
  {
    seq(|u|, k requires 0 <= k < |u| => u[k] - v[k])
  }

  /** `np.sum(v**2)`: the sum of the squared components. */
  function SumSq(v: Vec): real
  {
    if |v| == 0 then 0.0 else SumSq(v[..|v| - 1]) + v[|v| - 1] * v[|v| - 1]
  }

  /** The squared length of the zero vector is zero. */
  lemma {:induction false} SumSqOfZero(v: Vec)
    requires forall k :: 0 <= k < |v| ==> v[k] == 0.0
    ensures SumSq(v) == 0.0
  {
    if |v| > 0 {
      SumSqOfZero(v[..|v| - 1]);
    }
  }

  /** `reduce(lambda x, y: x + y, vs)` on a non-empty list: the rows added
      left to right, starting from the first row. */
  function Reduce(vs: seq<Vec>, dim: nat): (r: Vec)
    requires |vs| > 0 && AllDim(vs, dim)
    ensures |r| == dim
  {
    if |vs| == 1 then vs[0]
    else Add(Reduce(vs[..|vs| - 1], dim), vs[|vs| - 1])
  }

  /** A list of reals added left to right, starting from 0. */
  function Sum(s: seq<real>): real
  {
    if |s| == 0 then 0.0 else Sum(s[..|s| - 1]) + s[|s| - 1]
  }

  /** Component `k` of the row sum is the sum of component `k` over the
      rows: numpy's `x + y` on arrays adds component by component. */
  lemma {:induction false} ReduceIsColumnSum(vs: seq<Vec>, dim: nat, k: nat)
    requires |vs| > 0 && AllDim(vs, dim) && k < dim
    ensures Reduce(vs, dim)[k] == Sum(Column(vs, k))
  {
    var n := |vs|;
    var col := Column(vs, k);
    if n == 1 {
      assert col[..0] == [];
    } else {
      ReduceIsColumnSum(vs[..n - 1], dim, k);
      assert Column(vs[..n - 1], k) == col[..n - 1];
    }
  }

  /** Component `k` of the sum lies between n times a lower and n times an
      upper bound that hold for component `k` of every row. */
  lemma {:induction false} ReduceWithin(vs: seq<Vec>, dim: nat, k: nat, lo: real, hi: real)
    requires |vs| > 0 && AllDim(vs, dim) && k < dim
    requires forall i :: 0 <= i < |vs| ==> lo <= vs[i][k] <= hi
    ensures (|vs| as real) * lo <= Reduce(vs, dim)[k] <= (|vs| as real) * hi
  {
    if |vs| > 1 {
      var pre := vs[..|vs| - 1];
      ReduceWithin(pre, dim, k, lo, hi);
      assert Reduce(vs, dim)[k] == Reduce(pre, dim)[k] + vs[|vs| - 1][k];
      assert (|vs| as real) * lo == (|pre| as real) * lo + lo;
      assert (|vs| as real) * hi == (|pre| as real) * hi + hi;
    }
  }

  /** The component-wise arithmetic mean of a non-empty list of vectors:
      the numpy sum of the rows divided by their number. */
  function Mean(vs: seq<Vec>, dim: nat): (m: Vec)
    requires |vs| > 0 && AllDim(vs, dim)
    ensures |m| == dim
  {
    var total := Reduce(vs, dim);
    seq(dim, k requires 0 <= k < dim => total[k] / (|vs| as real))
  }

  /** Component `k` of the mean is the average of component `k` over the
      rows: their sum divided by the number of rows. */
  lemma MeanIsColumnAverage(vs: seq<Vec>, dim: nat, k: nat)
    requires |vs| > 0 && AllDim(vs, dim) && k < dim
    ensures Mean(vs, dim)[k] == Sum(Column(vs, k)) / (|vs| as real)
  {
    ReduceIsColumnSum(vs, dim, k);
  }

  /** Each component of the mean lies within any bounds that hold for that
      component in every row. */
  lemma MeanWithin(vs: seq<Vec>, dim: nat, k: nat, lo: real, hi: real)
    requires |vs| > 0 && AllDim(vs, dim) && k < dim
    requires forall i :: 0 <= i < |vs| ==> lo <= vs[i][k] <= hi
    ensures lo <= Mean(vs, dim)[k] <= hi
  {
    ReduceWithin(vs, dim, k, lo, hi);
    QuotientWithin(Reduce(vs, dim)[k], |vs| as real, lo, hi);
  }

  /** Dividing by a positive count keeps a scaled bound. */
  lemma QuotientWithin(t: real, n: real, lo: real, hi: real)
    requires n > 0.0 && n * lo <= t <= n * hi
    ensures lo <= t / n <= hi
  {
    var q := t / n;
    assert q * n == t;
  }

  /** The mean of a list of copies of one vector is that vector. */
  lemma MeanOfConstant(vs: seq<Vec>, v: Vec)
    requires |vs| > 0
    requires forall i :: 0 <= i < |vs| ==> vs[i] == v
    ensures Mean(vs, |v|) == v
  {
    forall k | 0 <= k < |v|
      ensures Mean(vs, |v|)[k] == v[k]
    {
      MeanWithin(vs, |v|, k, v[k], v[k]);
    }
  }
}
