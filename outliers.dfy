/** The Iglewicz-Hoaglin modified z-score test, `Navigator.__is_outlier`:
    the distance of every sample from the component-wise median of the
    channel, the median of those distances (MAD), and the flag
    `0.6745 * distance / MAD > 3.5`, with numpy's division by a zero MAD. */
module Outliers {
  import opened Floats
  import opened Statistics
  import opened Vectors

  const SCALE: real := 0.6745
  const THRESH: real := 3.5

  /** `np.median(points, axis=0)`: the median of each component. */
  function ColumnMedian(vs: seq<Vec>, dim: nat): (m: Vec)
    requires |vs| > 0 && AllDim(vs, dim)
    ensures |m| == dim
  {
    seq(dim, k requires 0 <= k < dim => Median(Column(vs, k)))
  }

  /** `np.sqrt(np.sum((points - median)**2, axis=-1))`: the Euclidean
      distance of every sample from `med`, with the square root supplied. */
  function Distances(vs: seq<Vec>, med: Vec, sqrt: real -> real): (ds: seq<real>)
    requires AllDim(vs, |med|)
    ensures |ds| == |vs|
  {
    seq(|vs|, i requires 0 <= i < |vs| => sqrt(SumSq(Sub(vs[i], med))))
  }

  /** Each component of the column median lies between two samples'
      values of that component. */
  lemma ColumnMedianBetween(vs: seq<Vec>, dim: nat, k: nat)
    requires |vs| > 0 && AllDim(vs, dim) && k < dim
    ensures exists i :: 0 <= i < |vs| && vs[i][k] <= ColumnMedian(vs, dim)[k]
    ensures exists j :: 0 <= j < |vs| && ColumnMedian(vs, dim)[k] <= vs[j][k]
  {
    var col := Column(vs, k);
    assert ColumnMedian(vs, dim)[k] == Median(col);
    var i :| 0 <= i < |col| && col[i] <= Median(col);
    var j :| 0 <= j < |col| && Median(col) <= col[j];
    assert vs[i][k] <= ColumnMedian(vs, dim)[k] <= vs[j][k];
  }

  /** For a square root that is non-negative on non-negative arguments,
      every distance is non-negative. */
  lemma DistancesNonNegative(vs: seq<Vec>, med: Vec, sqrt: real -> real)
    requires AllDim(vs, |med|)
    requires forall x :: x >= 0.0 ==> sqrt(x) >= 0.0
    ensures forall i :: 0 <= i < |vs| ==> Distances(vs, med, sqrt)[i] >= 0.0
  {
    var ds := Distances(vs, med, sqrt);
    forall i | 0 <= i < |vs|
      ensures ds[i] >= 0.0
    {
      SumSqNonNegative(Sub(vs[i], med));
    }
  }

  /** A sample equal to the median is at distance `sqrt(0)`. */
  lemma DistanceOfMedian(vs: seq<Vec>, med: Vec, sqrt: real -> real, i: nat)
    requires AllDim(vs, |med|) && i < |vs| && vs[i] == med
    ensures Distances(vs, med, sqrt)[i] == sqrt(0.0)
  {
    SumSqOfZero(Sub(vs[i], med));
  }

  /** `0.6745 * d / mad > 3.5`.  With a zero MAD the quotient is +inf
      (flagged) for a positive numerator and NaN or -inf (not flagged)
      otherwise; `FlaggedIsNumpyTest` shows this is the float64 test. */
  predicate Flagged(d: real, mad: real)
  {
    if mad != 0.0 then SCALE * d / mad > THRESH else SCALE * d > 0.0
  }

  /** The test above is numpy's: divide as float64 with the warnings
      ignored, then compare with 3.5. */
  lemma FlaggedIsNumpyTest(d: real, mad: real)
    ensures Flagged(d, mad) <==> Gt(Div(SCALE * d, mad), THRESH)
  {
  }

  /** The flags for a non-empty list of distances; `mad` is their median. */
  function Mask(ds: seq<real>): (mask: seq<bool>)
    requires |ds| > 0
    ensures |mask| == |ds|
  {
    var mad := Median(ds);
    seq(|ds|, i requires 0 <= i < |ds| => Flagged(ds[i], mad))
  }

  /** `__is_outlier(np.array(channel))`: one flag per sample.  An empty
      channel gives an empty mask (numpy's median of nothing is NaN, but
      there is no sample to compare with it). */
  function IsOutlier(vs: seq<Vec>, dim: nat, sqrt: real -> real): (mask: seq<bool>)
    requires AllDim(vs, dim)
    ensures |mask| == |vs|
  {
    if |vs| == 0 then [] else Mask(Distances(vs, ColumnMedian(vs, dim), sqrt))
  }

  /** Which samples `__is_outlier` flags: sample i is flagged exactly when
      the float64 quotient `0.6745 * d / mad` of its distance d from the
      column median by the median distance mad is above 3.5. */
  lemma IsOutlierFlags(vs: seq<Vec>, dim: nat, sqrt: real -> real, i: nat)
    requires |vs| > 0 && AllDim(vs, dim) && i < |vs|
    ensures var ds := Distances(vs, ColumnMedian(vs, dim), sqrt);
            IsOutlier(vs, dim, sqrt)[i] <==> Gt(Div(SCALE * ds[i], Median(ds)), THRESH)
  {
    var ds := Distances(vs, ColumnMedian(vs, dim), sqrt);
    FlaggedIsNumpyTest(ds[i], Median(ds));
  }

  /** With a positive MAD the test is the plain inequality
      `0.6745 * d > 3.5 * MAD`. */
  lemma FlaggedWhenSpread(d: real, mad: real)
    requires mad > 0.0
    ensures Flagged(d, mad) <==> SCALE * d > THRESH * mad
  {
    var z := SCALE * d / mad;
    assert z * mad == SCALE * d;
    if z > THRESH {
      assert z * mad > THRESH * mad;
    } else {
      assert z * mad <= THRESH * mad;
    }
  }

  /** With a zero MAD a sample at distance 0 gives 0/0 = NaN, which is not
      above the threshold, and a sample at positive distance gives +inf,
      which is. */
  lemma FlaggedWhenDegenerate(d: real)
    requires d >= 0.0
    ensures Flagged(d, 0.0) <==> d > 0.0
  {
  }

  lemma MaskWhenSpread(ds: seq<real>)
    requires |ds| > 0 && Median(ds) > 0.0
    ensures forall i :: 0 <= i < |ds| ==> (Mask(ds)[i] <==> SCALE * ds[i] > THRESH * Median(ds))
  {
    forall i | 0 <= i < |ds|
      ensures Mask(ds)[i] <==> SCALE * ds[i] > THRESH * Median(ds)
    {
      FlaggedWhenSpread(ds[i], Median(ds));
    }
  }

  lemma MaskWhenDegenerate(ds: seq<real>)
    requires |ds| > 0 && Median(ds) == 0.0
    requires forall i :: 0 <= i < |ds| ==> ds[i] >= 0.0
    ensures forall i :: 0 <= i < |ds| ==> (Mask(ds)[i] <==> ds[i] > 0.0)
  {
    forall i | 0 <= i < |ds|
      ensures Mask(ds)[i] <==> ds[i] > 0.0
    {
      FlaggedWhenDegenerate(ds[i]);
    }
  }

  /** The MAD of non-negative distances is non-negative. */
  lemma MadNonNegative(ds: seq<real>)
    requires |ds| > 0
    requires forall i :: 0 <= i < |ds| ==> ds[i] >= 0.0
    ensures Median(ds) >= 0.0
  {
    var i :| 0 <= i < |ds| && ds[i] <= Median(ds);
  }

  /** Not every sample is flagged: a distance at or below the MAD has a
      modified z-score of at most 0.6745 (or is 0/0 when the MAD is 0). */
  lemma SomeSampleUnflagged(ds: seq<real>)
    requires |ds| > 0
    requires forall i :: 0 <= i < |ds| ==> ds[i] >= 0.0
    ensures exists i :: 0 <= i < |ds| && !Mask(ds)[i]
  {
    var mad := Median(ds);
    var i :| 0 <= i < |ds| && ds[i] <= mad;
    if mad > 0.0 {
      FlaggedWhenSpread(ds[i], mad);
      assert SCALE * ds[i] <= SCALE * mad < THRESH * mad;
    } else {
      assert ds[i] == 0.0 && mad == 0.0;
      FlaggedWhenDegenerate(ds[i]);
    }
    assert !Mask(ds)[i];
  }

  lemma {:induction false} SumSqNonNegative(v: Vec)
    ensures SumSq(v) >= 0.0
  {
    if |v| > 0 {
      SumSqNonNegative(v[..|v| - 1]);
    }
  }

  /** For any square root that is non-negative on non-negative arguments,
      some sample of a non-empty channel is left unflagged. */
  lemma ChannelHasUnflagged(vs: seq<Vec>, dim: nat, sqrt: real -> real)
    requires |vs| > 0 && AllDim(vs, dim)
    requires forall x :: x >= 0.0 ==> sqrt(x) >= 0.0
    ensures exists i :: 0 <= i < |vs| && !IsOutlier(vs, dim, sqrt)[i]
  {
    var med := ColumnMedian(vs, dim);
    var ds := Distances(vs, med, sqrt);
    DistancesNonNegative(vs, med, sqrt);
    SomeSampleUnflagged(ds);
    assert IsOutlier(vs, dim, sqrt) == Mask(ds);
    var i :| 0 <= i < |ds| && !Mask(ds)[i];
    assert !IsOutlier(vs, dim, sqrt)[i];
  }

  /** A channel of identical samples has no flagged sample: every distance
      is zero, so the MAD is zero and every test is 0/0. */
  lemma IdenticalChannelUnflagged(vs: seq<Vec>, v: Vec, sqrt: real -> real)
    requires |vs| > 0
    requires forall i :: 0 <= i < |vs| ==> vs[i] == v
    requires sqrt(0.0) == 0.0
    ensures forall i :: 0 <= i < |vs| ==> !IsOutlier(vs, |v|, sqrt)[i]
  {
    var med := ColumnMedian(vs, |v|);
    forall k | 0 <= k < |v|
      ensures med[k] == v[k]
    {
      MedianOfConstant(Column(vs, k), v[k]);
    }
    assert med == v;
    var ds := Distances(vs, med, sqrt);
    forall i | 0 <= i < |vs|
      ensures ds[i] == 0.0
    {
      DistanceOfMedian(vs, med, sqrt, i);
    }
    MedianOfConstant(ds, 0.0);
    forall i | 0 <= i < |vs|
      ensures !Mask(ds)[i]
    {
      FlaggedWhenDegenerate(ds[i]);
    }
  }
}
