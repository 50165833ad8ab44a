/** `Navigator.__set_stats` as a function of the window: per channel, the
    values in window order, the samples `__is_outlier` flags (which
    `itertools.compress` keeps), the whole channel when nothing is flagged,
    and the component-wise mean of that list. */
module Aggregation {
  import opened Vectors
  import opened Outliers
  import opened Selection
  import opened Samples

  /** Every sample of `w` has a channel `c`, with `dim` components. */
  ghost predicate ChannelFits(w: seq<Sample>, c: nat, dim: nat)
  {
    forall i :: 0 <= i < |w| ==> c < |w[i]| && |w[i][c]| == dim
  }

  /** Every sample of `w` has the channel lengths of `shape`. */
  ghost predicate WindowFits(w: seq<Sample>, shape: seq<nat>)
    requires |shape| == NUM_CHANNELS
  {
    forall i :: 0 <= i < |w| ==> Conforms(w[i], shape)
  }

  /** In a window whose samples share one shape, every channel list has
      vectors of that channel's length. */
  lemma ChannelsFit(w: seq<Sample>, shape: seq<nat>)
    requires |shape| == NUM_CHANNELS && WindowFits(w, shape)
    ensures forall c :: 0 <= c < NUM_CHANNELS ==> ChannelFits(w, c, shape[c])
    ensures forall c :: 0 <= c < NUM_CHANNELS ==> AllDim(Column(w, c), shape[c])
  {
    forall c | 0 <= c < NUM_CHANNELS
      ensures ChannelFits(w, c, shape[c])
    {
      forall i | 0 <= i < |w|
        ensures c < |w[i]| && |w[i][c]| == shape[c]
      {
        assert Conforms(w[i], shape);
      }
    }
  }

  /** The list whose mean becomes the channel's value: the flagged samples
      when there are any, otherwise all of them. */
  function ChannelChoice(w: seq<Sample>, c: nat, dim: nat, sqrt: real -> real): (chosen: seq<Vec>)
    requires |w| > 0 && ChannelFits(w, c, dim)
    ensures |chosen| > 0 && AllDim(chosen, dim)
  {
    var vals := Column(w, c);
    Chosen(vals, IsOutlier(vals, dim, sqrt))
  }

  /** `self.__stats[name]` for channel `c` after `__set_stats`. */
  function AggregateChannel(w: seq<Sample>, c: nat, dim: nat, sqrt: real -> real): (v: Vec)
    requires |w| > 0 && ChannelFits(w, c, dim)
    ensures |v| == dim
  {
    Mean(ChannelChoice(w, c, dim, sqrt), dim)
  }

  /** `m` is `self.__stats` after `__set_stats` on the window `w`: it has
      exactly the nine channels, and each maps to its aggregate.  The
      trigger keeps the aggregates folded until a channel's aggregate is
      asked for by name. */
  ghost predicate Aggregates(m: map<nat, Vec>, w: seq<Sample>, shape: seq<nat>, sqrt: real -> real)
    requires |shape| == NUM_CHANNELS && |w| > 0 && WindowFits(w, shape)
  {
    && (forall c: nat :: c in m <==> c < NUM_CHANNELS)
    && (ChannelsFit(w, shape);
        forall c {:trigger AggregateChannel(w, c, shape[c], sqrt)} :: 0 <= c < NUM_CHANNELS ==>
          m[c] == AggregateChannel(w, c, shape[c], sqrt))
  }

  /** The chosen list is never empty, so the mean never divides by zero; it
      is a subsequence of the channel's values; and it is the flagged
      subsequence when some sample is flagged and the whole channel when
      none is. */
  lemma ChannelChoiceIsSubsequence(w: seq<Sample>, c: nat, dim: nat, sqrt: real -> real)
    requires |w| > 0 && ChannelFits(w, c, dim)
    ensures var vals := Column(w, c);
            var mask := IsOutlier(vals, dim, sqrt);
            && |ChannelChoice(w, c, dim, sqrt)| > 0
            && (exists p :: SubsequenceAt(ChannelChoice(w, c, dim, sqrt), vals, p))
            && ((exists i :: 0 <= i < |w| && mask[i]) ==> ChannelChoice(w, c, dim, sqrt) == Compress(vals, mask))
            && ((forall i :: 0 <= i < |w| ==> !mask[i]) ==> ChannelChoice(w, c, dim, sqrt) == vals)
  {
    var vals := Column(w, c);
    var mask := IsOutlier(vals, dim, sqrt);
    ChosenIsSubsequence(vals, mask);
    if i :| 0 <= i < |w| && mask[i] {
      ChosenWhenFlagged(vals, mask, i);
    } else {
      ChosenWhenNoneFlagged(vals, mask);
    }
  }

  /** When some sample is flagged, the average is taken over strictly fewer
      samples than the window holds: the test can never flag them all, so
      the flagged list is never the whole channel. */
  lemma FlaggedChoiceIsProper(w: seq<Sample>, c: nat, dim: nat, sqrt: real -> real)
    requires |w| > 0 && ChannelFits(w, c, dim)
    requires forall x :: x >= 0.0 ==> sqrt(x) >= 0.0
    requires exists i :: 0 <= i < |w| && IsOutlier(Column(w, c), dim, sqrt)[i]
    ensures |ChannelChoice(w, c, dim, sqrt)| < |w|
  {
    var vals := Column(w, c);
    var mask := IsOutlier(vals, dim, sqrt);
    var i :| 0 <= i < |w| && mask[i];
    ChosenWhenFlagged(vals, mask, i);
    ChannelHasUnflagged(vals, dim, sqrt);
    var j :| 0 <= j < |vals| && !mask[j];
    CompressDropsUnselected(vals, mask, j);
  }

  /** Each component of a channel's aggregate lies within any bounds that
      hold for that component in every sample of the window. */
  lemma AggregateWithin(w: seq<Sample>, c: nat, dim: nat, sqrt: real -> real, k: nat, lo: real, hi: real)
    requires |w| > 0 && ChannelFits(w, c, dim) && k < dim
    requires forall i :: 0 <= i < |w| ==> lo <= w[i][c][k] <= hi
    ensures lo <= AggregateChannel(w, c, dim, sqrt)[k] <= hi
  {
    var vals := Column(w, c);
    var chosen := ChannelChoice(w, c, dim, sqrt);
    forall j | 0 <= j < |chosen|
      ensures lo <= chosen[j][k] <= hi
    {
      var i :| 0 <= i < |vals| && vals[i] == chosen[j];
    }
    MeanWithin(chosen, dim, k, lo, hi);
  }

  /** A window of identical samples aggregates, in every channel, to that
      sample's value. */
  lemma AggregateOfIdenticalWindow(w: seq<Sample>, s: Sample, sqrt: real -> real)
    requires |w| > 0 && |s| == NUM_CHANNELS
    requires forall i :: 0 <= i < |w| ==> w[i] == s
    ensures forall c :: 0 <= c < NUM_CHANNELS ==> AggregateChannel(w, c, |s[c]|, sqrt) == s[c]
  {
    forall c | 0 <= c < NUM_CHANNELS
      ensures AggregateChannel(w, c, |s[c]|, sqrt) == s[c]
    {
      var vals := Column(w, c);
      var chosen := ChannelChoice(w, c, |s[c]|, sqrt);
      forall j | 0 <= j < |chosen|
        ensures chosen[j] == s[c]
      {
        var i :| 0 <= i < |vals| && vals[i] == chosen[j];
      }
      MeanOfConstant(chosen, s[c]);
    }
  }
}
