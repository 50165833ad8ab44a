/** `itertools.compress(data, selectors)` and the choice the aggregation
    makes between the selected elements and the whole channel. */
module Selection {

  /** `list(itertools.compress(xs, mask))`: the elements of `xs` whose
      selector is true, in their original order; it stops as soon as either
      input runs out. */
  function Compress<T>(xs: seq<T>, mask: seq<bool>): (r: seq<T>)
    ensures |r| <= |xs|
  {
    if |xs| == 0 || |mask| == 0 then []
    else (if mask[0] then [xs[0]] else []) + Compress(xs[1..], mask[1..])
  }

  /** The compressed list holds only elements of the data. */
  lemma {:induction false} CompressWithin<T>(xs: seq<T>, mask: seq<bool>)
    ensures forall k :: 0 <= k < |Compress(xs, mask)| ==> Compress(xs, mask)[k] in xs
  {
    if |xs| > 0 && |mask| > 0 {
      CompressWithin(xs[1..], mask[1..]);
      var rest := Compress(xs[1..], mask[1..]);
      assert forall k :: 0 <= k < |rest| ==> rest[k] in xs[1..];
    }
  }

  /** The positions at or after `from` whose selector is true, ascending:
      an independent description of what `Compress` keeps. */
  function Positions(mask: seq<bool>, from: nat): (p: seq<nat>)
    ensures forall j :: 0 <= j < |p| ==> from <= p[j] < |mask| && mask[p[j]]
    ensures forall j, j' :: 0 <= j < j' < |p| ==> p[j] < p[j']
    ensures forall i :: from <= i < |mask| && mask[i] ==> i in p
    decreases |mask| - from
  {
    if from >= |mask| then []
    else (if mask[from] then [from] else []) + Positions(mask, from + 1)
  }

  /** `r` is the subsequence of `xs` picked by the ascending positions `p`. */
  ghost predicate SubsequenceAt<T>(r: seq<T>, xs: seq<T>, p: seq<nat>)
  {
    && |p| == |r|
    && (forall j :: 0 <= j < |p| ==> p[j] < |xs| && r[j] == xs[p[j]])
    && (forall j, j' :: 0 <= j < j' < |p| ==> p[j] < p[j'])
  }

  lemma {:induction false} CompressSuffix<T>(xs: seq<T>, mask: seq<bool>, from: nat)
    requires |xs| == |mask| && from <= |xs|
    ensures SubsequenceAt(Compress(xs[from..], mask[from..]), xs, Positions(mask, from))
    decreases |xs| - from
  {
    if from < |xs| {
      CompressSuffix(xs, mask, from + 1);
      var r := Compress(xs[from + 1..], mask[from + 1..]);
      var p := Positions(mask, from + 1);
      assert xs[from..][1..] == xs[from + 1..];
      assert mask[from..][1..] == mask[from + 1..];
      assert Compress(xs[from..], mask[from..]) == (if mask[from] then [xs[from]] else []) + r;
      assert Positions(mask, from) == (if mask[from] then [from] else []) + p;
      if mask[from] {
        SubsequenceCons(xs, from, r, p);
      }
    }
  }

  /** A position before all of `p` extends the subsequence at the front. */
  lemma SubsequenceCons<T>(xs: seq<T>, i: nat, r: seq<T>, p: seq<nat>)
    requires i < |xs| && SubsequenceAt(r, xs, p)
    requires forall j :: 0 <= j < |p| ==> i < p[j]
    ensures SubsequenceAt([xs[i]] + r, xs, [i] + p)
  {
  }

  /** The compressed list is exactly the flagged elements in their original
      order: its j-th element is the element at the j-th flagged position. */
  lemma CompressKeepsFlagged<T>(xs: seq<T>, mask: seq<bool>)
    requires |xs| == |mask|
    ensures SubsequenceAt(Compress(xs, mask), xs, Positions(mask, 0))
    ensures forall i :: 0 <= i < |mask| ==> (mask[i] <==> i in Positions(mask, 0))
  {
    CompressSuffix(xs, mask, 0);
    assert xs[0..] == xs && mask[0..] == mask;
  }

  /** Nothing selected: the compressed list is empty. */
  lemma {:induction false} CompressNoneSelected<T>(xs: seq<T>, mask: seq<bool>)
    requires forall i :: 0 <= i < |mask| ==> !mask[i]
    ensures Compress(xs, mask) == []
  {
    if |xs| > 0 && |mask| > 0 {
      CompressNoneSelected(xs[1..], mask[1..]);
    }
  }

  /** Some selector false: the compressed list is strictly shorter. */
  lemma {:induction false} CompressDropsUnselected<T>(xs: seq<T>, mask: seq<bool>, i: nat)
    requires |xs| == |mask| && i < |mask| && !mask[i]
    ensures |Compress(xs, mask)| < |xs|
  {
    if i > 0 {
      CompressDropsUnselected(xs[1..], mask[1..], i - 1);
    } else {
      assert |Compress(xs[1..], mask[1..])| <= |xs[1..]|;
    }
  }

  /** The list the aggregation averages: the selected elements when there
      are any, otherwise the whole list. */
  function Chosen<T>(xs: seq<T>, mask: seq<bool>): (r: seq<T>)
    ensures |xs| > 0 ==> |r| > 0
    ensures forall k :: 0 <= k < |r| ==> r[k] in xs
  {
    var out := Compress(xs, mask);
    CompressWithin(xs, mask);
    if |out| > 0 then out else xs
  }

  /** Some element flagged: the chosen list is the flagged subsequence. */
  lemma ChosenWhenFlagged<T>(xs: seq<T>, mask: seq<bool>, i: nat)
    requires |xs| == |mask| && i < |mask| && mask[i]
    ensures Chosen(xs, mask) == Compress(xs, mask)
    ensures SubsequenceAt(Chosen(xs, mask), xs, Positions(mask, 0))
  {
    CompressKeepsFlagged(xs, mask);
    assert i in Positions(mask, 0);
  }

  /** Nothing flagged: the chosen list is the whole list. */
  lemma ChosenWhenNoneFlagged<T>(xs: seq<T>, mask: seq<bool>)
    requires forall i :: 0 <= i < |mask| ==> !mask[i]
    ensures Chosen(xs, mask) == xs
  {
    CompressNoneSelected(xs, mask);
  }

  /** Either way the chosen list is a subsequence of `xs`. */
  lemma ChosenIsSubsequence<T>(xs: seq<T>, mask: seq<bool>)
    requires |xs| == |mask|
    ensures exists p :: SubsequenceAt(Chosen(xs, mask), xs, p)
  {
    if i :| 0 <= i < |mask| && mask[i] {
      ChosenWhenFlagged(xs, mask, i);
      assert SubsequenceAt(Chosen(xs, mask), xs, Positions(mask, 0));
    } else {
      ChosenWhenNoneFlagged(xs, mask);
      var all := seq(|xs|, k requires 0 <= k < |xs| => k as nat);
      assert SubsequenceAt(Chosen(xs, mask), xs, all);
    }
  }
}
