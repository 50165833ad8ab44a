/** Sorting and the median, as numpy's `np.median` computes it on a
    one-dimensional array: the middle element of the sorted values, or the
    mean of the two middle elements when there is an even number of them. */
module Statistics {

  ghost predicate Sorted(s: seq<real>)
  {
    forall i, j :: 0 <= i < j < |s| ==> s[i] <= s[j]
  }

  /** Inserts `x` into the sorted sequence `s`, keeping it sorted; the new
      head is the smaller of `x` and the old head. */
  function Insert(x: real, s: seq<real>): (r: seq<real>)
    requires Sorted(s)
    ensures Sorted(r)
    ensures |r| == |s| + 1
    ensures multiset(r) == multiset(s) + multiset{x}
    ensures r[0] == if |s| == 0 || x <= s[0] then x else s[0]
  {
    if |s| == 0 || x <= s[0] then
      SortedCons(x, s);
      [x] + s
    else
      var rest := Insert(x, s[1..]);
      assert s == [s[0]] + s[1..];
      SortedCons(s[0], rest);
      [s[0]] + rest
  }

  /** A value at most every element of a sorted sequence can go in front. */
  lemma SortedCons(a: real, t: seq<real>)
    requires Sorted(t) && (|t| == 0 || a <= t[0])
    ensures Sorted([a] + t)
  {
  }

  /** Insertion sort: an ordered sequence of the same length as `s`;
      `SortPermutes` shows it holds the same values. */
  function Sort(s: seq<real>): (r: seq<real>)
    ensures Sorted(r)
    ensures |r| == |s|
  {
    if |s| == 0 then [] else Insert(s[0], Sort(s[1..]))
  }

  /** Sorting rearranges the values and neither adds nor drops any. */
  lemma {:induction false} SortPermutes(s: seq<real>)
    ensures multiset(Sort(s)) == multiset(s)
  {
    if |s| > 0 {
      SortPermutes(s[1..]);
      calc {
        multiset(Sort(s));
        multiset(Insert(s[0], Sort(s[1..])));
        multiset(Sort(s[1..])) + multiset{s[0]};
        multiset(s[1..]) + multiset{s[0]};
        { assert s == [s[0]] + s[1..]; }
        multiset(s);
      }
    }
  }

  /** The median of a non-empty sequence.  It is one of the values, or lies
      between two of them: some value is at most the median and some value
      is at least the median. */
  function Median(s: seq<real>): (m: real)
    requires |s| > 0
    ensures exists i :: 0 <= i < |s| && s[i] <= m
    ensures exists j :: 0 <= j < |s| && m <= s[j]
  {
    var t := Sort(s);
    var n := |t|;
    SortPermutes(s);
    if n % 2 == 1 then
      assert t[n / 2] in multiset(s);
      t[n / 2]
    else
      assert t[n / 2 - 1] in multiset(s) && t[n / 2] in multiset(s);
      (t[n / 2 - 1] + t[n / 2]) / 2.0
  }

  /** The median stays within any bounds that hold for every value. */
  lemma MedianWithin(s: seq<real>, lo: real, hi: real)
    requires |s| > 0
    requires forall i :: 0 <= i < |s| ==> lo <= s[i] <= hi
    ensures lo <= Median(s) <= hi
  {
  }

  /** The median of a sequence of equal values is that value. */
  lemma MedianOfConstant(s: seq<real>, v: real)
    requires |s| > 0
    requires forall i :: 0 <= i < |s| ==> s[i] == v
    ensures Median(s) == v
  {
    MedianWithin(s, v, v);
  }
}
