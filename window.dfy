/** `collections.deque(maxlen = capacity)` as the navigator uses it: a
    bounded FIFO that, when full, drops its oldest element to make room for
    the new one.  Stored as a ring buffer over a fixed array. */
module Window {

  class SampleWindow<T(0)> {
    /** The elements, oldest first, as `list(deque)` returns them. */
    ghost var Contents: seq<T>

    const capacity: nat
    const data: array<T>
    var start: nat
    var len: nat

    /** Array slot of the `i`-th oldest element. */
    function Slot(i: nat): nat
      reads this
      requires start < capacity && i < capacity
    {
      if start + i < capacity then start + i else start + i - capacity
    }

    ghost predicate Valid()
      reads this, data
    {
      && data.Length == capacity
      && len <= capacity
      && (capacity == 0 ==> start == 0)
      && (capacity > 0 ==> start < capacity)
      && |Contents| == len
      && (forall i :: 0 <= i < len ==> Contents[i] == data[Slot(i)])
    }

    constructor (n: nat)
      ensures Valid() && fresh(data)
      ensures capacity == n && Contents == []
    {
      capacity := n;
      data := new T[n];
      start, len := 0, 0;
      Contents := [];
    }

    /** `deque.append(x)`: below capacity the element is added at the end;
        at capacity the oldest element is dropped first.  A deque of
        capacity 0 stays empty. */
    method Append(x: T)
      requires Valid()
      modifies this, data
      ensures Valid()
      ensures |old(Contents)| < capacity ==> Contents == old(Contents) + [x]
      ensures |old(Contents)| == capacity > 0 ==> Contents == old(Contents)[1..] + [x]
      ensures capacity == 0 ==> Contents == []
    {
      if capacity == 0 {
        return;
      }
      if len < capacity {
        data[Slot(len)] := x;
        len := len + 1;
        Contents := Contents + [x];
      } else {
        ghost var was := Contents;
        data[start] := x;
        start := if start + 1 == capacity then 0 else start + 1;
        Contents := Contents[1..] + [x];
        forall i | 0 <= i < len
          ensures Contents[i] == data[Slot(i)]
        {
          if i < len - 1 {
            assert Contents[i] == was[i + 1];
          }
        }
      }
    }

    /** `list(deque)`: a copy of the elements, oldest first. */
    method Snapshot() returns (s: seq<T>)
      requires Valid()
      ensures s == Contents
    {
      s := [];
      var i := 0;
      while i < len
        invariant 0 <= i <= len
        invariant s == Contents[..i]
      {
        s := s + [data[Slot(i)]];
        i := i + 1;
      }
    }
  }
}
