/** A FIFO that keeps at most `maxSize` elements, dropping the oldest. */
module BoundedDeques {

  /** `add` on the contents: append, then drop the front element once if
      the count exceeds the bound. */
  function Added<T>(items: seq<T>, item: T, maxSize: int): (r: seq<T>)
  {
    var appended := items + [item];
    if |appended| > maxSize then appended[1..] else appended
  }

  /** The bound is kept: from at most max(0, maxSize) elements, an add
      leaves at most max(0, maxSize). Below capacity nothing is dropped;
      at capacity exactly the oldest element is. */
  lemma AddedSpec<T>(items: seq<T>, item: T, maxSize: int)
    requires |items| <= if maxSize < 0 then 0 else maxSize
    ensures |Added(items, item, maxSize)| <= if maxSize < 0 then 0 else maxSize
    ensures |items| < maxSize ==> Added(items, item, maxSize) == items + [item]
    ensures |items| >= maxSize && items != [] ==> Added(items, item, maxSize) == items[1..] + [item]
    ensures |items| >= maxSize && items == [] ==> Added(items, item, maxSize) == []
  {
  }

  /** Adding every element of xs in order, starting from `items`. */
  function AddAll<T>(items: seq<T>, xs: seq<T>, maxSize: int): seq<T>
    decreases |xs|
  {
    if xs == [] then items else AddAll(Added(items, xs[0], maxSize), xs[1..], maxSize)
  }

  /** The number of elements retained after k adds to an empty deque. */
  function Retained(k: nat, maxSize: int): (n: nat)
    ensures n <= k
  {
    if maxSize <= 0 then 0 else if k < maxSize then k else maxSize
  }

  /** Adding to a suffix of the input keeps a suffix, one step. */
  lemma {:induction false} AddAllSuffix<T>(xs: seq<T>, k: nat, rest: seq<T>, maxSize: int)
    requires k <= |xs| && |xs[k..]| == Retained(|xs|, maxSize)
    ensures AddAll(xs[k..], rest, maxSize) == (xs + rest)[|xs + rest| - Retained(|xs + rest|, maxSize)..]
    decreases |rest|
  {
    var full := xs + rest;
    if rest == [] {
      assert full == xs;
    } else {
      var next := xs + [rest[0]];
      assert next + rest[1..] == full;
      var kept := Added(xs[k..], rest[0], maxSize);
      var n := Retained(|next|, maxSize);
      if |xs[k..] + [rest[0]]| > maxSize {
        assert kept == (xs[k..] + [rest[0]])[1..];
        assert kept == next[|next| - n..];
      } else {
        assert kept == xs[k..] + [rest[0]];
        assert kept == next[|next| - n..];
      }
      AddAllSuffix(next, |next| - n, rest[1..], maxSize);
    }
  }

  /** After adding xs to an empty deque, the contents are the last
      min(|xs|, max(0, maxSize)) elements of xs, in insertion order. */
  lemma AddAllKeepsNewest<T>(xs: seq<T>, maxSize: int)
    ensures AddAll([], xs, maxSize) == xs[|xs| - Retained(|xs|, maxSize)..]
  {
    var empty: seq<T> := [];
    assert empty[0..] == empty;
    AddAllSuffix(empty, 0, xs, maxSize);
    assert empty + xs == xs;
  }

  /** Four adds to a deque of three drop the first; a negative bound keeps nothing. */
  lemma AddAllExample()
    ensures AddAll([], [1, 2, 3, 4], 3) == [2, 3, 4]
    ensures AddAll([], [1, 2], 3) == [1, 2]
    ensures AddAll([], [1, 2], -1) == []
  {
    AddAllKeepsNewest([1, 2, 3, 4], 3);
    AddAllKeepsNewest([1, 2], 3);
    AddAllKeepsNewest([1, 2], -1);
  }

  class BoundedDeque<T> {
    var deque: seq<T>
    const maxSize: int

    /** `init(maxSize:)`: empty. */
    constructor(maxSize: int)
      ensures deque == [] && this.maxSize == maxSize
    {
      deque := [];
      this.maxSize := maxSize;
    }

    /** `add`: append in place, then `removeFirst` on overflow. */
    method Add(item: T)
      modifies this
      ensures deque == Added(old(deque), item, maxSize)
    {
      deque := deque + [item];
      if |deque| > maxSize {
        deque := deque[1..];
      }
    }

    /** `allItems`: the contents, oldest first. */
    method AllItems() returns (items: seq<T>)
      ensures items == deque
    {
      items := deque;
    }
  }
}
