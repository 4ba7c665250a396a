/**
 Binary heap over a list, as the priority queue uses it: entries ordered by negated
 priority and then by serial number, the key taking no part in the comparison.
 The three operations never assume that the list is a heap in order to keep its contents;
 the ordering results hold when it is one.
 */
module Heapq {
  datatype Entry<K> = Entry(neg: real, serial: nat, key: K)

  predicate Leq<K>(a: Entry<K>, b: Entry<K>) {
    a.neg < b.neg || (a.neg == b.neg && a.serial <= b.serial)
  }

  function Parent(j: nat): nat
    requires j > 0
  {
    (j - 1) / 2
  }

  /** `pos` lies in the subtree rooted at `start`. */
  predicate Under(start: nat, pos: nat) {
    pos == start || (pos > start && Under(start, Parent(pos)))
  }

  /** Heap order between position `j` and its parent. */
  ghost predicate Edge<K>(h: seq<Entry<K>>, j: nat) {
    0 < j < |h| ==> Leq(h[Parent(j)], h[j])
  }

  /** Heap order on every edge whose upper end is at `start` or later. */
  ghost predicate IsHeapFrom<K>(h: seq<Entry<K>>, start: nat) {
    forall j :: 0 < j < |h| && start <= Parent(j) ==> Edge(h, j)
  }

  ghost predicate IsHeap<K>(h: seq<Entry<K>>) {
    IsHeapFrom(h, 0)
  }

  function Swap<T>(s: seq<T>, i: nat, j: nat): (r: seq<T>)
    requires i < |s| && j < |s|
    ensures multiset(r) == multiset(s)
    ensures |r| == |s|
  {
    s[i := s[j]][j := s[i]]
  }

  /** The first entry of a heap is its least. */
  lemma {:induction false} RootIsLeast<K>(h: seq<Entry<K>>, j: nat)
    requires IsHeap(h) && j < |h|
    ensures Leq(h[0], h[j])
  {
    if j > 0 {
      assert Edge(h, j);
      RootIsLeast(h, Parent(j));
    }
  }

  /** The parent of `p` is no larger than the children of `p`. */
  ghost predicate Bridged<K>(h: seq<Entry<K>>, start: nat, p: nat, j: nat) {
    start < p < |h| && 0 < j < |h| && Parent(j) == p ==> Leq(h[Parent(p)], h[j])
  }

  /** Heap order from `start` on, except that the entry at `p` may be smaller than its parent. */
  ghost predicate Rising<K>(h: seq<Entry<K>>, start: nat, p: nat) {
    && p < |h| && Under(start, p)
    && (forall j :: 0 < j < |h| && start <= Parent(j) && j != p ==> Edge(h, j))
    && (forall j :: Bridged(h, start, p, j))
  }

  /** Heap order from `start` on, except on the edges that touch `p`. */
  ghost predicate Sinking<K>(h: seq<Entry<K>>, start: nat, p: nat) {
    && p < |h| && Under(start, p)
    && (forall j :: 0 < j < |h| && start <= Parent(j) && j != p && Parent(j) != p ==> Edge(h, j))
    && (forall j :: Bridged(h, start, p, j))
  }

  lemma RiseStep<K>(h: seq<Entry<K>>, start: nat, p: nat)
    requires Rising(h, start, p) && start < p && !Leq(h[Parent(p)], h[p])
    ensures Rising(Swap(h, p, Parent(p)), start, Parent(p))
  {
    var q := Parent(p);
    var r := Swap(h, p, q);
    assert Under(start, q);
    forall j | 0 < j < |r| && start <= Parent(j) && j != q
      ensures Edge(r, j)
    {
      assert j != p ==> Edge(h, j);
      assert Bridged(h, start, p, j);
    }
    forall j: nat
      ensures Bridged(r, start, q, j)
    {
      if start < q && 0 < j < |r| && Parent(j) == q {
        assert Under(start, Parent(q));
        assert Edge(h, q) && (j == p || Edge(h, j));
      }
    }
  }

  lemma SinkStep<K>(h: seq<Entry<K>>, start: nat, p: nat, c: nat)
    requires Sinking(h, start, p) && 0 < c < |h| && Parent(c) == p
    requires forall j :: 0 < j < |h| && Parent(j) == p ==> Leq(h[c], h[j])
    ensures Sinking(Swap(h, p, c), start, c)
  {
    var r := Swap(h, p, c);
    forall j | 0 < j < |r| && start <= Parent(j) && j != c && Parent(j) != c
      ensures Edge(r, j)
    {
      assert Bridged(h, start, p, c);
      assert j != p && Parent(j) != p ==> Edge(h, j);
    }
    forall j: nat
      ensures Bridged(r, start, c, j)
    {
      assert 0 < j < |h| && Parent(j) == c ==> Edge(h, j);
    }
  }

  lemma {:induction false} AllUnderRoot(p: nat)
    ensures Under(0, p)
  {
    if p > 0 {
      AllUnderRoot(Parent(p));
    }
  }

  /** `_siftdown`: moves the entry at `pos` towards `start` until its parent is no larger. */
  method BubbleUp<K>(h: seq<Entry<K>>, start: nat, pos: nat) returns (r: seq<Entry<K>>)
    requires start <= pos < |h|
    ensures |r| == |h| && multiset(r) == multiset(h)
    ensures Rising(h, start, pos) ==> IsHeapFrom(r, start)
  {
    r := h;
    var p: nat := pos;
    while p > start
      invariant p < |r| == |h|
      invariant multiset(r) == multiset(h)
      invariant Rising(h, start, pos) ==> Rising(r, start, p)
      invariant p < start ==> !Rising(h, start, pos)
    {
      var q := Parent(p);
      if Leq(r[q], r[p]) {
        break;
      }
      if Rising(r, start, p) { RiseStep(r, start, p); }
      r := Swap(r, p, q);
      p := q;
    }
  }

  /** `_siftup`: moves the hole at `start` down along the smaller children, then lets the entry rise. */
  method SinkThenRise<K>(h: seq<Entry<K>>, start: nat) returns (r: seq<Entry<K>>)
    requires start < |h|
    ensures |r| == |h| && multiset(r) == multiset(h)
    ensures IsHeapFrom(h, start + 1) ==> IsHeapFrom(r, start)
  {
    r := h;
    var p := start;
    var child := 2 * p + 1;
    while child < |r|
      invariant start <= p < |r| == |h| && child == 2 * p + 1
      invariant multiset(r) == multiset(h)
      invariant IsHeapFrom(h, start + 1) ==> Sinking(r, start, p)
      decreases |r| - p
    {
      var right := child + 1;
      if right < |r| && Leq(r[right], r[child]) {
        child := right;
      }
      if Sinking(r, start, p) { SinkStep(r, start, p, child); }
      r := Swap(r, p, child);
      p := child;
      child := 2 * p + 1;
    }
    r := BubbleUp(r, start, p);
  }

  /** `heappush`. */
  method HeapPush<K>(h: seq<Entry<K>>, e: Entry<K>) returns (r: seq<Entry<K>>)
    ensures |r| == |h| + 1 && multiset(r) == multiset(h) + multiset{e}
    ensures IsHeap(h) ==> IsHeap(r)
  {
    AllUnderRoot(|h|);
    r := BubbleUp(h + [e], 0, |h|);
  }

  lemma LeastLeaves<K>(h: seq<Entry<K>>)
    requires |h| > 1
    ensures multiset(h) == multiset(h[..|h| - 1][0 := h[|h| - 1]]) + multiset{h[0]}
    ensures IsHeap(h) ==> IsHeapFrom(h[..|h| - 1][0 := h[|h| - 1]], 1)
  {
    var front := h[..|h| - 1];
    assert h == front + [h[|h| - 1]];
    assert front == [h[0]] + front[1..];
    assert front[0 := h[|h| - 1]] == [h[|h| - 1]] + front[1..];
  }

  lemma RootIsLeastOf<K>(h: seq<Entry<K>>, r: seq<Entry<K>>)
    requires h != [] && IsHeap(h) && multiset(h) == multiset(r) + multiset{h[0]}
    ensures forall e :: e in multiset(r) ==> Leq(h[0], e)
  {
    forall e | e in multiset(r)
      ensures Leq(h[0], e)
    {
      assert e in multiset(h);
      var j :| 0 <= j < |h| && h[j] == e;
      RootIsLeast(h, j);
    }
  }

  /** `heappop`: always the entry in front; the rest of a heap is again a heap. */
  method HeapPop<K>(h: seq<Entry<K>>) returns (least: Entry<K>, r: seq<Entry<K>>)
    requires h != []
    ensures least == h[0] && |r| == |h| - 1 && multiset(r) == multiset(h) - multiset{least}
    ensures multiset(h) == multiset(r) + multiset{least}
    ensures IsHeap(h) ==> IsHeap(r) && forall e :: e in multiset(r) ==> Leq(least, e)
  {
    least := h[0];
    var last := h[|h| - 1];
    r := h[..|h| - 1];
    assert h == r + [last];
    if r != [] {
      LeastLeaves(h);
      r := r[0 := last];
      r := SinkThenRise(r, 0);
    }
    if IsHeap(h) {
      RootIsLeastOf(h, r);
    }
  }

  /** `heapify`: orders any list in place, from the last inner node back to the root. */
  method Heapify<K>(h: seq<Entry<K>>) returns (r: seq<Entry<K>>)
    ensures IsHeap(r) && multiset(r) == multiset(h) && |r| == |h|
  {
    r := h;
    var i := |h| / 2;
    while i > 0
      invariant 0 <= i <= |h| / 2 && |r| == |h|
      invariant multiset(r) == multiset(h)
      invariant IsHeapFrom(r, i)
    {
      i := i - 1;
      r := SinkThenRise(r, i);
    }
  }
}
