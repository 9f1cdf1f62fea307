/**
 * The binary heap that heapq keeps in a Python list: push, pop and heapify with sift loops.
 * Only the heap order and the contents are promised, not the positions of equal elements.
 */
module Heap {
  import opened Ordering

  function Parent(j: int): (p: nat)
    requires j >= 1
    ensures p < j && (j == 2 * p + 1 || j == 2 * p + 2)
  {
    (j - 1) / 2
  }

  /** The edge from j to its parent is in order. */
  predicate Edge<T(!new)>(h: seq<T>, j: int, less: (T, T) -> bool)
    requires 1 <= j < |h|
  {
    !less(h[j], h[Parent(j)])
  }

  ghost predicate IsHeap<T(!new)>(h: seq<T>, less: (T, T) -> bool) {
    forall j | 1 <= j < |h| :: Edge(h, j, less)
  }

  /** Heap order at every node whose parent is at or after `from`. */
  ghost predicate HeapFrom<T(!new)>(h: seq<T>, from: nat, less: (T, T) -> bool) {
    forall j | 1 <= j < |h| && Parent(j) >= from :: Edge(h, j, less)
  }

  /** The root is a lower bound: what an early stop at heap[0] rests on. */
  lemma {:induction false} RootIsLeast<T(!new)>(h: seq<T>, less: (T, T) -> bool, k: nat)
    requires StrictTotal(less) && IsHeap(h, less) && k < |h|
    ensures !less(h[k], h[0])
  {
    if k > 0 {
      RootIsLeast(h, less, Parent(k));
      assert Edge(h, k, less);
    }
  }

  function Swap<T>(h: seq<T>, i: nat, j: nat): (r: seq<T>)
    requires i < |h| && j < |h|
    ensures |r| == |h| && multiset(r) == multiset(h)
    ensures r[i] == h[j] && r[j] == h[i]
    ensures forall k | 0 <= k < |h| && k != i && k != j :: r[k] == h[k]
  {
    h[i := h[j]][j := h[i]]
  }

  lemma SiftUpStep<T(!new)>(h: seq<T>, i: nat, less: (T, T) -> bool)
    requires StrictTotal(less) && 0 < i < |h|
    requires forall j | 1 <= j < |h| && j != i :: Edge(h, j, less)
    requires forall j | 1 <= j < |h| && Parent(j) == i :: !less(h[j], h[Parent(i)])
    requires less(h[i], h[Parent(i)])
    ensures var p, g := Parent(i), Swap(h, i, Parent(i));
            && (forall j | 1 <= j < |g| && j != p :: Edge(g, j, less))
            && (forall j | 1 <= j < |g| && Parent(j) == p > 0 :: !less(g[j], g[Parent(p)]))
  {
    var p, g := Parent(i), Swap(h, i, Parent(i));
    forall j | 1 <= j < |g| && j != p ensures Edge(g, j, less) {
      if j != i {
        assert Edge(h, j, less);
      }
    }
    forall j | 1 <= j < |g| && Parent(j) == p > 0 ensures !less(g[j], g[Parent(p)]) {
      assert Edge(h, p, less);
      if j != i {
        assert Edge(h, j, less);
      }
    }
  }

  method SiftUp<T(!new)>(heap: seq<T>, pos: nat, less: (T, T) -> bool) returns (h: seq<T>)
    requires StrictTotal(less) && pos < |heap|
    requires forall j | 1 <= j < |heap| && j != pos :: Edge(heap, j, less)
    requires forall j | 1 <= j < |heap| && Parent(j) == pos > 0 :: !less(heap[j], heap[Parent(pos)])
    ensures IsHeap(h, less) && multiset(h) == multiset(heap)
  {
    h := heap;
    var i := pos;
    while i > 0
      invariant 0 <= i < |h| == |heap| && multiset(h) == multiset(heap)
      invariant forall j | 1 <= j < |h| && j != i :: Edge(h, j, less)
      invariant forall j | 1 <= j < |h| && Parent(j) == i > 0 :: !less(h[j], h[Parent(i)])
    {
      var p := Parent(i);
      if !less(h[i], h[p]) {
        return;
      }
      SiftUpStep(h, i, less);
      h := Swap(h, i, p);
      i := p;
    }
  }

  function SmallerChild<T(!new)>(h: seq<T>, i: nat, less: (T, T) -> bool): (c: nat)
    requires StrictTotal(less) && 2 * i + 1 < |h|
    ensures 1 <= c < |h| && Parent(c) == i
    ensures forall j | 1 <= j < |h| && Parent(j) == i :: !less(h[j], h[c])
  {
    if 2 * i + 2 < |h| && !less(h[2 * i + 1], h[2 * i + 2]) then 2 * i + 2 else 2 * i + 1
  }

  /** Heap order from pos on, except below i, where i's children still respect i's parent. */
  ghost predicate SiftingDown<T(!new)>(h: seq<T>, pos: nat, i: nat, less: (T, T) -> bool)
    requires i < |h|
  {
    && (forall j | 1 <= j < |h| && Parent(j) >= pos && Parent(j) != i :: Edge(h, j, less))
    && (i >= 1 && Parent(i) >= pos ==> forall j | 1 <= j < |h| && Parent(j) == i :: !less(h[j], h[Parent(i)]))
  }

  lemma SiftDownDone<T(!new)>(h: seq<T>, pos: nat, i: nat, c: nat, less: (T, T) -> bool)
    requires StrictTotal(less) && pos <= i && 1 <= c < |h| && Parent(c) == i
    requires SiftingDown(h, pos, i, less)
    requires forall j | 1 <= j < |h| && Parent(j) == i :: !less(h[j], h[c])
    requires !less(h[c], h[i])
    ensures HeapFrom(h, pos, less)
  {
    forall j | 1 <= j < |h| && Parent(j) == i ensures Edge(h, j, less) {
      assert h[j] == h[c] || less(h[c], h[j]);
    }
  }

  lemma SiftDownStep<T(!new)>(h: seq<T>, pos: nat, i: nat, c: nat, less: (T, T) -> bool)
    requires StrictTotal(less) && pos <= i && 1 <= c < |h| && Parent(c) == i
    requires SiftingDown(h, pos, i, less)
    requires forall j | 1 <= j < |h| && Parent(j) == i :: !less(h[j], h[c])
    requires less(h[c], h[i])
    ensures SiftingDown(Swap(h, i, c), pos, c, less)
  {
    var g := Swap(h, i, c);
    forall j | 1 <= j < |g| && Parent(j) >= pos && Parent(j) != c ensures Edge(g, j, less) {
      if j != i && Parent(j) != i {
        assert Edge(h, j, less);
      }
    }
    forall j | 1 <= j < |g| && Parent(j) == c ensures !less(g[j], g[Parent(c)]) {
      assert Edge(h, j, less);
    }
  }

  method SiftDown<T(!new)>(heap: seq<T>, pos: nat, less: (T, T) -> bool) returns (h: seq<T>)
    requires StrictTotal(less) && pos < |heap|
    requires HeapFrom(heap, pos + 1, less)
    ensures HeapFrom(h, pos, less) && multiset(h) == multiset(heap) && |h| == |heap|
  {
    h := heap;
    var i := pos;
    while 2 * i + 1 < |h|
      invariant pos <= i < |h| == |heap| && multiset(h) == multiset(heap)
      invariant SiftingDown(h, pos, i, less)
      decreases |h| - i
    {
      var c := SmallerChild(h, i, less);
      if !less(h[c], h[i]) {
        SiftDownDone(h, pos, i, c, less);
        return;
      }
      SiftDownStep(h, pos, i, c, less);
      h := Swap(h, i, c);
      i := c;
    }
    assert forall j | 1 <= j < |h| :: Parent(j) != i;
  }

  method Push<T(!new)>(heap: seq<T>, x: T, less: (T, T) -> bool) returns (h: seq<T>)
    requires StrictTotal(less) && IsHeap(heap, less)
    ensures IsHeap(h, less) && multiset(h) == multiset(heap) + multiset{x}
  {
    var extended := heap + [x];
    forall j | 1 <= j < |extended| && j != |heap| ensures Edge(extended, j, less) {
      assert Edge(heap, j, less);
    }
    h := SiftUp(extended, |heap|, less);
  }

  lemma LowerBound<T(!new)>(heap: seq<T>, less: (T, T) -> bool)
    requires StrictTotal(less) && IsHeap(heap, less) && heap != []
    ensures forall y | y in multiset(heap) :: !less(y, heap[0])
  {
    forall y | y in multiset(heap) ensures !less(y, heap[0]) {
      assert y in heap;
      var k :| 0 <= k < |heap| && heap[k] == y;
      RootIsLeast(heap, less, k);
    }
  }

  method Pop<T(!new)>(heap: seq<T>, less: (T, T) -> bool) returns (x: T, h: seq<T>)
    requires StrictTotal(less) && IsHeap(heap, less) && heap != []
    ensures x == heap[0]
    ensures forall y | y in multiset(heap) :: !less(y, x)
    ensures IsHeap(h, less) && multiset(heap) == multiset(h) + multiset{x} && |h| == |heap| - 1
  {
    LowerBound(heap, less);
    x := heap[0];
    var last := heap[|heap| - 1];
    h := heap[..|heap| - 1];
    assert heap == h + [last];
    if h != [] {
      assert h == [x] + h[1..];
      h := [last] + h[1..];
      forall j | 1 <= j < |h| && Parent(j) >= 1 ensures Edge(h, j, less) {
        assert Edge(heap, j, less);
      }
      h := SiftDown(h, 0, less);
    }
  }

  method Heapify<T(!new)>(list: seq<T>, less: (T, T) -> bool) returns (h: seq<T>)
    requires StrictTotal(less)
    ensures IsHeap(h, less) && multiset(h) == multiset(list)
  {
    h := list;
    var i := |list| / 2;
    while i > 0
      invariant 0 <= i <= |list| / 2 && multiset(h) == multiset(list) && |h| == |list|
      invariant HeapFrom(h, i, less)
    {
      i := i - 1;
      h := SiftDown(h, i, less);
    }
  }
}
