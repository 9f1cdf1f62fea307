/** The two kinds of heap the broker keeps: ready entries and delayed entries. */
module EntryHeaps {
  import opened Bags
  import opened Ordering
  import Heap

  ghost predicate ReadyHeap(h: seq<ReadyEntry>) {
    Heap.IsHeap(h, ReadyLess)
  }

  ghost predicate DelayedHeap(h: seq<DelayedEntry>) {
    Heap.IsHeap(h, DelayedLess)
  }

  method PushReady(heap: seq<ReadyEntry>, e: ReadyEntry) returns (h: seq<ReadyEntry>)
    requires ReadyHeap(heap)
    ensures ReadyHeap(h) && Bag(h) == Bag(heap) + multiset{e}
  {
    ReadyTotal();
    h := Heap.Push(heap, e, ReadyLess);
    BagIsMultiset(heap);
    BagIsMultiset(h);
  }

  method PopReady(heap: seq<ReadyEntry>) returns (e: ReadyEntry, h: seq<ReadyEntry>)
    requires ReadyHeap(heap) && heap != []
    ensures ReadyHeap(h) && Bag(heap) == Bag(h) + multiset{e} && |h| == |heap| - 1
  {
    ReadyTotal();
    e, h := Heap.Pop(heap, ReadyLess);
    BagIsMultiset(heap);
    BagIsMultiset(h);
  }

  method HeapifyReady(list: seq<ReadyEntry>) returns (h: seq<ReadyEntry>)
    ensures ReadyHeap(h) && Bag(h) == Bag(list)
  {
    ReadyTotal();
    h := Heap.Heapify(list, ReadyLess);
    BagIsMultiset(list);
    BagIsMultiset(h);
  }

  method PushDelayed(heap: seq<DelayedEntry>, e: DelayedEntry) returns (h: seq<DelayedEntry>)
    requires DelayedHeap(heap)
    ensures DelayedHeap(h) && Bag(h) == Bag(heap) + multiset{e}
  {
    DelayedTotal();
    h := Heap.Push(heap, e, DelayedLess);
    BagIsMultiset(heap);
    BagIsMultiset(h);
  }

  method PopDelayed(heap: seq<DelayedEntry>) returns (e: DelayedEntry, h: seq<DelayedEntry>)
    requires DelayedHeap(heap) && heap != []
    ensures e == heap[0]
    ensures DelayedHeap(h) && Bag(heap) == Bag(h) + multiset{e} && |h| == |heap| - 1
  {
    DelayedTotal();
    e, h := Heap.Pop(heap, DelayedLess);
    BagIsMultiset(heap);
    BagIsMultiset(h);
  }

  /** Nothing in a delayed heap is due before its root. */
  lemma RootIsEarliest(heap: seq<DelayedEntry>)
    requires DelayedHeap(heap) && heap != []
    ensures forall e | e in Bag(heap) :: heap[0].availableAt <= e.availableAt
  {
    DelayedTotal();
    Heap.LowerBound(heap, DelayedLess);
    BagIsMultiset(heap);
  }
}
