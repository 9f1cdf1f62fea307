/** The heaps of the broker, `_ready` and `_delayed`, as values, and what of a broker they hold. */
module ReadyHeaps {
  import opened Models
  import opened Ordering
  import opened Bags
  import opened EntryHeaps
  import B = BrokerModel

  type Heaps = map<string, seq<ReadyEntry>>

  /** The heap a defaultdict lookup yields. */
  function HeapOf(heaps: Heaps, q: string): seq<ReadyEntry> {
    if q in heaps then heaps[q] else []
  }

  /** Every entry of a heap belongs to a task of that heap's queue. */
  ghost predicate Placed(heap: seq<ReadyEntry>, q: string, table: map<string, Task>) {
    forall e | e in Bag(heap) :: e.id in table && table[e.id].spec.queue == q
  }

  ghost predicate HeapOk(heaps: Heaps, table: map<string, Task>, q: string) {
    ReadyHeap(HeapOf(heaps, q)) && Placed(HeapOf(heaps, q), q, table)
  }

  /** The pool holds e as often as the only heap that may contain it: that of its task's queue. */
  ghost predicate Counted(heaps: Heaps, table: map<string, Task>, pool: multiset<ReadyEntry>, e: ReadyEntry) {
    pool[e] == if e.id in table then Bag(HeapOf(heaps, table[e.id].spec.queue))[e] else 0
  }

  /** The ready heaps are heaps of their own queues' entries, and pool is what they hold together. */
  ghost predicate ReadyOk(heaps: Heaps, table: map<string, Task>, pool: multiset<ReadyEntry>) {
    (forall q :: HeapOk(heaps, table, q)) && (forall e :: Counted(heaps, table, pool, e))
  }

  /** Every occurrence in one heap is an occurrence in the pool. */
  lemma HeapInPool(heaps: Heaps, table: map<string, Task>, pool: multiset<ReadyEntry>, q: string)
    requires ReadyOk(heaps, table, pool)
    ensures Bag(HeapOf(heaps, q)) <= pool
    ensures forall e | e in Bag(HeapOf(heaps, q)) :: pool[e] == Bag(HeapOf(heaps, q))[e]
  {
    forall e ensures Bag(HeapOf(heaps, q))[e] <= pool[e]
             ensures e in Bag(HeapOf(heaps, q)) ==> pool[e] == Bag(HeapOf(heaps, q))[e]
    {
      assert HeapOk(heaps, table, q);
      assert Counted(heaps, table, pool, e);
    }
  }

  /** Where an entry can be: in the heap of its task's queue only. */
  lemma NotPlaced(heap: seq<ReadyEntry>, q: string, table: map<string, Task>, e: ReadyEntry)
    requires Placed(heap, q, table) && (e.id !in table || table[e.id].spec.queue != q)
    ensures Bag(heap)[e] == 0
  {
  }

  lemma CountedReplace(heaps: Heaps, table: map<string, Task>, pool: multiset<ReadyEntry>, q: string,
                       h: seq<ReadyEntry>, pool': multiset<ReadyEntry>, e: ReadyEntry)
    requires Placed(HeapOf(heaps, q), q, table) && Placed(h, q, table) && Counted(heaps, table, pool, e)
    requires pool'[e] + Bag(HeapOf(heaps, q))[e] == pool[e] + Bag(h)[e]
    ensures Counted(heaps[q := h], table, pool', e)
  {
    if e.id in table && table[e.id].spec.queue == q {
      assert HeapOf(heaps[q := h], q) == h;
    } else {
      NotPlaced(HeapOf(heaps, q), q, table, e);
      NotPlaced(h, q, table, e);
    }
  }

  lemma SumAt<T>(a: multiset<T>, b: multiset<T>, c: multiset<T>, d: multiset<T>, e: T)
    requires a + b == c + d
    ensures a[e] + b[e] == c[e] + d[e]
  {
    assert (a + b)[e] == (c + d)[e];
  }

  /** Replacing one heap replaces its contents in the pool. */
  lemma ReadyOkReplace(heaps: Heaps, table: map<string, Task>, pool: multiset<ReadyEntry>, q: string,
                       h: seq<ReadyEntry>, pool': multiset<ReadyEntry>)
    requires ReadyOk(heaps, table, pool) && ReadyHeap(h) && Placed(h, q, table)
    requires pool' + Bag(HeapOf(heaps, q)) == pool + Bag(h)
    ensures ReadyOk(heaps[q := h], table, pool')
  {
    var heaps' := heaps[q := h];
    assert HeapOk(heaps, table, q);
    forall p ensures HeapOk(heaps', table, p) {
      assert HeapOk(heaps, table, p);
      assert HeapOf(heaps', p) == if p == q then h else HeapOf(heaps, p);
    }
    forall e ensures Counted(heaps', table, pool', e) {
      assert Counted(heaps, table, pool, e);
      SumAt(pool', Bag(HeapOf(heaps, q)), pool, Bag(h), e);
      CountedReplace(heaps, table, pool, q, h, pool', e);
    }
  }

  /** The heaps stay in order when tasks are added or change fields other than their queue. */
  lemma ReadyOkGrow(heaps: Heaps, table: map<string, Task>, pool: multiset<ReadyEntry>, table': map<string, Task>)
    requires ReadyOk(heaps, table, pool)
    requires forall id | id in table :: id in table' && table'[id].spec.queue == table[id].spec.queue
    ensures ReadyOk(heaps, table', pool)
  {
    forall q ensures HeapOk(heaps, table', q) {
      assert HeapOk(heaps, table, q);
    }
    forall e ensures Counted(heaps, table', pool, e) {
      assert Counted(heaps, table, pool, e);
      if e.id in table' {
        assert HeapOk(heaps, table, table'[e.id].spec.queue);
      }
    }
  }

  /** heappush onto the ready heap of queue q. */
  method Add(heaps: Heaps, ghost table: map<string, Task>, ghost pool: multiset<ReadyEntry>, q: string, e: ReadyEntry)
    returns (heaps': Heaps)
    requires ReadyOk(heaps, table, pool) && e.id in table && table[e.id].spec.queue == q
    ensures ReadyOk(heaps', table, pool + multiset{e})
  {
    assert HeapOk(heaps, table, q);
    var h := PushReady(HeapOf(heaps, q), e);
    ReadyOkReplace(heaps, table, pool, q, h, pool + multiset{e});
    heaps' := heaps[q := h];
  }

  /** The delayed heap holds the delayed entries, all of known tasks. */
  ghost predicate DelayedOk(delayed: seq<DelayedEntry>, b: B.Broker) {
    DelayedHeap(delayed) && Bag(delayed) == b.delayed && forall e | e in b.delayed :: e.id in b.tasks
  }

  /** The heaps hold what broker b has ready and delayed. */
  ghost predicate Holds(ready: Heaps, delayed: seq<DelayedEntry>, b: B.Broker) {
    ReadyOk(ready, b.tasks, b.ready) && DelayedOk(delayed, b)
  }

  /** A ready entry is in the heap of its own task's queue and in no other; a delayed one is in the delayed heap. */
  lemma EntryInOwnHeap(ready: Heaps, delayed: seq<DelayedEntry>, b: B.Broker, e: ReadyEntry, d: DelayedEntry, q: string)
    requires Holds(ready, delayed, b)
    ensures e in HeapOf(ready, q) <==> e in b.ready && e.id in b.tasks && b.tasks[e.id].spec.queue == q
    ensures d in delayed <==> d in b.delayed
  {
    var heap := HeapOf(ready, q);
    assert HeapOk(ready, b.tasks, q);
    assert Counted(ready, b.tasks, b.ready, e);
    BagIsMultiset(heap);
    BagIsMultiset(delayed);
    hide Bag;
    assert e in heap <==> e in Bag(heap);
    assert d in delayed <==> d in Bag(delayed);
    if e.id !in b.tasks || b.tasks[e.id].spec.queue != q {
      NotPlaced(heap, q, b.tasks, e);
    }
  }

  /** The heap part of `_push`, for a task whose entry gets sequence number n. */
  method PushTask(ready: Heaps, delayed: seq<DelayedEntry>, ghost b: B.Broker, id: string, task: Task, n: nat, now: real)
    returns (ready': Heaps, delayed': seq<DelayedEntry>)
    requires Holds(ready, delayed, b) && id in b.tasks && b.tasks[id] == task && n == b.sequence + 1
    ensures Holds(ready', delayed', B.Push(b, id, now))
  {
    ready', delayed' := ready, delayed;
    if task.availableAt > now {
      delayed' := PushDelayed(delayed, DelayedEntry(task.availableAt, n, id));
    } else {
      ready' := Add(ready, b.tasks, b.ready, task.spec.queue, ReadyEntry(task.spec.priority, task.createdAt, n, id));
    }
  }

  /** The heaps hold a broker that differs only in its tables, if no task changes its queue. */
  lemma HoldsGrow(ready: Heaps, delayed: seq<DelayedEntry>, b: B.Broker, b': B.Broker)
    requires Holds(ready, delayed, b) && b'.ready == b.ready && b'.delayed == b.delayed
    requires forall id | id in b.tasks :: id in b'.tasks && b'.tasks[id].spec.queue == b.tasks[id].spec.queue
    ensures Holds(ready, delayed, b')
  {
    ReadyOkGrow(ready, b.tasks, b.ready, b'.tasks);
  }

  /** heappop of the delayed heap inside the promotion loop. */
  method TakeEarliest(ready: Heaps, delayed: seq<DelayedEntry>, ghost b: B.Broker, ghost taken: multiset<DelayedEntry>)
    returns (e: DelayedEntry, delayed': seq<DelayedEntry>)
    requires taken <= b.delayed && Holds(ready, delayed, B.PartlyPromoted(b, taken)) && delayed != []
    ensures e == delayed[0] && taken + multiset{e} <= b.delayed && e.id in b.tasks && |delayed'| == |delayed| - 1
    ensures Holds(ready, delayed', B.PartlyPromoted(b, taken).(delayed := b.delayed - (taken + multiset{e})))
  {
    e, delayed' := PopDelayed(delayed);
    TakeRest(b.delayed, taken, Bag(delayed'), e);
  }

  /** The rest of the promotion loop's body: a live task's entry goes to its ready heap. */
  method PlaceDue(ready: Heaps, delayed: seq<DelayedEntry>, ghost b: B.Broker, ghost taken: multiset<DelayedEntry>,
                  e: DelayedEntry, live: bool, q: string, entry: ReadyEntry)
    returns (ready': Heaps)
    requires taken + multiset{e} <= b.delayed && e.id in b.tasks && live == B.Promotable(b.tasks, e.id)
    requires live ==> entry == B.ReadyOf(b.tasks, e.id, b.sequence) && q == b.tasks[e.id].spec.queue
    requires Holds(ready, delayed, B.PartlyPromoted(b, taken).(delayed := b.delayed - (taken + multiset{e})))
    ensures Holds(ready', delayed, B.PartlyPromoted(b, taken + multiset{e}))
  {
    B.PromoteOneMore(b, taken, e);
    ready' := ready;
    if live {
      ready' := Add(ready, b.tasks, B.PartlyPromoted(b, taken).ready, q, entry);
    }
  }

  /** The early stop: when the root is not due, nothing in the delayed heap is. */
  lemma NoneDue(ready: Heaps, delayed: seq<DelayedEntry>, b: B.Broker, now: real)
    requires Holds(ready, delayed, b) && (delayed == [] || delayed[0].availableAt > now)
    ensures forall e | e in b.delayed :: e.availableAt > now
  {
    if delayed != [] {
      RootIsEarliest(delayed);
    }
  }

  lemma DropAt(b: B.Broker, q: string, was: seq<ReadyEntry>, kept: seq<ReadyEntry>, e: ReadyEntry)
    requires Placed(was, q, b.tasks)
    requires e.id in b.tasks && b.tasks[e.id].spec.queue == q ==> b.ready[e] == Bag(was)[e]
    requires Bag(kept)[e] == if e.id in b.cancelled then 0 else Bag(was)[e]
    ensures B.DropCancelled(b, {q}).ready[e] + Bag(was)[e] == b.ready[e] + Bag(kept)[e]
  {
    if e.id !in b.tasks || b.tasks[e.id].spec.queue != q {
      NotPlaced(was, q, b.tasks, e);
      assert e.id !in B.Doomed(b, {q});
    }
    assert B.Dropped(b, {q})[e] == if e.id in B.Doomed(b, {q}) then b.ready[e] else 0;
  }

  /** The heap part of discarding the cancelled entries of queue q. */
  lemma HoldsDrop(ready: Heaps, delayed: seq<DelayedEntry>, b: B.Broker, q: string, kept: seq<ReadyEntry>)
    requires Holds(ready, delayed, b) && ReadyHeap(kept)
    requires forall e :: Bag(kept)[e] == if e.id in b.cancelled then 0 else Bag(HeapOf(ready, q))[e]
    ensures Holds(ready[q := kept], delayed, B.DropCancelled(b, {q}))
  {
    var was, d := HeapOf(ready, q), B.DropCancelled(b, {q});
    assert HeapOk(ready, b.tasks, q);
    forall e ensures (d.ready + Bag(was))[e] == (b.ready + Bag(kept))[e] {
      assert Counted(ready, b.tasks, b.ready, e);
      DropAt(b, q, was, kept, e);
    }
    assert Placed(kept, q, b.tasks) by {
      assert forall e | e in Bag(kept) :: e in Bag(was);
    }
    ReadyOkReplace(ready, b.tasks, b.ready, q, kept, d.ready);
  }

  /** Discarding changes nothing where there is nothing to discard. */
  lemma HoldsDropEmpty(ready: Heaps, delayed: seq<DelayedEntry>, b: B.Broker, q: string)
    requires Holds(ready, delayed, b) && HeapOf(ready, q) == []
    ensures B.DropCancelled(b, {q}) == b
  {
    forall e ensures B.Dropped(b, {q})[e] == 0 {
      assert Counted(ready, b.tasks, b.ready, e);
    }
    assert B.Dropped(b, {q}) == multiset{};
  }

  /** `list.remove`: the list without the first occurrence of e. */
  method RemoveFirst(list: seq<ReadyEntry>, e: ReadyEntry) returns (rest: seq<ReadyEntry>)
    requires e in multiset(list)
    ensures multiset(rest) + multiset{e} == multiset(list)
  {
    var i := 0;
    while list[i] != e
      invariant 0 <= i < |list| && e in list[i..]
      decreases |list| - i
    {
      i := i + 1;
    }
    rest := list[..i] + list[i + 1..];
    assert list == list[..i] + [e] + list[i + 1..];
  }

  /** list.remove followed by heapify, on the heap of queue q. */
  method Remove(heaps: Heaps, ghost table: map<string, Task>, ghost pool: multiset<ReadyEntry>, q: string, e: ReadyEntry)
    returns (heaps': Heaps)
    requires ReadyOk(heaps, table, pool) && e in pool && e.id in table && table[e.id].spec.queue == q
    ensures ReadyOk(heaps', table, pool - multiset{e})
  {
    assert Counted(heaps, table, pool, e) && HeapOk(heaps, table, q);
    var was := heaps[q];
    BagIsMultiset(was);
    var rest := RemoveFirst(was, e);
    var h := HeapifyReady(rest);
    BagIsMultiset(rest);
    ReadyOkReplace(heaps, table, pool, q, h, pool - multiset{e});
    heaps' := heaps[q := h];
  }

  /** The same, inside a broker. */
  method RemoveEntry(ready: Heaps, delayed: seq<DelayedEntry>, ghost d: B.Broker, q: string, e: ReadyEntry)
    returns (ready': Heaps)
    requires Holds(ready, delayed, d) && e in d.ready && e.id in d.tasks && d.tasks[e.id].spec.queue == q
    ensures Holds(ready', delayed, d.(ready := d.ready - multiset{e}))
  {
    ready' := Remove(ready, d.tasks, d.ready, q, e);
  }

  /** The entries among the candidates. */
  ghost function Found(candidates: seq<(ReadyEntry, string)>): set<ReadyEntry> {
    set c | c in candidates :: c.0
  }

  /** `min` over the candidates. */
  method MinCandidate(candidates: seq<(ReadyEntry, string)>) returns (best: ReadyEntry, q: string)
    requires candidates != []
    ensures (best, q) in candidates
    ensures IsLeast(best, Found(candidates))
  {
    ReadyTotal();
    var k := 0;
    for i := 1 to |candidates|
      invariant 0 <= k < |candidates|
      invariant forall j | 0 <= j < i && candidates[j].0 != candidates[k].0 ::
                  ReadyLess(candidates[k].0, candidates[j].0)
    {
      if ReadyLess(candidates[i].0, candidates[k].0) {
        k := i;
      }
    }
    best, q := candidates[k].0, candidates[k].1;
  }

  // ---------- The scan of one heap ----------

  /** The retained list holds what was seen and is not cancelled. */
  ghost predicate Retained(retained: seq<ReadyEntry>, seen: multiset<ReadyEntry>, cancelled: set<string>) {
    forall e :: multiset(retained)[e] == if e.id in cancelled then 0 else seen[e]
  }

  lemma RetainedMore(retained: seq<ReadyEntry>, seen: multiset<ReadyEntry>, cancelled: set<string>, x: ReadyEntry)
    requires Retained(retained, seen, cancelled)
    ensures Retained(if x.id in cancelled then retained else retained + [x], seen + multiset{x}, cancelled)
  {
    assert multiset(retained + [x]) == multiset(retained) + multiset{x};
  }

  /** The found list holds exactly the entries seen that the worker may take. */
  ghost predicate FoundIn(found: seq<ReadyEntry>, seen: multiset<ReadyEntry>, b: B.Broker, w: WorkerInfo, completed: set<string>) {
    forall e :: e in found <==> e in seen && B.CanTake(b, w, completed, e.id)
  }

  lemma FoundMore(found: seq<ReadyEntry>, seen: multiset<ReadyEntry>, b: B.Broker, w: WorkerInfo, completed: set<string>,
                  x: ReadyEntry)
    requires FoundIn(found, seen, b, w, completed)
    ensures FoundIn(if B.CanTake(b, w, completed, x.id) then found + [x] else found, seen + multiset{x}, b, w, completed)
  {
  }

  /** Pushing the retained entries back. */
  method Refill(retained: seq<ReadyEntry>) returns (heap: seq<ReadyEntry>)
    ensures ReadyHeap(heap) && Bag(heap) == multiset(retained)
  {
    heap := [];
    for i := 0 to |retained|
      invariant ReadyHeap(heap) && Bag(heap) == Bag(retained[..i])
    {
      heap := PushReady(heap, retained[i]);
      assert retained[..i + 1][..i] == retained[..i];
    }
    assert retained[..|retained|] == retained;
    BagIsMultiset(retained);
  }

  // ---------- The scan of the worker's queues ----------

  /** The candidates are the entries of the scanned queues that the worker may take, with their queues. */
  ghost predicate CandidatesOk(candidates: seq<(ReadyEntry, string)>, b: B.Broker, w: WorkerInfo, completed: set<string>,
                               scanned: set<string>)
  {
    && Found(candidates) == B.EligibleIn(b, w, completed, scanned)
    && forall c | c in candidates :: c.0.id in b.tasks && c.1 == b.tasks[c.0.id].spec.queue
  }

  /** A candidate list element: the entry and the name of the queue it came from. */
  function Tag(found: seq<ReadyEntry>, q: string): (r: seq<(ReadyEntry, string)>)
    ensures forall c :: c in r <==> c.0 in found && c.1 == q
  {
    if found == [] then [] else Tag(found[..|found| - 1], q) + [(found[|found| - 1], q)]
  }

  /** A heap that holds entries of broker d can be scanned. */
  lemma HeapUsable(ready: Heaps, delayed: seq<DelayedEntry>, d: B.Broker, q: string)
    requires Holds(ready, delayed, d)
    ensures ReadyHeap(HeapOf(ready, q))
    ensures forall e | e in Bag(HeapOf(ready, q)) :: e.id in d.tasks && d.tasks[e.id].spec.queue == q && e in d.ready
    ensures forall e | e in d.ready && e.id in d.tasks && d.tasks[e.id].spec.queue == q :: e in Bag(HeapOf(ready, q))
  {
    assert HeapOk(ready, d.tasks, q);
    HeapInPool(ready, d.tasks, d.ready, q);
    forall e | e in d.ready && e.id in d.tasks && d.tasks[e.id].spec.queue == q ensures e in Bag(HeapOf(ready, q)) {
      assert Counted(ready, d.tasks, d.ready, e);
    }
  }

  lemma FoundUnion(candidates: seq<(ReadyEntry, string)>, found: seq<ReadyEntry>, q: string)
    ensures forall e :: e in Found(candidates + Tag(found, q)) <==> e in Found(candidates) || e in found
  {
    var more := candidates + Tag(found, q);
    forall e ensures e in Found(more) <==> e in Found(candidates) || e in found {
      if e in found {
        assert (e, q) in more;
      }
      if e in Found(candidates) {
        var c :| c in candidates && c.0 == e;
        assert c in more;
      }
    }
  }

  /** Scanning queue q after `scanned` adds what the worker may take there. */
  lemma {:induction false} CandidatesMore(ready: Heaps, delayed: seq<DelayedEntry>, b: B.Broker, w: WorkerInfo, completed: set<string>,
                       scanned: set<string>, candidates: seq<(ReadyEntry, string)>, q: string, found: seq<ReadyEntry>)
    requires Holds(ready, delayed, B.DropCancelled(b, scanned)) && CandidatesOk(candidates, b, w, completed, scanned)
    requires forall e :: e in found <==> e in Bag(HeapOf(ready, q)) && B.CanTake(b, w, completed, e.id)
    ensures CandidatesOk(candidates + Tag(found, q), b, w, completed, scanned + {q})
  {
    var d, more := B.DropCancelled(b, scanned), candidates + Tag(found, q);
    HeapUsable(ready, delayed, d, q);
    FoundUnion(candidates, found, q);
    forall e ensures e in Found(more) <==> e in B.EligibleIn(b, w, completed, scanned + {q}) {
      assert e in d.ready <==> e in b.ready && e.id !in B.Doomed(b, scanned);
    }
  }

  // ---------- Counting ----------

  lemma DropHeap(heaps: Heaps, table: map<string, Task>, pool: multiset<ReadyEntry>, q: string)
    requires ReadyOk(heaps, table, pool) && q in heaps
    ensures Bag(heaps[q]) <= pool
    ensures ReadyOk(heaps - {q}, table, pool - Bag(heaps[q]))
  {
    HeapInPool(heaps, table, pool, q);
    assert HeapOk(heaps, table, q);
    var heaps', pool' := heaps - {q}, pool - Bag(heaps[q]);
    forall p ensures HeapOk(heaps', table, p) {
      assert HeapOk(heaps, table, p);
      assert HeapOf(heaps', p) == if p == q then [] else HeapOf(heaps, p);
    }
    forall e ensures Counted(heaps', table, pool', e) {
      assert Counted(heaps, table, pool, e);
      if e.id !in table || table[e.id].spec.queue != q {
        NotPlaced(heaps[q], q, table, e);
      }
    }
  }

  /** `sum(len(queue) for queue in self._ready.values())`: the number of ready entries. */
  method CountReady(heaps: Heaps, ghost table: map<string, Task>, ghost pool: multiset<ReadyEntry>) returns (n: nat)
    requires ReadyOk(heaps, table, pool)
    ensures n == |pool|
  {
    n := 0;
    var h := heaps;
    ghost var rest := pool;
    while h != map[]
      invariant ReadyOk(h, table, rest) && n + |rest| == |pool|
      decreases |h|
    {
      var q :| q in h;
      DropHeap(h, table, rest, q);
      BagIsMultiset(h[q]);
      n := n + |h[q]|;
      rest := rest - Bag(h[q]);
      h := h - {q};
    }
    forall e ensures rest[e] == 0 {
      assert Counted(h, table, rest, e);
    }
    assert rest == multiset{};
  }
}
