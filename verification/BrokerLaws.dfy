/** What single operations of the broker achieve, stated without reference to how they work. */
module BrokerLaws {
  import opened Models
  import opened Ordering
  import opened Bags
  import opened BrokerRuns
  import opened RunInvariants
  import opened Discipline
  import opened Operations
  import B = BrokerModel

  // ---------- Promotion ----------

  /** After a promotion nothing delayed is due, and what left the delayed heap is exactly what was due. */
  lemma PromotionEmptiesDue(b: B.Broker, now: real, e: DelayedEntry)
    ensures B.Promote(b, now).delayed[e] == if e.availableAt <= now then 0 else b.delayed[e]
  {
    assert B.DueEntries(b, now)[e] == if e.availableAt <= now then b.delayed[e] else 0;
  }

  /** The entries that moved are the due ones whose task is neither cancelled nor dead-lettered. */
  lemma PromotionMovesLive(b: B.Broker, now: real, e: DelayedEntry)
    requires WellFormed(b) && e in b.delayed
    ensures B.Moved(b, now)[e] ==
            if e.availableAt <= now && !b.tasks[e.id].status.Cancelled? && !b.tasks[e.id].status.DeadLettered?
            then b.delayed[e] else 0
  {
    assert B.DueEntries(b, now)[e] == if e.availableAt <= now then b.delayed[e] else 0;
  }

  lemma MovedIsDue(b: B.Broker, now: real, d: DelayedEntry)
    requires d in B.Moved(b, now)
    ensures d in b.delayed && d.availableAt <= now && B.Promotable(b.tasks, d.id)
  {
    assert d in B.DueEntries(b, now);
  }

  lemma MovedWithin(b: B.Broker, now: real)
    ensures B.Moved(b, now) <= B.DueEntries(b, now) <= b.delayed
  {
  }

  /** What arrives in the ready heaps is a due entry of a live task, with that task's own order keys. */
  lemma {:induction false} PromotionArrivals(b: B.Broker, now: real, e: ReadyEntry)
    requires WellFormed(b) && B.Promote(b, now).ready[e] != b.ready[e]
    ensures B.Promote(b, now).ready[e] > b.ready[e]
    ensures e.id in b.tasks && e == B.ReadyOf(b.tasks, e.id, b.sequence)
    ensures exists d :: d in b.delayed && d.id == e.id && d.availableAt <= now && B.Promotable(b.tasks, d.id)
  {
    hide Filter;
    var moved, f := B.Moved(b, now), B.ToReady(b.tasks, b.sequence);
    ImageMember(moved, f, e);
    MovedWithin(b, now);
    hide Image;
    var d :| d in moved && f(d) == e;
    MovedIsDue(b, now, d);
  }

  lemma SplitByTime(b: B.Broker, t1: real, t2: real)
    requires t1 <= t2
    ensures var c := B.Promote(b, t1);
            && B.Moved(b, t2) == B.Moved(b, t1) + B.Moved(c, t2)
            && c.delayed - B.DueEntries(c, t2) == b.delayed - B.DueEntries(b, t2)
  {
    hide Image;
    var c := B.Promote(b, t1);
    forall e ensures B.Moved(b, t2)[e] == B.Moved(b, t1)[e] + B.Moved(c, t2)[e]
             ensures (c.delayed - B.DueEntries(c, t2))[e] == (b.delayed - B.DueEntries(b, t2))[e]
    {
      assert B.DueEntries(b, t1)[e] == if e.availableAt <= t1 then b.delayed[e] else 0;
      assert B.DueEntries(b, t2)[e] == if e.availableAt <= t2 then b.delayed[e] else 0;
      assert B.DueEntries(c, t2)[e] == if e.availableAt <= t2 then c.delayed[e] else 0;
    }
  }

  /** Promoting at an earlier time first makes no difference. */
  lemma {:induction false} PromotionAbsorbs(b: B.Broker, t1: real, t2: real)
    requires t1 <= t2
    ensures B.Promote(B.Promote(b, t1), t2) == B.Promote(b, t2)
  {
    hide Image;
    var c := B.Promote(b, t1);
    var f := B.ToReady(b.tasks, b.sequence);
    SplitByTime(b, t1, t2);
    ImageUnion(B.Moved(b, t1), B.Moved(c, t2), f);
    Regroup(b.ready, Image(B.Moved(b, t1), f), Image(B.Moved(c, t2), f));
    hide Filter, B.Moved, B.DueEntries;
    assert c.delayed - B.DueEntries(c, t2) == b.delayed - B.DueEntries(b, t2);
  }

  // ---------- Selection ----------

  /** An entry that may be handed to w: its task is not cancelled, suits the worker, and waits for nothing. */
  ghost predicate Takeable(b: B.Broker, w: WorkerInfo, completed: set<string>, e: ReadyEntry) {
    && e in b.ready && e.id in b.tasks && e.id !in b.cancelled
    && Suits(w, b.tasks[e.id].spec)
    && b.tasks[e.id].spec.dependsOn <= completed
  }

  lemma EligibleIsTakeable(b: B.Broker, w: WorkerInfo, completed: set<string>, e: ReadyEntry)
    ensures e in B.Eligible(b, w, completed) <==> Takeable(b, w, completed, e)
  {
    hide Suits;
    if e.id in b.tasks {
      AcceptsWhatSuits(w, b.tasks[e.id].spec);
    }
  }

  /** Nothing is returned exactly when nothing can be taken. */
  lemma SelectionFindsWork(b: B.Broker, w: WorkerInfo, completed: set<string>)
    ensures B.PopEligible(b, w, completed).1.None? <==> !exists e :: Takeable(b, w, completed, e)
  {
    hide Filter, Takeable, B.Eligible;
    B.ScanFindsEligible(b, w, completed);
    forall e ensures e in B.Eligible(b, w, completed) <==> Takeable(b, w, completed, e) {
      EligibleIsTakeable(b, w, completed, e);
    }
  }

  /** The order of selection: priority, then creation time, then sequence number, then id by code points. */
  ghost predicate ComesBefore(a: ReadyEntry, c: ReadyEntry) {
    a.priority <= c.priority && (a.priority == c.priority ==>
      a.createdAt <= c.createdAt && (a.createdAt == c.createdAt ==>
        a.seqNo <= c.seqNo && (a.seqNo == c.seqNo ==>
          exists k :: 0 <= k < |c.id| && k <= |a.id| && a.id[..k] == c.id[..k] && (k == |a.id| || a.id[k] < c.id[k]))))
  }

  lemma LessComesBefore(a: ReadyEntry, c: ReadyEntry)
    requires ReadyLess(a, c)
    ensures ComesBefore(a, c)
  {
    StrLessDecides(a.id, c.id);
  }

  /** What is returned is the id of the first takeable entry, and one occurrence of it is removed. */
  lemma SelectionTakesLeast(b: B.Broker, w: WorkerInfo, completed: set<string>) returns (best: ReadyEntry)
    requires B.PopEligible(b, w, completed).1.Some?
    ensures Takeable(b, w, completed, best) && B.PopEligible(b, w, completed).1.value == best.id
    ensures forall e | Takeable(b, w, completed, e) && e != best :: ComesBefore(best, e)
    ensures B.PopEligible(b, w, completed).0.ready == B.DropCancelled(b, w.queues).ready - multiset{best}
  {
    hide Filter, Takeable, ReadyLess, ComesBefore;
    var eligible := B.Eligible(B.DropCancelled(b, w.queues), w, completed);
    best := Least(eligible);
    B.ScanFindsEligible(b, w, completed);
    EligibleIsTakeable(b, w, completed, best);
    forall e | Takeable(b, w, completed, e) && e != best ensures ComesBefore(best, e) {
      EligibleIsTakeable(b, w, completed, e);
      LessComesBefore(best, e);
    }
    hide B.DropCancelled, B.Dropped, B.Eligible;
  }

  lemma DroppedAre(b: B.Broker, queues: set<string>)
    ensures forall e: ReadyEntry :: B.DropCancelled(b, queues).ready[e] == if e.id in B.Doomed(b, queues) then 0 else b.ready[e]
  {
    assert forall e: ReadyEntry :: B.Dropped(b, queues)[e] == if e.id in B.Doomed(b, queues) then b.ready[e] else 0;
  }

  /** Every entry of a task that was not cancelled stays, but for one taken; cancelled ones leave the scanned queues. */
  lemma SelectionKeepsOthers(b: B.Broker, w: WorkerInfo, completed: set<string>, e: ReadyEntry) returns (best: ReadyEntry)
    ensures var (b', r) := B.PopEligible(b, w, completed);
            && (r.Some? ==> r.value == best.id)
            && (e.id !in b.cancelled ==> b'.ready[e] + (if r.Some? && e == best then 1 else 0) == b.ready[e])
            && (e.id in b.cancelled && e.id in b.tasks ==>
                b'.ready[e] == if b.tasks[e.id].spec.queue in w.queues then 0 else b.ready[e])
  {
    DroppedAre(b, w.queues);
    if B.PopEligible(b, w, completed).1.Some? {
      best := SelectionTakesLeast(b, w, completed);
      hide B.DropCancelled, B.PopEligible;
      assert best.id !in b.cancelled;
    } else {
      best := e;
    }
  }

  // ---------- Retry ----------

  /** A retry queues the task again exactly when attempts are left; otherwise it dead-letters it and pushes nothing. */
  lemma RetryQueuesWhileAttemptsLast(b: B.Broker, id: string, reason: string, t0: real, t1: real)
    requires id in b.tasks
    ensures var b' := B.Retry(b, id, reason, t0, t1);
            var left := b.tasks[id].attempts < b.tasks[id].spec.maxRetries;
            && id in b'.tasks
            && b'.tasks[id].attempts == b.tasks[id].attempts + 1
            && b'.tasks[id].status == (if left then Retrying else DeadLettered)
            && B.Entries(b') == B.Entries(b) + (if left then multiset{id} else multiset{})
            && (!left ==> id in b'.deadLetter)
            && id !in b'.inflight
  {
    var task := B.Retried(b.tasks[id], reason, t0);
    var c := b.(tasks := b.tasks[id := task], inflight := b.inflight - {id});
    hide Image;
    if task.status.DeadLettered? {
      assert B.Entries(c) + multiset{} == B.Entries(b);
    } else {
      PushAdds(c, id, t1);
      B.PushKeeps(c, id, t1);
      assert B.Entries(c) == B.Entries(b);
      hide B.Push, B.Entries;
    }
  }

  lemma {:induction false} SpentKept(h: Hist, ev: Event, id: string)
    requires id in h.b.tasks && h.b.tasks[id].attempts >= h.b.tasks[id].spec.maxRetries
    ensures id in Next(h, ev).b.tasks
    ensures Next(h, ev).b.tasks[id].attempts >= Next(h, ev).b.tasks[id].spec.maxRetries
  {
    hide Apply, Record, Revives;
    if Legal(h.b, ev) {
      if id in Target(ev) {
        HeapPartKeepsTables(h.b, ev);
      } else {
        OthersUntouched(h.b, ev, id);
      }
    }
  }

  /** A task whose attempts are spent is dead-lettered again by every later retry, manual or not. */
  lemma {:induction false} SpentStaysSpent(h: Hist, id: string, evs: seq<Event>, reason: string, t0: real, t1: real)
    requires id in h.b.tasks && h.b.tasks[id].attempts >= h.b.tasks[id].spec.maxRetries
    ensures var b := After(h, evs).b;
            && id in b.tasks && b.tasks[id].attempts >= b.tasks[id].spec.maxRetries
            && B.Retry(b, id, reason, t0, t1).tasks[id].status.DeadLettered?
            && B.Entries(B.Retry(b, id, reason, t0, t1)) == B.Entries(b)
  {
    hide Image;
    if evs == [] {
      RetryQueuesWhileAttemptsLast(h.b, id, reason, t0, t1);
      assert B.Entries(h.b) + multiset{} == B.Entries(h.b);
    } else {
      var g, ev := After(h, evs[..|evs| - 1]), evs[|evs| - 1];
      SpentStaysSpent(h, id, evs[..|evs| - 1], reason, t0, t1);
      SpentKept(g, ev, id);
      RetryQueuesWhileAttemptsLast(Next(g, ev).b, id, reason, t0, t1);
      hide Next, B.Entries, B.Retry;
      assert B.Entries(Next(g, ev).b) + multiset{} == B.Entries(Next(g, ev).b);
    }
  }

  // ---------- Batch submission ----------

  lemma SubmitRaisesDepth(b: B.Broker, s: B.Submission)
    requires IsNew(b, s) && B.Depth(b) < b.maxDepth
    ensures var b' := B.Submit(b, s.id, s.task, s.t0, s.t1).0;
            B.Depth(b') == B.Depth(b) + 1 && b'.maxDepth == b.maxDepth && b'.sequence == b.sequence + 1
  {
    var c := b.(tasks := b.tasks[s.id := B.Enqueued(s.task, s.t0)]);
    B.PushKeeps(c, s.id, s.t1);
    assert B.Active(c) == B.Active(b) + {s.id};
    hide B.Push;
  }

  /** The ids of a batch, in no order. */
  ghost function IdsOf(batch: seq<B.Submission>): multiset<string> {
    if batch == [] then multiset{} else IdsOf(batch[..|batch| - 1]) + multiset{batch[|batch| - 1].id}
  }

  ghost predicate InBatch(batch: seq<B.Submission>, id: string) {
    exists i | 0 <= i < |batch| :: batch[i].id == id
  }

  lemma SubmitIfRoom(b: B.Broker, s: B.Submission)
    ensures B.Submit(b, s.id, s.task, s.t0, s.t1).1 <==> B.Depth(b) < b.maxDepth
    ensures B.Depth(b) >= b.maxDepth ==> B.Submit(b, s.id, s.task, s.t0, s.t1).0 == b
  {
  }

  /** When a submitted task is due: its delay, if it has one, after the first clock reading. */
  ghost function DueAt(s: B.Submission): real {
    if s.task.spec.delaySeconds > 0.0 then s.t0 + s.task.spec.delaySeconds else s.t0
  }

  /** The row of a submitted task: queued, due after its delay, its spec normalized, all else as it came. */
  ghost predicate QueuedRow(row: Task, s: B.Submission) {
    && row.status == TaskStatus.Queued && row.availableAt == DueAt(s) && NormalFormOf(row.spec, s.task.spec)
    && row.createdAt == s.task.createdAt && row.attempts == s.task.attempts
    && row.lastError == s.task.lastError && row.assignedWorker == s.task.assignedWorker
    && row.leaseDeadline == s.task.leaseDeadline
  }

  lemma EnqueuedRow(s: B.Submission)
    ensures QueuedRow(B.Enqueued(s.task, s.t0), s)
  {
    NormalizedIsNormal(s.task.spec);
  }

  /** These submissions, and no other new task, are in the table, queued; other rows are as they were. */
  ghost predicate JustAdded(b: B.Broker, b': B.Broker, accepted: seq<B.Submission>) {
    && (forall i | 0 <= i < |accepted| :: accepted[i].id in b'.tasks
          && QueuedRow(b'.tasks[accepted[i].id], accepted[i]))
    && (forall id | id in b.tasks :: id in b'.tasks && b'.tasks[id] == b.tasks[id])
    && (forall id | id in b'.tasks && id !in b.tasks :: InBatch(accepted, id))
    && b'.inflight == b.inflight && b'.cancelled == b.cancelled && b'.deadLetter == b.deadLetter
  }

  lemma SubmitTables(b: B.Broker, s: B.Submission)
    requires B.Depth(b) < b.maxDepth
    ensures var b' := B.Submit(b, s.id, s.task, s.t0, s.t1).0;
            && b'.tasks == b.tasks[s.id := B.Enqueued(s.task, s.t0)]
            && b'.inflight == b.inflight && b'.cancelled == b.cancelled && b'.deadLetter == b.deadLetter
  {
    hide B.Push, B.Depth;
    B.PushKeeps(b.(tasks := b.tasks[s.id := B.Enqueued(s.task, s.t0)]), s.id, s.t1);
  }

  lemma {:induction false} OneMoreAdded(b: B.Broker, c: B.Broker, batch: seq<B.Submission>, n: nat)
    requires Fresh(b, batch) && n < |batch| && JustAdded(b, c, batch[..n]) && B.Depth(c) < c.maxDepth
    ensures var s := batch[n]; JustAdded(b, B.Submit(c, s.id, s.task, s.t0, s.t1).0, batch[..n + 1])
  {
    hide B.Depth, B.Submit, B.Enqueued, QueuedRow;
    var s, front := batch[n], batch[..n];
    SubmitTables(c, s);
    EnqueuedRow(s);
    assert IsNew(b, batch[n]);
    var d := B.Submit(c, s.id, s.task, s.t0, s.t1).0;
    assert batch[..n + 1] == front + [s];
    forall id | id in d.tasks && id !in b.tasks ensures InBatch(front + [s], id) {
      if id == s.id {
        assert (front + [s])[n].id == id;
      } else {
        var i :| 0 <= i < n && front[i].id == id;
        assert (front + [s])[i].id == id;
      }
    }
    forall i | 0 <= i < n ensures front[i].id != s.id {
    }
  }

  lemma NoneAdded(b: B.Broker)
    ensures JustAdded(b, b, [])
  {
  }

  lemma RestAbsent(b: B.Broker, b': B.Broker, batch: seq<B.Submission>, n: nat)
    requires Fresh(b, batch) && n <= |batch| && JustAdded(b, b', batch[..n])
    ensures forall i | n <= i < |batch| :: batch[i].id !in b'.tasks
  {
    forall i | n <= i < |batch| ensures batch[i].id !in b'.tasks {
      assert IsNew(b, batch[i]);
    }
  }

  /** Exactly the accepted prefix of a batch of new tasks is in the table. */
  lemma {:induction false} BatchKeys(b: B.Broker, batch: seq<B.Submission>)
    requires Fresh(b, batch)
    ensures var (b', n) := B.SubmitEach(b, batch);
            JustAdded(b, b', batch[..n]) && forall i | n <= i < |batch| :: batch[i].id !in b'.tasks
  {
    hide B.Depth, B.Submit, JustAdded;
    if batch == [] {
      NoneAdded(b);
    } else {
      var front, s := batch[..|batch| - 1], batch[|batch| - 1];
      BatchKeys(b, front);
      var (c, n) := B.SubmitEach(b, front);
      assert front[..n] == batch[..n];
      if n == |front| {
        SubmitIfRoom(c, s);
        if B.Depth(c) < c.maxDepth {
          OneMoreAdded(b, c, batch, n);
        }
      }
      RestAbsent(b, B.SubmitEach(b, batch).0, batch, B.SubmitEach(b, batch).1);
    }
  }

  /** When all before it were accepted, the last of a batch is still new. */
  lemma BatchNew(b: B.Broker, batch: seq<B.Submission>)
    requires Fresh(b, batch) && batch != []
    ensures IsNew(B.SubmitEach(b, batch[..|batch| - 1]).0, batch[|batch| - 1])
  {
    hide B.SubmitEach;
    var front, s := batch[..|batch| - 1], batch[|batch| - 1];
    BatchKeys(b, front);
    assert IsNew(b, s);
    assert !InBatch(front, s.id);
    var (c, n) := B.SubmitEach(b, front);
    assert InBatch(front[..n], s.id) ==> InBatch(front, s.id);
  }

  lemma FreshFront(b: B.Broker, batch: seq<B.Submission>)
    requires Fresh(b, batch) && batch != []
    ensures Fresh(b, batch[..|batch| - 1])
  {
  }

  lemma {:induction false} SubmitAddsEntry(b: B.Broker, s: B.Submission)
    requires B.Depth(b) < b.maxDepth
    ensures B.Entries(B.Submit(b, s.id, s.task, s.t0, s.t1).0) == B.Entries(b) + multiset{s.id}
  {
    hide Image, B.Depth;
    var c := b.(tasks := b.tasks[s.id := B.Enqueued(s.task, s.t0)]);
    PushAdds(c, s.id, s.t1);
    assert B.Entries(c) == B.Entries(b);
  }

  /**
   * A batch of new tasks is accepted up to the room that is left: the longest prefix that fits. Each
   * accepted task gets exactly one entry and one sequence number.
   */
  lemma {:induction false} BatchTakesLongestPrefix(b: B.Broker, batch: seq<B.Submission>)
    requires Fresh(b, batch)
    ensures var (b', n) := B.SubmitEach(b, batch);
            var room := if b.maxDepth > B.Depth(b) then b.maxDepth - B.Depth(b) else 0;
            && n == (if |batch| <= room then |batch| else room)
            && B.Depth(b') == B.Depth(b) + n && b'.maxDepth == b.maxDepth && b'.sequence == b.sequence + n
            && B.Entries(b') == B.Entries(b) + IdsOf(batch[..n])
  {
    hide B.Entries, B.Depth, B.Submit, Fresh;
    if batch == [] {
      assert B.Entries(b) + multiset{} == B.Entries(b);
    } else {
      var front, s := batch[..|batch| - 1], batch[|batch| - 1];
      FreshFront(b, batch);
      BatchTakesLongestPrefix(b, front);
      BatchNew(b, batch);
      var (c, n) := B.SubmitEach(b, front);
      if n < |front| {
        assert batch[..n] == front[..n];
      } else {
        assert front[..n] == front;
        SubmitIfRoom(c, s);
        if B.Depth(c) < c.maxDepth {
          SubmitRaisesDepth(c, s);
          SubmitAddsEntry(c, s);
          Regroup(B.Entries(b), IdsOf(front), multiset{s.id});
          assert batch[..n + 1] == batch;
        } else {
          assert batch[..n] == front;
        }
      }
    }
  }

  // ---------- Lease reaping ----------

  /** The row, the memberships and the entries of one task are as before. */
  ghost predicate KeptRow(b: B.Broker, b': B.Broker, id: string) {
    SameRow(b, b', id) && B.Entries(b')[id] == B.Entries(b)[id]
  }

  /** One task's lease has expired: an attempt is spent, and it is queued once more or dead-lettered. */
  ghost predicate ReapedRow(b: B.Broker, b': B.Broker, id: string) {
    && id in b.tasks && id in b'.tasks && id !in b'.inflight
    && b'.tasks[id].attempts == b.tasks[id].attempts + 1
    && b'.tasks[id].lastError == Some("lease expired")
    && b'.tasks[id].assignedWorker.None? && b'.tasks[id].leaseDeadline.None?
    && (if b.tasks[id].attempts < b.tasks[id].spec.maxRetries
        then b'.tasks[id].status.Retrying? && B.Entries(b')[id] == B.Entries(b)[id] + 1
        else b'.tasks[id].status.DeadLettered? && id in b'.deadLetter && B.Entries(b')[id] == B.Entries(b)[id])
  }

  lemma CountAdd<T>(m: multiset<T>, x: T, y: T)
    ensures (m + multiset{x})[y] == m[y] + if y == x then 1 else 0
  {
  }

  lemma RetryRows(b: B.Broker, id: string, reason: string, t0: real, t1: real, x: string)
    requires id in b.tasks
    ensures var b' := B.Retry(b, id, reason, t0, t1);
            && id in b'.tasks && b'.tasks[id] == B.Retried(b.tasks[id], reason, t0)
            && (x != id ==> SameRow(b, b', x))
  {
    hide Image, B.Push;
    var task := B.Retried(b.tasks[id], reason, t0);
    hide B.Retried;
    if !task.status.DeadLettered? {
      B.PushKeeps(b.(tasks := b.tasks[id := task], inflight := b.inflight - {id}), id, t1);
    }
  }

  lemma {:induction false} RetryReaps(b: B.Broker, v: B.Visit, id: string)
    requires v.id in b.tasks
    ensures var b' := B.Retry(b, v.id, "lease expired", v.t0, v.t1);
            if id == v.id then ReapedRow(b, b', id) else KeptRow(b, b', id)
  {
    hide Image, B.Push, B.Entries, B.Retry;
    RetryQueuesWhileAttemptsLast(b, v.id, "lease expired", v.t0, v.t1);
    RetryRows(b, v.id, "lease expired", v.t0, v.t1, id);
    CountAdd(B.Entries(b), v.id, id);
    assert B.Entries(b) + multiset{} == B.Entries(b);
  }

  ghost predicate Visited(visits: seq<B.Visit>, id: string) {
    exists i | 0 <= i < |visits| :: visits[i].id == id
  }

  ghost predicate DistinctVisits(visits: seq<B.Visit>) {
    forall i, j | 0 <= i < j < |visits| :: visits[i].id != visits[j].id
  }

  ghost predicate DistinctIds(ids: seq<string>) {
    forall i, j | 0 <= i < j < |ids| :: ids[i] != ids[j]
  }

  lemma VisitedLast(visits: seq<B.Visit>, id: string)
    requires visits != []
    ensures Visited(visits, id) <==> Visited(visits[..|visits| - 1], id) || visits[|visits| - 1].id == id
  {
    var front := visits[..|visits| - 1];
    if i :| 0 <= i < |visits| && visits[i].id == id {
      assert i < |front| ==> front[i].id == id;
    }
    if Visited(front, id) {
      var i :| 0 <= i < |front| && front[i].id == id;
      assert visits[i].id == id;
    }
  }

  lemma {:induction false} ReapPrefix(b: B.Broker, now: real, visits: seq<B.Visit>, id: string)
    requires DistinctVisits(visits)
    ensures var (b', expired) := B.Requeue(b, now, visits);
            && (id in expired <==> Visited(visits, id) && B.LeaseExpired(b, id, now))
            && if id in expired then ReapedRow(b, b', id) else KeptRow(b, b', id)
  {
    hide B.Entries, B.Retry;
    if visits != [] {
      var front, v := visits[..|visits| - 1], visits[|visits| - 1];
      ReapPrefix(b, now, front, id);
      ReapPrefix(b, now, front, v.id);
      assert !Visited(front, v.id);
      VisitedLast(visits, id);
      var (c, expired) := B.Requeue(b, now, front);
      if B.LeaseExpired(c, v.id, now) {
        RetryReaps(c, v, id);
      }
    }
  }

  lemma {:induction false} ReapOnce(b: B.Broker, now: real, visits: seq<B.Visit>)
    requires DistinctVisits(visits)
    ensures DistinctIds(B.Requeue(b, now, visits).1)
  {
    if visits != [] {
      var front, v := visits[..|visits| - 1], visits[|visits| - 1];
      ReapOnce(b, now, front);
      ReapPrefix(b, now, front, v.id);
      assert !Visited(front, v.id);
    }
  }

  /** The lease of a task in flight ran out before now. */
  ghost predicate Overdue(b: B.Broker, id: string, now: real) {
    id in b.inflight && id in b.tasks && b.tasks[id].leaseDeadline.Some? && b.tasks[id].leaseDeadline.value < now
  }

  /**
   * Reaping the whole in-flight table: exactly the leases with a deadline before now leave it, each
   * such task is returned once with an attempt spent and is queued once more or dead-lettered, and
   * every other task is as it was.
   */
  lemma ReapingIsExact(b: B.Broker, now: real, visits: seq<B.Visit>)
    requires DistinctVisits(visits) && forall id :: Visited(visits, id) <==> id in b.inflight
    ensures var (b', expired) := B.Requeue(b, now, visits);
            && DistinctIds(expired)
            && (forall id :: id in b'.inflight <==> id in b.inflight && !Overdue(b, id, now))
            && (forall id :: id in expired <==> Overdue(b, id, now))
            && (forall id | id in expired :: ReapedRow(b, b', id))
            && (forall id | id !in expired :: KeptRow(b, b', id))
  {
    ReapOnce(b, now, visits);
    hide B.Requeue, B.Entries, DistinctIds;
    var (b', expired) := B.Requeue(b, now, visits);
    forall id
      ensures id in b'.inflight <==> id in b.inflight && !Overdue(b, id, now)
      ensures id in expired <==> Overdue(b, id, now)
      ensures id in expired ==> ReapedRow(b, b', id)
      ensures id !in expired ==> KeptRow(b, b', id)
    {
      ReapPrefix(b, now, visits, id);
    }
  }

  /** A reaped task with attempts left is due its backoff, times its attempts, after its own visit's clock reading. */
  lemma {:induction false} ReapedIsDue(b: B.Broker, now: real, visits: seq<B.Visit>, i: nat)
    requires DistinctVisits(visits) && i < |visits| && Overdue(b, visits[i].id, now)
    requires b.tasks[visits[i].id].attempts < b.tasks[visits[i].id].spec.maxRetries
    ensures var b', task := B.Requeue(b, now, visits).0, b.tasks[visits[i].id];
            && visits[i].id in b'.tasks
            && b'.tasks[visits[i].id].availableAt ==
               visits[i].t0 + task.spec.retryBackoffSeconds * (task.attempts + 1) as real
  {
    hide B.Retry, B.Entries;
    var front, v := visits[..|visits| - 1], visits[|visits| - 1];
    if i < |front| {
      assert front[i] == visits[i];
      ReapedIsDue(b, now, front, i);
      if B.LeaseExpired(B.Requeue(b, now, front).0, v.id, now) {
        RetryRows(B.Requeue(b, now, front).0, v.id, "lease expired", v.t0, v.t1, visits[i].id);
      }
    } else {
      assert !Visited(front, v.id);
      ReapPrefix(b, now, front, v.id);
      RetryRows(B.Requeue(b, now, front).0, v.id, "lease expired", v.t0, v.t1, v.id);
    }
  }

  // ---------- When a report keeps the placement exact ----------

  lemma PlacedIfTargetIs(b: B.Broker, ev: Event, id: string)
    requires Legal(b, ev) && Placed(b) && Target(ev) == {id}
    ensures Placed(Apply(b, ev)) <==> PlacedRow(Apply(b, ev), id)
  {
    hide Apply, PlacedRow, Legal;
    if PlacedRow(Apply(b, ev), id) {
      forall x ensures PlacedRow(Apply(b, ev), x) {
        if x != id {
          PlacedOther(b, ev, x);
        }
      }
    }
  }

  /**
   * In a placed broker a retry keeps every task's entries exact if and only if its task is neither
   * waiting nor cancelled by request.
   */
  lemma RetryKeepsPlacement(b: B.Broker, ev: Event)
    requires ev.Retry? && Legal(b, ev) && Placed(b)
    ensures Placed(Apply(b, ev)) <==> !Waiting(b, ev.id) && ev.id !in b.cancelled
  {
    hide Apply, B.Entries, Removed, Added;
    assert PlacedRow(b, ev.id);
    EntryCount(b, ev, ev.id);
    TargetCounts(b, ev, ev.id);
    HeapPartKeepsTables(b, ev);
    PlacedIfTargetIs(b, ev, ev.id);
    hide Placed;
  }

  /** And a completion, if and only if its task is not waiting and a requested cancellation is reported as such. */
  lemma CompleteKeepsPlacement(b: B.Broker, ev: Event)
    requires ev.Complete? && Legal(b, ev) && Placed(b)
    ensures Placed(Apply(b, ev)) <==> !Waiting(b, ev.id) && (ev.id in b.cancelled ==> ev.status.Cancelled?)
  {
    hide Apply, B.Entries, Removed, Added;
    assert PlacedRow(b, ev.id);
    EntryCount(b, ev, ev.id);
    TargetCounts(b, ev, ev.id);
    HeapPartKeepsTables(b, ev);
    PlacedIfTargetIs(b, ev, ev.id);
    hide Placed;
  }
}
