/**
 * The broker of taskrunner/queue/broker.py as a value, and its operations as functions of it.
 * The per-queue ready heaps appear as one pool: an entry's queue is that of its task.
 */
module BrokerModel {
  import opened Models
  import opened Ordering
  import opened Bags

  datatype Broker = Broker(
    maxDepth: int,
    ready: multiset<ReadyEntry>,
    delayed: multiset<DelayedEntry>,
    tasks: map<string, Task>,
    inflight: set<string>,
    deadLetter: set<string>,
    cancelled: set<string>,
    sequence: nat)

  ghost function Empty(maxDepth: int): Broker {
    Broker(maxDepth, multiset{}, multiset{}, map[], {}, {}, {}, 0)
  }

  // ---------- Depth ----------

  ghost function Active(b: Broker): set<string> {
    set id | id in b.tasks && !Terminal(b.tasks[id].status)
  }

  ghost function Depth(b: Broker): nat {
    |Active(b)|
  }

  // ---------- Entries ----------

  ghost function ReadyId(e: ReadyEntry): string { e.id }

  ghost function DelayedId(e: DelayedEntry): string { e.id }

  /** The ids of all heap entries, one occurrence per entry. */
  ghost function Entries(b: Broker): multiset<string> {
    Image(b.ready, ReadyId) + Image(b.delayed, DelayedId)
  }

  ghost function ReadyOf(tasks: map<string, Task>, id: string, seqNo: nat): ReadyEntry {
    if id in tasks then ReadyEntry(tasks[id].spec.priority, tasks[id].createdAt, seqNo, id)
    else ReadyEntry(0, 0.0, seqNo, id)
  }

  /** `_push`: an entry that is not due goes to the delayed heap, a due one to its ready heap. */
  ghost function Push(b: Broker, id: string, now: real): Broker
    requires id in b.tasks
  {
    var n := b.sequence + 1;
    if b.tasks[id].availableAt > now then
      b.(sequence := n, delayed := b.delayed + multiset{DelayedEntry(b.tasks[id].availableAt, n, id)})
    else
      b.(sequence := n, ready := b.ready + multiset{ReadyOf(b.tasks, id, n)})
  }

  // ---------- Submission ----------

  ghost function Enqueued(task: Task, t0: real): Task {
    var spec := task.spec.Normalized();
    task.(spec := spec, status := Queued, availableAt := t0 + spec.delaySeconds)
  }

  /** One accepted submission; t0 and t1 are its two clock readings. */
  ghost function Enqueue(b: Broker, id: string, task: Task, t0: real, t1: real): Broker {
    Push(b.(tasks := b.tasks[id := Enqueued(task, t0)]), id, t1)
  }

  /** `submit`: refused when the depth has reached the maximum. */
  ghost function Submit(b: Broker, id: string, task: Task, t0: real, t1: real): (r: (Broker, bool)) {
    if Depth(b) >= b.maxDepth then (b, false) else (Enqueue(b, id, task, t0, t1), true)
  }

  datatype Submission = Submission(id: string, task: Task, t0: real, t1: real)

  /** Submitting one by one until one is refused; the second component counts the accepted ones. */
  ghost function SubmitEach(b: Broker, batch: seq<Submission>): (r: (Broker, nat))
    ensures r.1 <= |batch|
  {
    if batch == [] then (b, 0)
    else
      var last := |batch| - 1;
      var (b', n) := SubmitEach(b, batch[..last]);
      if n < last then (b', n)
      else
        var s := batch[last];
        var (b'', ok) := Submit(b', s.id, s.task, s.t0, s.t1);
        (b'', if ok then n + 1 else n)
  }

  // ---------- Promotion ----------

  ghost function Due(now: real): DelayedEntry -> bool {
    (e: DelayedEntry) => e.availableAt <= now
  }

  /** Neither cancelled nor dead-lettered, by status. */
  ghost predicate Promotable(tasks: map<string, Task>, id: string) {
    id in tasks && !tasks[id].status.Cancelled? && !tasks[id].status.DeadLettered?
  }

  ghost function IsPromotable(tasks: map<string, Task>): DelayedEntry -> bool {
    (e: DelayedEntry) => Promotable(tasks, e.id)
  }

  ghost function ToReady(tasks: map<string, Task>, seqNo: nat): DelayedEntry -> ReadyEntry {
    (e: DelayedEntry) => ReadyOf(tasks, e.id, seqNo)
  }

  ghost function DueEntries(b: Broker, now: real): multiset<DelayedEntry> {
    Filter(b.delayed, Due(now))
  }

  ghost function Moved(b: Broker, now: real): multiset<DelayedEntry> {
    Filter(DueEntries(b, now), IsPromotable(b.tasks))
  }

  /** `_promote_delayed_locked`: promoted entries all carry the current sequence number. */
  ghost function Promote(b: Broker, now: real): Broker {
    b.(delayed := b.delayed - DueEntries(b, now),
       ready := b.ready + Image(Moved(b, now), ToReady(b.tasks, b.sequence)))
  }

  // ---------- Reservation ----------

  /** The cancelled tasks of the given queues: their ready entries are discarded by a scan. */
  ghost function Doomed(b: Broker, queues: set<string>): set<string> {
    set id | id in b.cancelled && id in b.tasks && b.tasks[id].spec.queue in queues
  }

  ghost function IsIn(ids: set<string>): ReadyEntry -> bool {
    (e: ReadyEntry) => e.id in ids
  }

  ghost function Dropped(b: Broker, queues: set<string>): multiset<ReadyEntry> {
    Filter(b.ready, IsIn(Doomed(b, queues)))
  }

  ghost function DropCancelled(b: Broker, queues: set<string>): Broker {
    b.(ready := b.ready - Dropped(b, queues))
  }

  ghost predicate CanTake(b: Broker, w: WorkerInfo, completed: set<string>, id: string) {
    id in b.tasks && id !in b.cancelled && w.Accepts(b.tasks[id].spec) && b.tasks[id].spec.dependsOn <= completed
  }

  ghost function Eligible(b: Broker, w: WorkerInfo, completed: set<string>): set<ReadyEntry> {
    set e | e in b.ready && CanTake(b, w, completed, e.id)
  }

  /** `_pop_eligible_locked`: a scan discards cancelled entries, then the least eligible entry is taken. */
  ghost function PopEligible(b: Broker, w: WorkerInfo, completed: set<string>): (r: (Broker, Option<string>))
    ensures r.1.Some? ==> r.1.value in b.tasks
  {
    var d := DropCancelled(b, w.queues);
    var eligible := Eligible(d, w, completed);
    if eligible == {} then (d, None)
    else (d.(ready := d.ready - multiset{Least(eligible)}), Some(Least(eligible).id))
  }

  /** The field assignments of `reserve`. */
  ghost function Lease(b: Broker, id: string, worker: string, deadline: real): Broker
    requires id in b.tasks
  {
    b.(tasks := b.tasks[id := b.tasks[id].(status := Running, assignedWorker := Some(worker),
                                           leaseDeadline := Some(deadline))],
       inflight := b.inflight + {id})
  }

  /** One attempt of `reserve`; now and t are the clock readings of the promotion and of the lease. */
  ghost function Reserve(b: Broker, w: WorkerInfo, completed: set<string>, leaseSeconds: real, now: real, t: real)
    : (r: (Broker, Option<string>))
  {
    var (p, best) := PopEligible(Promote(b, now), w, completed);
    if best.None? then (p, None)
    else (Lease(p, best.value, w.workerId, t + leaseSeconds), best)
  }

  // ---------- Completion, retry, cancellation ----------

  /** `complete`, for a known id. */
  ghost function Complete(b: Broker, id: string, status: TaskStatus, error: Option<string>): Broker
    requires id in b.tasks
  {
    b.(tasks := b.tasks[id := b.tasks[id].(status := status, lastError := error, leaseDeadline := None)],
       inflight := b.inflight - {id},
       deadLetter := if status.DeadLettered? then b.deadLetter + {id} else b.deadLetter)
  }

  ghost function Retried(task: Task, reason: string, t0: real): Task {
    var n := task.attempts + 1;
    var r := task.(attempts := n, lastError := Some(reason), assignedWorker := None, leaseDeadline := None);
    if n > task.spec.maxRetries then r.(status := DeadLettered)
    else r.(status := Retrying, availableAt := t0 + task.spec.retryBackoffSeconds * n as real)
  }

  /** `retry`, for a known id. */
  ghost function Retry(b: Broker, id: string, reason: string, t0: real, t1: real): Broker
    requires id in b.tasks
  {
    var task := Retried(b.tasks[id], reason, t0);
    var b' := b.(tasks := b.tasks[id := task], inflight := b.inflight - {id});
    if task.status.DeadLettered? then b'.(deadLetter := b.deadLetter + {id})
    else Push(b', id, t1)
  }

  /** `cancel`, for a known id. */
  ghost function Cancel(b: Broker, id: string): Broker
    requires id in b.tasks
  {
    b.(tasks := b.tasks[id := b.tasks[id].(status := Cancelled)],
       cancelled := b.cancelled + {id},
       inflight := b.inflight - {id})
  }

  // ---------- Lease reaping ----------

  ghost predicate LeaseExpired(b: Broker, id: string, now: real) {
    id in b.tasks && b.tasks[id].leaseDeadline.Some? && b.tasks[id].leaseDeadline.value < now
  }

  /** One in-flight task to look at and the clock readings its retry takes. */
  datatype Visit = Visit(id: string, t0: real, t1: real)

  /** `requeue_expired_leases` over the in-flight ids in the order `visits`; expired ids come back in order. */
  ghost function Requeue(b: Broker, now: real, visits: seq<Visit>): (r: (Broker, seq<string>)) {
    if visits == [] then (b, [])
    else
      var last := |visits| - 1;
      var (b', expired) := Requeue(b, now, visits[..last]);
      var v := visits[last];
      if LeaseExpired(b', v.id, now) then (Retry(b', v.id, "lease expired", v.t0, v.t1), expired + [v.id])
      else (b', expired)
  }

  // ---------- Snapshot ----------

  /** What `snapshot` reports of a promoted broker. */
  ghost function Snapshot(b: Broker): QueueSnapshot {
    var active := |b.ready| + |b.delayed| + |b.inflight|;
    QueueSnapshot(|b.ready|, |b.delayed|, |b.inflight|, |b.deadLetter|,
                  active as real / (if b.maxDepth < 1 then 1 else b.maxDepth) as real)
  }

  // ---------- Steps of the loops ----------

  /** One turn of the batch loop. */
  lemma SubmitEachStep(b: Broker, batch: seq<Submission>, i: nat)
    requires i < |batch| && SubmitEach(b, batch[..i]).1 == i
    ensures var b', s := SubmitEach(b, batch[..i]).0, batch[i];
            SubmitEach(b, batch[..i + 1]) ==
            if Depth(b') >= b'.maxDepth then (b', i) else (Enqueue(b', s.id, s.task, s.t0, s.t1), i + 1)
  {
    assert batch[..i + 1][..i] == batch[..i];
  }

  /** Once a submission has been refused, the rest of the batch is not looked at. */
  lemma {:induction false} RefusalEnds(b: Broker, batch: seq<Submission>, k: nat)
    requires k <= |batch| && SubmitEach(b, batch[..k]).1 < k
    ensures SubmitEach(b, batch) == SubmitEach(b, batch[..k])
  {
    if k < |batch| {
      assert batch[..|batch| - 1][..k] == batch[..k];
      RefusalEnds(b, batch[..|batch| - 1], k);
    } else {
      assert batch[..k] == batch;
    }
  }

  /** One turn of the reaping loop. */
  lemma RequeueStep(b: Broker, now: real, visits: seq<Visit>, i: nat)
    requires i < |visits|
    ensures var (c, expired) := Requeue(b, now, visits[..i]);
            var v := visits[i];
            Requeue(b, now, visits[..i + 1]) ==
            if LeaseExpired(c, v.id, now) then (Retry(c, v.id, "lease expired", v.t0, v.t1), expired + [v.id])
            else (c, expired)
  {
    assert visits[..i + 1][..i] == visits[..i];
  }

  lemma {:induction false} RequeueKeepsIds(b: Broker, now: real, visits: seq<Visit>)
    ensures Requeue(b, now, visits).0.tasks.Keys == b.tasks.Keys
  {
    if visits != [] {
      RequeueKeepsIds(b, now, visits[..|visits| - 1]);
    }
  }

  /** The reaper's own pop and unassignment are absorbed by the retry that follows. */
  lemma {:induction false} RetryAbsorbs(b: Broker, id: string, reason: string, t0: real, t1: real)
    requires id in b.tasks
    ensures var c := b.(inflight := b.inflight - {id}, tasks := b.tasks[id := b.tasks[id].(assignedWorker := None)]);
            Retry(c, id, reason, t0, t1) == Retry(b, id, reason, t0, t1)
  {
    var c := b.(inflight := b.inflight - {id}, tasks := b.tasks[id := b.tasks[id].(assignedWorker := None)]);
    var task := Retried(b.tasks[id], reason, t0);
    assert Retried(c.tasks[id], reason, t0) == task;
    assert c.tasks[id := task] == b.tasks[id := task];
    assert c.inflight - {id} == b.inflight - {id};
  }

  /** What `_push` leaves alone. */
  lemma PushKeeps(b: Broker, id: string, now: real)
    requires id in b.tasks
    ensures var n := Push(b, id, now);
            n == b.(sequence := b.sequence + 1, ready := n.ready, delayed := n.delayed)
  {
  }

  lemma PromoteKeeps(b: Broker, now: real)
    ensures var n := Promote(b, now); n == b.(ready := n.ready, delayed := n.delayed)
  {
  }

  lemma DropKeeps(b: Broker, queues: set<string>)
    ensures var n := DropCancelled(b, queues); n == b.(ready := n.ready)
  {
  }

  lemma PopKeeps(b: Broker, w: WorkerInfo, completed: set<string>)
    ensures var n := PopEligible(b, w, completed).0; n == b.(ready := n.ready)
  {
  }

  /** The promotion loop after the due entries `taken` have been popped. */
  ghost function PartlyPromoted(b: Broker, taken: multiset<DelayedEntry>): Broker {
    b.(delayed := b.delayed - taken,
       ready := b.ready + Image(Filter(taken, IsPromotable(b.tasks)), ToReady(b.tasks, b.sequence)))
  }

  /** Popping one more entry moves it, or discards it when its task is not promotable. */
  lemma {:induction false} PromoteOneMore(b: Broker, taken: multiset<DelayedEntry>, e: DelayedEntry)
    requires taken + multiset{e} <= b.delayed
    ensures var c, d := PartlyPromoted(b, taken), PartlyPromoted(b, taken + multiset{e});
            && c.delayed == d.delayed + multiset{e}
            && d.ready == if Promotable(b.tasks, e.id)
                          then c.ready + multiset{ReadyOf(b.tasks, e.id, b.sequence)} else c.ready
  {
    var p, f := IsPromotable(b.tasks), ToReady(b.tasks, b.sequence);
    TakeOneMore(b.delayed, taken, e);
    FilterAdd(taken, p, e);
    if p(e) {
      ImageAdd(Filter(taken, p), e, f);
      Regroup(b.ready, Image(Filter(taken, p), f), multiset{f(e)});
    } else {
      assert Filter(taken + multiset{e}, p) == Filter(taken, p);
    }
  }

  lemma NothingPromoted(b: Broker)
    ensures PartlyPromoted(b, multiset{}) == b
  {
    assert Filter(multiset{}, IsPromotable(b.tasks)) == multiset{};
  }

  /** When no due entry is left, the loop has promoted. */
  lemma {:induction false} PromotionDone(b: Broker, taken: multiset<DelayedEntry>, now: real)
    requires taken <= b.delayed
    requires forall e | e in taken :: e.availableAt <= now
    requires forall e | e in PartlyPromoted(b, taken).delayed :: e.availableAt > now
    ensures PartlyPromoted(b, taken) == Promote(b, now)
  {
    assert taken == DueEntries(b, now);
  }

  /** Scanning one more queue discards that queue's cancelled entries as well. */
  lemma DropOneMore(b: Broker, queues: set<string>, q: string)
    ensures DropCancelled(DropCancelled(b, queues), {q}) == DropCancelled(b, queues + {q})
  {
    var d := DropCancelled(b, queues);
    assert d.ready - Dropped(d, {q}) == b.ready - Dropped(b, queues + {q});
  }

  lemma DropNothing(b: Broker)
    ensures DropCancelled(b, {}) == b
  {
    assert Dropped(b, {}) == multiset{};
  }

  /** The entries of the given queues that the worker may take. */
  ghost function EligibleIn(b: Broker, w: WorkerInfo, completed: set<string>, queues: set<string>): set<ReadyEntry> {
    set e | e in b.ready && CanTake(b, w, completed, e.id) && b.tasks[e.id].spec.queue in queues
  }

  lemma EligibleMember(b: Broker, w: WorkerInfo, completed: set<string>, e: ReadyEntry)
    requires e in Eligible(b, w, completed)
    ensures e in b.ready && CanTake(b, w, completed, e.id)
  {
  }

  /** A scan of all the worker's queues finds what is eligible, discarded entries or not. */
  lemma ScanFindsEligible(b: Broker, w: WorkerInfo, completed: set<string>)
    ensures EligibleIn(b, w, completed, w.queues) == Eligible(b, w, completed)
    ensures Eligible(DropCancelled(b, w.queues), w, completed) == Eligible(b, w, completed)
  {
  }
}
