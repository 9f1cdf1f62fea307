/**
 * Runs of the broker: every sequence of submissions, promotions, scans, dispatches, completions,
 * retries and cancellations, with the history that the claims about whole runs speak of. Late
 * reports, duplicate entries, manual retries and expired leases are all among these runs; an event
 * whose guard does not hold is refused and changes nothing.
 */
module BrokerRuns {
  import opened Models
  import opened Ordering
  import opened Bags
  import B = BrokerModel

  datatype Event =
    | Submit(id: string, spec: TaskSpec, createdAt: real, t0: real, t1: real)
    | Promote(now: real)
    | Scan(queues: set<string>)
    | Dispatch(entry: ReadyEntry, worker: WorkerInfo, completed: set<string>, leaseSeconds: real, t: real)
    | Complete(id: string, status: TaskStatus, error: Option<string>)
    | Retry(id: string, reason: string, t0: real, t1: real)
    | Cancel(id: string)

  /** A heap entry as a promise: task id is to run, not before `at`. */
  datatype Due = Due(id: string, at: real)

  /**
   * What happened to heap entries: every push with its due time; the pushes released to a ready
   * heap; those lost at promotion; the ids handed out; the ids dropped by scans.
   */
  datatype Flow = Flow(
    pushes: multiset<Due>,
    released: multiset<Due>,
    lost: multiset<Due>,
    dispatched: multiset<string>,
    dropped: multiset<string>)

  /**
   * The broker and its history: the last clock reading, the flow of entries, how often a terminal
   * task became active again, and when each task was submitted.
   */
  datatype Hist = Hist(b: B.Broker, clock: real, flow: Flow, revivals: nat, submittedAt: map<string, real>)

  ghost function ToDue(e: DelayedEntry): Due { Due(e.id, e.availableAt) }

  ghost function DueId(d: Due): string { d.id }

  /** A new TaskEnvelope: attempts 0, status pending. */
  ghost function NewTask(spec: TaskSpec, createdAt: real): Task {
    Task(spec, createdAt, createdAt, 0, Pending, None, None, None)
  }

  ghost function Start(maxDepth: int, clock: real): Hist {
    Hist(B.Empty(maxDepth), clock, Flow(multiset{}, multiset{}, multiset{}, multiset{}, multiset{}), 0, map[])
  }

  /** The guards: fresh ids (uuid4), known ids, and completion with a terminal status. */
  ghost predicate Legal(b: B.Broker, ev: Event) {
    match ev
    case Submit(id, _, _, _, _) => id !in b.tasks && B.Depth(b) < b.maxDepth
    case Dispatch(e, w, completed, _, _) => e in b.ready && B.CanTake(b, w, completed, e.id)
    case Complete(id, status, _) => id in b.tasks && Terminal(status)
    case Retry(id, _, _, _) => id in b.tasks
    case Cancel(id) => id in b.tasks
    case _ => true
  }

  /** The table part of an event: all but the heaps. */
  ghost function Tabled(b: B.Broker, ev: Event): B.Broker
    requires Legal(b, ev)
  {
    match ev
    case Submit(id, spec, createdAt, t0, _) =>
      b.(tasks := b.tasks[id := B.Enqueued(NewTask(spec, createdAt), t0)])
    case Dispatch(e, w, _, leaseSeconds, t) => B.Lease(b, e.id, w.workerId, t + leaseSeconds)
    case Complete(id, status, error) => B.Complete(b, id, status, error)
    case Retry(id, reason, t0, _) =>
      var task := B.Retried(b.tasks[id], reason, t0);
      b.(tasks := b.tasks[id := task], inflight := b.inflight - {id},
         deadLetter := if task.status.DeadLettered? then b.deadLetter + {id} else b.deadLetter)
    case Cancel(id) => B.Cancel(b, id)
    case Promote(_) => b
    case Scan(_) => b
  }

  /** The heap part: at most one push, promotion, scan or removal. */
  ghost function Apply(b: B.Broker, ev: Event): B.Broker
    requires Legal(b, ev)
  {
    var t := Tabled(b, ev);
    match ev
    case Submit(id, _, _, _, t1) => B.Push(t, id, t1)
    case Retry(id, _, _, t1) => if t.tasks[id].status.DeadLettered? then t else B.Push(t, id, t1)
    case Dispatch(e, _, _, _, _) => t.(ready := t.ready - multiset{e})
    case Promote(now) => B.Promote(t, now)
    case Scan(queues) => B.DropCancelled(t, queues)
    case Complete(_, _, _) => t
    case Cancel(_) => t
  }

  /** The flow after a push of task id at time now, b being the broker that pushed. */
  ghost function RecordPush(f: Flow, b: B.Broker, id: string, now: real): Flow
    requires id in b.tasks
  {
    var d := multiset{Due(id, b.tasks[id].availableAt)};
    f.(pushes := f.pushes + d, released := if b.tasks[id].availableAt > now then f.released else f.released + d)
  }

  /** Whether a step turned a terminal task into an active one. */
  ghost predicate Revives(b: B.Broker, b': B.Broker) {
    exists id :: id in b.tasks && id in b'.tasks && Terminal(b.tasks[id].status) && !Terminal(b'.tasks[id].status)
  }

  ghost function LastReading(h: Hist, ev: Event): real {
    match ev
    case Submit(_, _, _, _, t1) => t1
    case Promote(now) => now
    case Dispatch(_, _, _, _, t) => t
    case Retry(_, _, _, t1) => t1
    case _ => h.clock
  }

  ghost function Record(f: Flow, b: B.Broker, ev: Event): Flow
    requires Legal(b, ev)
  {
    var t := Tabled(b, ev);
    match ev
    case Submit(id, _, _, _, t1) => RecordPush(f, t, id, t1)
    case Retry(id, _, _, t1) => if t.tasks[id].status.DeadLettered? then f else RecordPush(f, t, id, t1)
    case Promote(now) =>
      var due, moved := B.DueEntries(b, now), B.Moved(b, now);
      f.(released := f.released + Image(moved, ToDue), lost := f.lost + Image(due - moved, ToDue))
    case Scan(queues) => f.(dropped := f.dropped + Image(B.Dropped(b, queues), B.ReadyId))
    case Dispatch(e, _, _, _, _) => f.(dispatched := f.dispatched + multiset{e.id})
    case Complete(_, _, _) => f
    case Cancel(_) => f
  }

  /** An event whose guard fails is refused: nothing changes. */
  ghost function Next(h: Hist, ev: Event): Hist {
    if !Legal(h.b, ev) then h
    else
      var b' := Apply(h.b, ev);
      Hist(b', LastReading(h, ev), Record(h.flow, h.b, ev),
           h.revivals + if Revives(h.b, b') then 1 else 0,
           if ev.Submit? then h.submittedAt[ev.id := ev.t0] else h.submittedAt)
  }

  /** The history after a sequence of events. */
  ghost function After(h: Hist, evs: seq<Event>): Hist {
    if evs == [] then h else Next(After(h, evs[..|evs| - 1]), evs[|evs| - 1])
  }

  // ---------- Well-formedness ----------

  /** A ready entry speaks of a known task and carries that task's own order keys. */
  ghost predicate Proper(tasks: map<string, Task>, e: ReadyEntry) {
    e.id in tasks && e == B.ReadyOf(tasks, e.id, e.seqNo)
  }

  ghost predicate EntriesOk(b: B.Broker) {
    (forall e | e in b.ready :: Proper(b.tasks, e)) && (forall e | e in b.delayed :: e.id in b.tasks)
  }

  /** Entries and tables speak of known tasks, whose specs are normalized. */
  ghost predicate WellFormed(b: B.Broker) {
    && EntriesOk(b)
    && b.inflight <= b.tasks.Keys && b.cancelled <= b.tasks.Keys && b.deadLetter <= b.tasks.Keys
    && (forall id | id in b.tasks :: b.tasks[id].spec.IsNormal())
  }

  /** What a task keeps for ever. */
  ghost predicate SameIdentity(tasks: map<string, Task>, tasks': map<string, Task>) {
    forall id | id in tasks :: id in tasks' && tasks'[id].spec == tasks[id].spec && tasks'[id].createdAt == tasks[id].createdAt
  }

  lemma EntriesOkGrow(b: B.Broker, b': B.Broker)
    requires EntriesOk(b) && SameIdentity(b.tasks, b'.tasks)
    requires b'.ready <= b.ready && b'.delayed <= b.delayed
    ensures EntriesOk(b')
  {
    forall e | e in b'.ready ensures Proper(b'.tasks, e) {
      assert e in b.ready && Proper(b.tasks, e);
    }
    assert forall e | e in b'.delayed :: e in b.delayed;
  }

  lemma EntriesOkPush(b: B.Broker, id: string, now: real)
    requires EntriesOk(b) && id in b.tasks
    ensures EntriesOk(B.Push(b, id, now))
  {
    var b' := B.Push(b, id, now);
    forall e | e in b'.ready ensures Proper(b'.tasks, e) {
      assert e in b.ready ==> Proper(b.tasks, e);
    }
  }

  lemma EntriesOkPromote(b: B.Broker, now: real)
    requires EntriesOk(b)
    ensures EntriesOk(B.Promote(b, now))
  {
    var b', moved, f := B.Promote(b, now), B.Moved(b, now), B.ToReady(b.tasks, b.sequence);
    forall e | e in b'.ready ensures Proper(b'.tasks, e) {
      if e in b.ready {
        assert Proper(b.tasks, e);
      } else {
        ImageMember(moved, f, e);
        var d :| d in moved && f(d) == e;
        assert d in b.delayed;
      }
    }
    assert forall e | e in b'.delayed :: e in b.delayed;
  }

  lemma TabledKeepsIdentity(b: B.Broker, ev: Event)
    requires Legal(b, ev)
    ensures SameIdentity(b.tasks, Tabled(b, ev).tasks)
    ensures Tabled(b, ev).ready == b.ready && Tabled(b, ev).delayed == b.delayed
  {
  }

  lemma HeapPartKeepsTables(b: B.Broker, ev: Event)
    requires Legal(b, ev)
    ensures var t, n := Tabled(b, ev), Apply(b, ev);
            n == t.(ready := n.ready, delayed := n.delayed, sequence := n.sequence)
  {
  }

  /** The task an event is about, if any. */
  ghost function Target(ev: Event): set<string> {
    match ev
    case Submit(id, _, _, _, _) => {id}
    case Dispatch(e, _, _, _, _) => {e.id}
    case Complete(id, _, _) => {id}
    case Retry(id, _, _, _) => {id}
    case Cancel(id) => {id}
    case _ => {}
  }

  /** Two brokers' tables say the same of one task. */
  ghost predicate SameRow(b: B.Broker, b': B.Broker, id: string) {
    && (id in b.tasks <==> id in b'.tasks) && (id in b.tasks ==> b'.tasks[id] == b.tasks[id])
    && (id in b.inflight <==> id in b'.inflight) && (id in b.cancelled <==> id in b'.cancelled)
    && (id in b.deadLetter <==> id in b'.deadLetter)
  }

  lemma TableKeepsOthers(b: B.Broker, ev: Event, id: string)
    requires Legal(b, ev) && id !in Target(ev)
    ensures SameRow(b, Tabled(b, ev), id)
  {
  }

  /** An event changes the tables at its own task only. */
  lemma OthersUntouched(b: B.Broker, ev: Event, id: string)
    requires Legal(b, ev) && id !in Target(ev)
    ensures SameRow(b, Apply(b, ev), id)
  {
    TableKeepsOthers(b, ev, id);
    HeapPartKeepsTables(b, ev);
    hide Apply, Tabled, Legal;
  }

  lemma EntriesOkShrink(b: B.Broker, b': B.Broker)
    requires EntriesOk(b) && b' == b.(ready := b'.ready) && b'.ready <= b.ready
    ensures EntriesOk(b')
  {
    EntriesOkGrow(b, b');
  }

  lemma {:induction false} EntriesOkKept(b: B.Broker, ev: Event)
    requires EntriesOk(b) && Legal(b, ev)
    ensures EntriesOk(Apply(b, ev))
  {
    var t := Tabled(b, ev);
    TabledKeepsIdentity(b, ev);
    EntriesOkGrow(b, t);
    hide EntriesOk, SameIdentity;
    match ev {
      case Submit(id, _, _, _, t1) => EntriesOkPush(t, id, t1);
      case Retry(id, _, _, t1) => EntriesOkPush(t, id, t1);
      case Promote(now) => EntriesOkPromote(t, now);
      case Scan(queues) => EntriesOkShrink(t, B.DropCancelled(t, queues));
      case Dispatch(e, _, _, _, _) => EntriesOkShrink(t, t.(ready := t.ready - multiset{e}));
      case _ =>
    }
  }

  lemma SpecsKept(b: B.Broker, ev: Event)
    requires Legal(b, ev) && forall id | id in b.tasks :: b.tasks[id].spec.IsNormal()
    ensures forall id | id in Tabled(b, ev).tasks :: Tabled(b, ev).tasks[id].spec.IsNormal()
  {
    if ev.Submit? {
      NormalizedIsNormal(ev.spec);
    }
  }

  lemma TableKeysKept(b: B.Broker, ev: Event)
    requires Legal(b, ev)
    requires b.inflight <= b.tasks.Keys && b.cancelled <= b.tasks.Keys && b.deadLetter <= b.tasks.Keys
    ensures var t := Tabled(b, ev);
            t.inflight <= t.tasks.Keys && t.cancelled <= t.tasks.Keys && t.deadLetter <= t.tasks.Keys
  {
  }

  lemma {:induction false} WellFormedKept(h: Hist, ev: Event)
    requires WellFormed(h.b)
    ensures WellFormed(Next(h, ev).b) && SameIdentity(h.b.tasks, Next(h, ev).b.tasks)
  {
    if Legal(h.b, ev) {
      EntriesOkKept(h.b, ev);
      SpecsKept(h.b, ev);
      TableKeysKept(h.b, ev);
      TabledKeepsIdentity(h.b, ev);
      HeapPartKeepsTables(h.b, ev);
      hide Apply, Tabled, EntriesOk, SameIdentity, Record;
    }
  }

  // ---------- What an event adds to and removes from the heaps ----------

  /** The id of the entry the event pushes. */
  ghost function Added(b: B.Broker, ev: Event): multiset<string>
    requires Legal(b, ev)
  {
    match ev
    case Submit(id, _, _, _, _) => multiset{id}
    case Retry(id, _, _, _) => if Tabled(b, ev).tasks[id].status.DeadLettered? then multiset{} else multiset{id}
    case _ => multiset{}
  }

  /** The ids of the entries that leave the heaps. */
  ghost function Removed(b: B.Broker, ev: Event): multiset<string> {
    match ev
    case Promote(now) => Image(B.DueEntries(b, now) - B.Moved(b, now), B.DelayedId)
    case Scan(queues) => Image(B.Dropped(b, queues), B.ReadyId)
    case Dispatch(e, _, _, _, _) => multiset{e.id}
    case _ => multiset{}
  }

  lemma PushAdds(b: B.Broker, id: string, now: real)
    requires id in b.tasks
    ensures B.Entries(B.Push(b, id, now)) == B.Entries(b) + multiset{id}
  {
    hide Image;
    var n := b.sequence + 1;
    var r, d := Image(b.ready, B.ReadyId), Image(b.delayed, B.DelayedId);
    if b.tasks[id].availableAt > now {
      ImageAdd(b.delayed, DelayedEntry(b.tasks[id].availableAt, n, id), B.DelayedId);
      Regroup(r, d, multiset{id});
    } else {
      ImageAdd(b.ready, B.ReadyOf(b.tasks, id, n), B.ReadyId);
      SumSwap(r, multiset{id}, d);
    }
  }

  /** Promotion moves entries with their ids. */
  lemma {:induction false} PromoteMoves(b: B.Broker, now: real)
    ensures var due, moved := B.DueEntries(b, now), B.Moved(b, now);
            && moved <= due <= b.delayed
            && Image(B.Promote(b, now).ready, B.ReadyId) == Image(b.ready, B.ReadyId) + Image(moved, B.DelayedId)
            && Image(b.delayed, B.DelayedId) == Image(due, B.DelayedId) + Image(B.Promote(b, now).delayed, B.DelayedId)
            && Image(due, B.DelayedId) == Image(moved, B.DelayedId) + Image(due - moved, B.DelayedId)
  {
    hide Image;
    var due, moved, f := B.DueEntries(b, now), B.Moved(b, now), B.ToReady(b.tasks, b.sequence);
    ImageUnion(b.ready, Image(moved, f), B.ReadyId);
    ImageCompose(moved, f, B.ReadyId, B.DelayedId);
    ImageSplit(due, b.delayed, B.DelayedId);
    ImageSplit(moved, due, B.DelayedId);
  }

  lemma {:induction false} PromoteEffect(b: B.Broker, now: real)
    ensures B.Entries(B.Promote(b, now)) + Removed(b, Promote(now)) == B.Entries(b)
  {
    hide Image, Filter;
    PromoteMoves(b, now);
    var n, due, moved := B.Promote(b, now), B.DueEntries(b, now), B.Moved(b, now);
    SumMove(Image(b.ready, B.ReadyId), Image(moved, B.DelayedId), Image(n.delayed, B.DelayedId),
            Image(due - moved, B.DelayedId));
  }

  lemma {:induction false} EntriesEffect(b: B.Broker, ev: Event)
    requires Legal(b, ev)
    ensures B.Entries(Apply(b, ev)) + Removed(b, ev) == B.Entries(b) + Added(b, ev)
  {
    hide Image, Filter;
    var t := Tabled(b, ev);
    TabledKeepsIdentity(b, ev);
    assert B.Entries(t) == B.Entries(b);
    match ev {
      case Submit(id, _, _, _, t1) => PushAdds(t, id, t1);
      case Retry(id, _, _, t1) => PushAdds(t, id, t1);
      case Promote(now) => PromoteEffect(b, now);
      case Scan(queues) =>
        ImageSplit(B.Dropped(b, queues), b.ready, B.ReadyId);
        SumSwap(Image(b.ready - B.Dropped(b, queues), B.ReadyId), Image(B.Dropped(b, queues), B.ReadyId),
                Image(b.delayed, B.DelayedId));
      case Dispatch(e, _, _, _, _) =>
        TakeOne(b.ready, e);
        ImageAdd(b.ready - multiset{e}, e, B.ReadyId);
        SumSwap(Image(b.ready - multiset{e}, B.ReadyId), multiset{e.id}, Image(b.delayed, B.DelayedId));
      case _ =>
    }
  }

  /** Entries are removed by a promotion or a scan only for tasks that are dead or cancelled. */
  lemma RemovedAreDead(b: B.Broker, ev: Event, id: string)
    requires id in Removed(b, ev)
    ensures ev.Promote? ==> !B.Promotable(b.tasks, id)
    ensures ev.Scan? ==> id in b.cancelled
    ensures ev.Dispatch? ==> id == ev.entry.id
  {
    match ev {
      case Promote(now) =>
        var gone := B.DueEntries(b, now) - B.Moved(b, now);
        ImageMember(gone, B.DelayedId, id);
        FilterSplit(B.DueEntries(b, now), B.IsPromotable(b.tasks));
        var d :| d in gone && B.DelayedId(d) == id;
      case Scan(queues) =>
        ImageMember(B.Dropped(b, queues), B.ReadyId, id);
        var e :| e in B.Dropped(b, queues) && B.ReadyId(e) == id;
      case _ =>
    }
  }

  // ---------- Conservation and the dispatch budget ----------

  /** Nothing is dispatched or dropped that was not pushed, and nothing pushed disappears. */
  ghost predicate Conserved(f: Flow, ready: multiset<ReadyEntry>, delayed: multiset<DelayedEntry>) {
    && f.pushes == (f.released + f.lost) + Image(delayed, ToDue)
    && Image(f.released, DueId) == (f.dispatched + f.dropped) + Image(ready, B.ReadyId)
  }

  lemma {:induction false} ConservedByPush(f: Flow, b: B.Broker, id: string, now: real)
    requires id in b.tasks && Conserved(f, b.ready, b.delayed)
    ensures var n := B.Push(b, id, now); Conserved(RecordPush(f, b, id, now), n.ready, n.delayed)
  {
    hide Image;
    var n, d := b.sequence + 1, Due(id, b.tasks[id].availableAt);
    if b.tasks[id].availableAt > now {
      ImageAdd(b.delayed, DelayedEntry(b.tasks[id].availableAt, n, id), ToDue);
      Regroup(f.released + f.lost, Image(b.delayed, ToDue), multiset{d});
    } else {
      ImageAdd(b.ready, B.ReadyOf(b.tasks, id, n), B.ReadyId);
      ImageAdd(f.released, d, DueId);
      Regroup(f.dispatched + f.dropped, Image(b.ready, B.ReadyId), multiset{id});
      SumSwap(f.released, multiset{d}, f.lost);
      SumSwap(f.released + f.lost, multiset{d}, Image(b.delayed, ToDue));
    }
  }

  lemma {:induction false} ConservedByPromote(f: Flow, b: B.Broker, now: real)
    requires Conserved(f, b.ready, b.delayed)
    ensures var n := B.Promote(b, now); Conserved(Record(f, b, Promote(now)), n.ready, n.delayed)
  {
    hide Image, Filter;
    var due, moved := B.DueEntries(b, now), B.Moved(b, now);
    PromoteMoves(b, now);
    ImageSplit(due, b.delayed, ToDue);
    ImageSplit(moved, due, ToDue);
    ImageUnion(f.released, Image(moved, ToDue), DueId);
    ImageCompose(moved, ToDue, DueId, B.DelayedId);
    SumSpread(f.released, f.lost, Image(moved, ToDue), Image(due - moved, ToDue), Image(b.delayed - due, ToDue));
    Regroup(f.dispatched + f.dropped, Image(b.ready, B.ReadyId), Image(moved, B.DelayedId));
  }

  lemma {:induction false} ConservedByRemoval(f: Flow, ready: multiset<ReadyEntry>, delayed: multiset<DelayedEntry>,
                                              gone: multiset<ReadyEntry>)
    requires Conserved(f, ready, delayed) && gone <= ready
    ensures Conserved(f.(dispatched := f.dispatched + Image(gone, B.ReadyId)), ready - gone, delayed)
    ensures Conserved(f.(dropped := f.dropped + Image(gone, B.ReadyId)), ready - gone, delayed)
  {
    hide Image;
    ImageSplit(gone, ready, B.ReadyId);
    SumTaken(f.dispatched, f.dropped, Image(gone, B.ReadyId), Image(ready - gone, B.ReadyId));
  }

  lemma {:induction false} ConservedKept(f: Flow, b: B.Broker, ev: Event)
    requires Conserved(f, b.ready, b.delayed) && Legal(b, ev)
    ensures Conserved(Record(f, b, ev), Apply(b, ev).ready, Apply(b, ev).delayed)
  {
    hide Image, Filter, Conserved;
    var t := Tabled(b, ev);
    TabledKeepsIdentity(b, ev);
    match ev {
      case Submit(id, _, _, _, t1) => ConservedByPush(f, t, id, t1);
      case Retry(id, _, _, t1) => ConservedByPush(f, t, id, t1);
      case Promote(now) => ConservedByPromote(f, b, now);
      case Scan(queues) => ConservedByRemoval(f, b.ready, b.delayed, B.Dropped(b, queues));
      case Dispatch(e, _, _, _, _) =>
        ImageOne(e, B.ReadyId);
        ConservedByRemoval(f, b.ready, b.delayed, multiset{e});
      case _ =>
    }
  }
}
