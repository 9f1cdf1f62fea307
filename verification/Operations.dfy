/**
 * The broker's operations, the functions its methods are proved against, as sequences of events:
 * what holds in every run of events holds in every run of operations.
 */
module Operations {
  import opened Models
  import opened Ordering
  import opened Bags
  import opened BrokerRuns
  import opened RunInvariants
  import B = BrokerModel

  datatype Op =
    | SubmitOne(item: B.Submission)
    | SubmitMany(batch: seq<B.Submission>)
    | Reserve(worker: WorkerInfo, completed: set<string>, leaseSeconds: real, now: real, t: real)
    | Complete(id: string, status: TaskStatus, error: Option<string>)
    | Retry(id: string, reason: string, t0: real, t1: real)
    | Cancel(id: string)
    | Requeue(now: real, visits: seq<B.Visit>)
    | Snapshot(now: real)

  ghost predicate IsNew(b: B.Broker, s: B.Submission) {
    s.id !in b.tasks && s.task == NewTask(s.task.spec, s.task.createdAt)
  }

  /** Submitted envelopes are new: no one has used their ids, and no field has been touched. */
  ghost predicate Fresh(b: B.Broker, batch: seq<B.Submission>) {
    && (forall i | 0 <= i < |batch| :: IsNew(b, batch[i]))
    && (forall i, j | 0 <= i < j < |batch| :: batch[i].id != batch[j].id)
  }

  /** The callers' side: new envelopes, and terminal statuses for complete. */
  ghost predicate Allowed(b: B.Broker, op: Op) {
    match op
    case SubmitOne(s) => IsNew(b, s)
    case SubmitMany(batch) => Fresh(b, batch)
    case Complete(_, status, _) => Terminal(status)
    case _ => true
  }

  /** What an operation does to the broker; unknown ids are refused. */
  ghost function Perform(b: B.Broker, op: Op): B.Broker {
    if !Allowed(b, op) then b
    else
      match op
      case SubmitOne(s) => B.Submit(b, s.id, s.task, s.t0, s.t1).0
      case SubmitMany(batch) => B.SubmitEach(b, batch).0
      case Reserve(w, completed, leaseSeconds, now, t) => B.Reserve(b, w, completed, leaseSeconds, now, t).0
      case Complete(id, status, error) => if id in b.tasks then B.Complete(b, id, status, error) else b
      case Retry(id, reason, t0, t1) => if id in b.tasks then B.Retry(b, id, reason, t0, t1) else b
      case Cancel(id) => if id in b.tasks then B.Cancel(b, id) else b
      case Requeue(now, visits) => B.Requeue(b, now, visits).0
      case Snapshot(now) => B.Promote(b, now)
  }

  /** The id that an operation hands out, if it is a successful reserve. */
  ghost function HandedBy(b: B.Broker, op: Op): multiset<string> {
    if op.Reserve? then
      var best := B.Reserve(b, op.worker, op.completed, op.leaseSeconds, op.now, op.t).1;
      if best.Some? then multiset{best.value} else multiset{}
    else multiset{}
  }

  // ---------- Operations as events ----------

  ghost function SubmitEvent(s: B.Submission): Event {
    BrokerRuns.Submit(s.id, s.task.spec, s.task.createdAt, s.t0, s.t1)
  }

  ghost function SubmitEvents(batch: seq<B.Submission>): seq<Event> {
    if batch == [] then [] else SubmitEvents(batch[..|batch| - 1]) + [SubmitEvent(batch[|batch| - 1])]
  }

  ghost function ReserveEvents(b: B.Broker, w: WorkerInfo, completed: set<string>, leaseSeconds: real, now: real, t: real)
    : seq<Event>
  {
    var eligible := B.Eligible(B.DropCancelled(B.Promote(b, now), w.queues), w, completed);
    [BrokerRuns.Promote(now), Scan(w.queues)] +
    if eligible == {} then [] else [Dispatch(Least(eligible), w, completed, leaseSeconds, t)]
  }

  ghost function RequeueEvents(b: B.Broker, now: real, visits: seq<B.Visit>): seq<Event> {
    if visits == [] then []
    else
      var last := |visits| - 1;
      var v := visits[last];
      RequeueEvents(b, now, visits[..last]) +
      if B.LeaseExpired(B.Requeue(b, now, visits[..last]).0, v.id, now)
      then [BrokerRuns.Retry(v.id, "lease expired", v.t0, v.t1)] else []
  }

  ghost function Events(b: B.Broker, op: Op): seq<Event> {
    if !Allowed(b, op) then []
    else
      match op
      case SubmitOne(s) => [SubmitEvent(s)]
      case SubmitMany(batch) => SubmitEvents(batch)
      case Reserve(w, completed, leaseSeconds, now, t) => ReserveEvents(b, w, completed, leaseSeconds, now, t)
      case Complete(id, status, error) => [BrokerRuns.Complete(id, status, error)]
      case Retry(id, reason, t0, t1) => [BrokerRuns.Retry(id, reason, t0, t1)]
      case Cancel(id) => [BrokerRuns.Cancel(id)]
      case Requeue(now, visits) => RequeueEvents(b, now, visits)
      case Snapshot(now) => [BrokerRuns.Promote(now)]
  }

  ghost function Operate(h: Hist, op: Op): Hist {
    After(h, Events(h.b, op))
  }

  // ---------- One operation is its events ----------

  lemma AfterOne(h: Hist, ev: Event)
    ensures After(h, [ev]) == Next(h, ev)
  {
    assert [ev][..0] == [];
    hide Next;
    assert After(h, []) == h;
  }

  lemma {:induction false} AfterAppend(h: Hist, a: seq<Event>, c: seq<Event>)
    ensures After(h, a + c) == After(After(h, a), c)
  {
    hide Next;
    if c == [] {
      assert a + c == a;
    } else {
      assert (a + c)[..|a + c| - 1] == a + c[..|c| - 1];
      AfterAppend(h, a, c[..|c| - 1]);
    }
  }

  lemma NextBroker(h: Hist, ev: Event)
    ensures Next(h, ev).b == if Legal(h.b, ev) then Apply(h.b, ev) else h.b
  {
    hide Apply, Legal, Record, Revives;
  }

  lemma SubmitIsEvent(h: Hist, s: B.Submission)
    requires IsNew(h.b, s)
    ensures Next(h, SubmitEvent(s)).b == B.Submit(h.b, s.id, s.task, s.t0, s.t1).0
  {
    NextBroker(h, SubmitEvent(s));
    hide Next, B.Push, B.Depth;
  }

  lemma SubmitKeys(b: B.Broker, s: B.Submission)
    ensures B.Submit(b, s.id, s.task, s.t0, s.t1).0.tasks.Keys <= b.tasks.Keys + {s.id}
  {
    if B.Depth(b) < b.maxDepth {
      B.PushKeeps(b.(tasks := b.tasks[s.id := B.Enqueued(s.task, s.t0)]), s.id, s.t1);
    }
    hide B.Push, B.Depth;
  }

  lemma {:induction false} SubmitsAreEvents(h: Hist, batch: seq<B.Submission>)
    requires Fresh(h.b, batch)
    ensures After(h, SubmitEvents(batch)).b == B.SubmitEach(h.b, batch).0
    ensures B.SubmitEach(h.b, batch).1 < |batch| ==> B.Depth(B.SubmitEach(h.b, batch).0) >= B.SubmitEach(h.b, batch).0.maxDepth
    ensures B.SubmitEach(h.b, batch).0.tasks.Keys <= h.b.tasks.Keys + set i | 0 <= i < |batch| :: batch[i].id
  {
    hide Next, B.Push, B.Depth;
    if batch != [] {
      var front, s := batch[..|batch| - 1], batch[|batch| - 1];
      SubmitsAreEvents(h, front);
      var g, c := After(h, SubmitEvents(front)), B.SubmitEach(h.b, front).0;
      assert IsNew(h.b, s);
      assert IsNew(g.b, s);
      SubmitIsEvent(g, s);
      AfterAppend(h, SubmitEvents(front), [SubmitEvent(s)]);
      AfterOne(g, SubmitEvent(s));
      SubmitKeys(c, s);
    }
  }

  lemma RetryIsEvent(h: Hist, id: string, reason: string, t0: real, t1: real)
    requires id in h.b.tasks
    ensures Next(h, BrokerRuns.Retry(id, reason, t0, t1)).b == B.Retry(h.b, id, reason, t0, t1)
  {
    NextBroker(h, BrokerRuns.Retry(id, reason, t0, t1));
    hide Next, B.Push;
  }

  lemma {:induction false} RequeueIsEvents(h: Hist, now: real, visits: seq<B.Visit>)
    ensures After(h, RequeueEvents(h.b, now, visits)).b == B.Requeue(h.b, now, visits).0
  {
    hide Next, B.Retry;
    if visits != [] {
      var front, v := visits[..|visits| - 1], visits[|visits| - 1];
      RequeueIsEvents(h, now, front);
      var g := After(h, RequeueEvents(h.b, now, front));
      if B.LeaseExpired(g.b, v.id, now) {
        var ev := BrokerRuns.Retry(v.id, "lease expired", v.t0, v.t1);
        RetryIsEvent(g, v.id, "lease expired", v.t0, v.t1);
        AfterAppend(h, RequeueEvents(h.b, now, front), [ev]);
        AfterOne(g, ev);
      } else {
        assert RequeueEvents(h.b, now, front) + [] == RequeueEvents(h.b, now, front);
      }
    }
  }

  lemma PromoteEvent(h: Hist, now: real)
    ensures var g := Next(h, BrokerRuns.Promote(now)); g.b == B.Promote(h.b, now) && g.flow.dispatched == h.flow.dispatched
  {
    hide Image, Filter, Revives;
  }

  lemma ScanEvent(h: Hist, queues: set<string>)
    ensures var g := Next(h, Scan(queues)); g.b == B.DropCancelled(h.b, queues) && g.flow.dispatched == h.flow.dispatched
  {
    hide Image, Filter, Revives;
  }

  lemma DispatchEvent(h: Hist, ev: Event)
    requires ev.Dispatch? && Legal(h.b, ev)
    ensures var g := Next(h, ev);
            && g.b == B.Lease(h.b.(ready := h.b.ready - multiset{ev.entry}), ev.entry.id, ev.worker.workerId,
                              ev.t + ev.leaseSeconds)
            && g.flow.dispatched == h.flow.dispatched + multiset{ev.entry.id}
  {
    hide Image, Filter, Revives;
  }

  lemma {:induction false} ReserveIsEvents(h: Hist, w: WorkerInfo, completed: set<string>, leaseSeconds: real, now: real, t: real)
    ensures var g := After(h, ReserveEvents(h.b, w, completed, leaseSeconds, now, t));
            var (b', best) := B.Reserve(h.b, w, completed, leaseSeconds, now, t);
            && g.b == b'
            && g.flow.dispatched == h.flow.dispatched + if best.Some? then multiset{best.value} else multiset{}
  {
    hide Next, Image, Filter, B.Promote, B.DropCancelled;
    var p, s := BrokerRuns.Promote(now), Scan(w.queues);
    var h1 := Next(h, p);
    var h2 := Next(h1, s);
    PromoteEvent(h, now);
    ScanEvent(h1, w.queues);
    AfterOne(h, p);
    AfterAppend(h, [p], [s]);
    AfterOne(h1, s);
    var eligible := B.Eligible(h2.b, w, completed);
    assert [p] + [s] == [p, s];
    if eligible == {} {
      assert [p, s] + [] == [p, s];
    } else {
      var d := Dispatch(Least(eligible), w, completed, leaseSeconds, t);
      AfterAppend(h, [p, s], [d]);
      AfterOne(h2, d);
      B.EligibleMember(h2.b, w, completed, Least(eligible));
      DispatchEvent(h2, d);
    }
  }

  ghost predicate Undispatching(evs: seq<Event>) {
    forall i | 0 <= i < |evs| :: !evs[i].Dispatch?
  }

  lemma OtherEvent(h: Hist, ev: Event)
    requires !ev.Dispatch?
    ensures Next(h, ev).flow.dispatched == h.flow.dispatched
  {
    hide Image, Filter, Revives, Apply, Legal, Tabled;
  }

  lemma {:induction false} DispatchedSame(h: Hist, evs: seq<Event>)
    requires Undispatching(evs)
    ensures After(h, evs).flow.dispatched == h.flow.dispatched
  {
    if evs != [] {
      var g, ev := After(h, evs[..|evs| - 1]), evs[|evs| - 1];
      DispatchedSame(h, evs[..|evs| - 1]);
      OtherEvent(g, ev);
    }
  }

  lemma {:induction false} SubmitsUndispatching(batch: seq<B.Submission>)
    ensures Undispatching(SubmitEvents(batch))
  {
    if batch != [] {
      SubmitsUndispatching(batch[..|batch| - 1]);
    }
  }

  lemma {:induction false} RequeuesUndispatching(b: B.Broker, now: real, visits: seq<B.Visit>)
    ensures Undispatching(RequeueEvents(b, now, visits))
  {
    hide B.Requeue;
    if visits != [] {
      RequeuesUndispatching(b, now, visits[..|visits| - 1]);
    }
  }

  lemma OneEvent(h: Hist, ev: Event)
    requires !ev.Dispatch?
    ensures After(h, [ev]) == Next(h, ev) && Next(h, ev).flow.dispatched == h.flow.dispatched
  {
    hide Next;
    AfterOne(h, ev);
    OtherEvent(h, ev);
  }

  lemma CompleteIsEvent(h: Hist, id: string, status: TaskStatus, error: Option<string>)
    requires Terminal(status)
    ensures Next(h, BrokerRuns.Complete(id, status, error)).b ==
            if id in h.b.tasks then B.Complete(h.b, id, status, error) else h.b
  {
    NextBroker(h, BrokerRuns.Complete(id, status, error));
    hide Next, Terminal;
  }

  lemma CancelIsEvent(h: Hist, id: string)
    ensures Next(h, BrokerRuns.Cancel(id)).b == if id in h.b.tasks then B.Cancel(h.b, id) else h.b
  {
    NextBroker(h, BrokerRuns.Cancel(id));
    hide Next;
  }

  lemma RetryKnown(h: Hist, id: string, reason: string, t0: real, t1: real)
    ensures Next(h, BrokerRuns.Retry(id, reason, t0, t1)).b ==
            if id in h.b.tasks then B.Retry(h.b, id, reason, t0, t1) else h.b
  {
    if id in h.b.tasks {
      RetryIsEvent(h, id, reason, t0, t1);
    } else {
      NextBroker(h, BrokerRuns.Retry(id, reason, t0, t1));
    }
    hide Next, Apply, B.Retry;
  }

  /** An operation is its events: the same broker, and dispatches exactly when an id is handed out. */
  lemma OperationIsEvents(h: Hist, op: Op)
    ensures Operate(h, op).b == Perform(h.b, op)
    ensures Operate(h, op).flow.dispatched == h.flow.dispatched + HandedBy(h.b, op)
  {
    hide Next, Apply, Legal, B.Reserve, B.Requeue, B.SubmitEach, B.Submit, B.Retry, Fresh, IsNew;
    if !Allowed(h.b, op) {
      assert After(h, []) == h;
    } else {
      match op {
        case SubmitOne(s) => OneEvent(h, SubmitEvent(s)); SubmitIsEvent(h, s);
        case SubmitMany(batch) =>
          SubmitsAreEvents(h, batch);
          SubmitsUndispatching(batch);
          DispatchedSame(h, SubmitEvents(batch));
        case Reserve(w, completed, leaseSeconds, now, t) => ReserveIsEvents(h, w, completed, leaseSeconds, now, t);
        case Complete(id, status, error) =>
          OneEvent(h, BrokerRuns.Complete(id, status, error));
          CompleteIsEvent(h, id, status, error);
        case Retry(id, reason, t0, t1) =>
          OneEvent(h, BrokerRuns.Retry(id, reason, t0, t1));
          RetryKnown(h, id, reason, t0, t1);
        case Cancel(id) => OneEvent(h, BrokerRuns.Cancel(id)); CancelIsEvent(h, id);
        case Requeue(now, visits) =>
          RequeueIsEvents(h, now, visits);
          RequeuesUndispatching(h.b, now, visits);
          DispatchedSame(h, RequeueEvents(h.b, now, visits));
        case Snapshot(now) => OneEvent(h, BrokerRuns.Promote(now)); PromoteEvent(h, now);
      }
    }
  }

  // ---------- Runs of operations ----------

  ghost function Performed(b: B.Broker, ops: seq<Op>): B.Broker {
    if ops == [] then b else Perform(Performed(b, ops[..|ops| - 1]), ops[|ops| - 1])
  }

  /** All the ids handed out by the reserves of a run, with their multiplicities. */
  ghost function Handed(b: B.Broker, ops: seq<Op>): multiset<string> {
    if ops == [] then multiset{}
    else Handed(b, ops[..|ops| - 1]) + HandedBy(Performed(b, ops[..|ops| - 1]), ops[|ops| - 1])
  }

  ghost function Unrolled(b: B.Broker, ops: seq<Op>): seq<Event> {
    if ops == [] then []
    else Unrolled(b, ops[..|ops| - 1]) + Events(Performed(b, ops[..|ops| - 1]), ops[|ops| - 1])
  }

  /** Every run of operations is a run of events, with the same broker and the same dispatches. */
  lemma {:induction false} RunOfOperations(h: Hist, ops: seq<Op>)
    ensures After(h, Unrolled(h.b, ops)).b == Performed(h.b, ops)
    ensures After(h, Unrolled(h.b, ops)).flow.dispatched == h.flow.dispatched + Handed(h.b, ops)
  {
    hide Next, Perform, Events, HandedBy;
    if ops == [] {
      assert h.flow.dispatched + multiset{} == h.flow.dispatched;
    } else {
      var front, op := ops[..|ops| - 1], ops[|ops| - 1];
      RunOfOperations(h, front);
      var g := After(h, Unrolled(h.b, front));
      OperationIsEvents(g, op);
      AfterAppend(h, Unrolled(h.b, front), Events(g.b, op));
      Regroup(h.flow.dispatched, Handed(h.b, front), HandedBy(g.b, op));
    }
  }

  /** In every run of operations, reserve hands out each task at most max_retries + 1 times. */
  lemma {:induction false} HandedWithinBudget(maxDepth: int, ops: seq<Op>, id: string)
    ensures var b := Performed(B.Empty(maxDepth), ops);
            Handed(B.Empty(maxDepth), ops)[id] <= if id in b.tasks then 1 + b.tasks[id].spec.maxRetries else 0
  {
    hide After, Handed, Performed, Unrolled, Image;
    var h := Start(maxDepth, 0.0);
    RunOfOperations(h, ops);
    DispatchLimit(maxDepth, 0.0, Unrolled(h.b, ops), id);
  }

  /** Once cancelled, a task is not handed out by any later reserve. */
  lemma {:induction false} CancelledNotHanded(b: B.Broker, id: string, ops: seq<Op>)
    requires id in b.tasks
    ensures id !in Handed(B.Cancel(b, id), ops)
  {
    hide After, Handed, Performed, Unrolled, Image, Next;
    var h := Start(b.maxDepth, 0.0).(b := b);
    CancelIsEvent(h, id);
    var g := Next(h, BrokerRuns.Cancel(id));
    OneEvent(h, BrokerRuns.Cancel(id));
    RunOfOperations(g, ops);
    CancellationIsFinal(h, id, Unrolled(g.b, ops));
    assert (g.flow.dispatched + Handed(g.b, ops))[id] == g.flow.dispatched[id];
  }
}
