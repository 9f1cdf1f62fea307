/** The backoff bound: in disciplined runs under a nondecreasing clock, dispatch k + 1 waits for k backoffs. */
module Pacing {
  import opened Models
  import opened Ordering
  import opened Bags
  import opened BrokerRuns
  import opened RunInvariants
  import opened Discipline
  import B = BrokerModel

  /** The sum of the first k backoffs, backoff * (1 + 2 + ... + k). */
  ghost function Backoff(spec: TaskSpec, k: nat): real {
    spec.retryBackoffSeconds * (k * (k + 1)) as real / 2.0
  }

  lemma BackoffStep(spec: TaskSpec, k: nat)
    ensures Backoff(spec, k + 1) == Backoff(spec, k) + spec.retryBackoffSeconds * (k + 1) as real
    ensures Backoff(spec, 0) == 0.0
  {
    var r := spec.retryBackoffSeconds;
    var a, c := k * (k + 1), (k + 1) * (k + 2);
    assert c == a + 2 * (k + 1);
    calc {
      r * c as real;
      r * (a as real + 2.0 * (k + 1) as real);
      r * a as real + 2.0 * (r * (k + 1) as real);
    }
  }

  /** The earliest time of dispatch k + 1 of a task. */
  ghost function Earliest(h: Hist, id: string, k: nat): real
    requires id in h.b.tasks && id in h.submittedAt
  {
    h.submittedAt[id] + h.b.tasks[id].spec.delaySeconds + Backoff(h.b.tasks[id].spec, k)
  }

  lemma EarliestIs(h: Hist, id: string, k: nat)
    requires id in h.b.tasks && id in h.submittedAt
    ensures Earliest(h, id, k) == h.submittedAt[id] + h.b.tasks[id].spec.delaySeconds
                                  + h.b.tasks[id].spec.retryBackoffSeconds * (k * (k + 1)) as real / 2.0
  {
  }

  /** The event reads the clock as x. */
  ghost predicate Reads(ev: Event, x: real) {
    match ev
    case Submit(_, _, _, t0, t1) => x == t0 || x == t1
    case Promote(now) => x == now
    case Dispatch(_, _, _, _, t) => x == t
    case Retry(_, _, t0, t1) => x == t0 || x == t1
    case _ => false
  }

  lemma HistoryStep(h: Hist, ev: Event, id: string)
    ensures Next(h, ev).clock == h.clock || Reads(ev, Next(h, ev).clock)
    ensures id in Next(h, ev).submittedAt ==>
              (id in h.submittedAt && Next(h, ev).submittedAt[id] == h.submittedAt[id])
              || (ev.Submit? && ev.id == id && Next(h, ev).submittedAt[id] == ev.t0)
  {
    hide Apply, Record, Revives, Legal;
  }

  /** The submission time of a task is the first clock reading of a submission of that task. */
  lemma {:induction false} SubmittedAtIsRead(maxDepth: int, clock: real, evs: seq<Event>, id: string) returns (i: nat)
    requires id in After(Start(maxDepth, clock), evs).submittedAt
    ensures i < |evs| && evs[i].Submit? && evs[i].id == id
    ensures After(Start(maxDepth, clock), evs).submittedAt[id] == evs[i].t0
  {
    hide Next;
    var front, ev := evs[..|evs| - 1], evs[|evs| - 1];
    HistoryStep(After(Start(maxDepth, clock), front), ev, id);
    if id in After(Start(maxDepth, clock), front).submittedAt
       && After(Start(maxDepth, clock), evs).submittedAt[id] == After(Start(maxDepth, clock), front).submittedAt[id] {
      i := SubmittedAtIsRead(maxDepth, clock, front, id);
    } else {
      i := |evs| - 1;
    }
  }

  /** The clock of a history is the starting one or one that an event read. */
  lemma {:induction false} ClockWasRead(h: Hist, evs: seq<Event>)
    ensures After(h, evs).clock == h.clock || exists i :: 0 <= i < |evs| && Reads(evs[i], After(h, evs).clock)
  {
    hide Next, Reads;
    if evs != [] {
      var front, ev := evs[..|evs| - 1], evs[|evs| - 1];
      ClockWasRead(h, front);
      HistoryStep(After(h, front), ev, "");
      if i :| 0 <= i < |front| && Reads(front[i], After(h, front).clock) {
        assert front[i] == evs[i];
      }
      assert evs[|evs| - 1] == ev;
    }
  }

  /** Entries of a task: a delayed one is due when the task is, and a ready one was due. */
  ghost predicate EntriesTimed(b: B.Broker, id: string, clock: real)
    requires id in b.tasks
  {
    && (forall e | e in b.delayed && e.id == id :: e.availableAt == b.tasks[id].availableAt)
    && (forall e | e in b.ready && e.id == id :: b.tasks[id].availableAt <= clock)
  }

  /** Where a task stands: dispatched once per attempt, and not before its time. */
  ghost predicate PacedRow(h: Hist, id: string)
    requires id in h.b.tasks && id in h.submittedAt
  {
    var t := h.b.tasks[id];
    && (Waiting(h.b, id) ==>
          h.flow.dispatched[id] == t.attempts && t.availableAt >= Earliest(h, id, t.attempts)
          && EntriesTimed(h.b, id, h.clock))
    && (t.status.Running? ==>
          h.flow.dispatched[id] == t.attempts + 1 && h.clock >= Earliest(h, id, t.attempts))
  }

  ghost predicate Paced(h: Hist) {
    && h.submittedAt.Keys == h.b.tasks.Keys
    && forall id | id in h.b.tasks :: PacedRow(h, id)
  }

  // ---------- Where entries come from ----------

  /** The entry with which an event pushes its task, seen from the tables after the event. */
  lemma DelayedFrom(b: B.Broker, ev: Event, e: DelayedEntry)
    requires Legal(b, ev) && e in Apply(b, ev).delayed
    ensures e in b.delayed || (e.id in Added(b, ev) && e.id in Apply(b, ev).tasks
                               && e.availableAt == Apply(b, ev).tasks[e.id].availableAt)
  {
    hide Image, Filter;
    HeapPartKeepsTables(b, ev);
  }

  lemma PromotedFrom(b: B.Broker, now: real, e: ReadyEntry)
    requires e in B.Promote(b, now).ready && e !in b.ready
    ensures exists d :: d in b.delayed && d.id == e.id && d.availableAt <= now
  {
    ImageMember(B.Moved(b, now), B.ToReady(b.tasks, b.sequence), e);
    var d :| d in B.Moved(b, now) && B.ToReady(b.tasks, b.sequence)(d) == e;
    assert d in B.DueEntries(b, now);
  }

  lemma DroppedFrom(b: B.Broker, queues: set<string>, e: ReadyEntry)
    requires e in B.DropCancelled(b, queues).ready
    ensures e in b.ready
  {
  }

  lemma {:induction false} ReadyFrom(h: Hist, ev: Event, e: ReadyEntry)
    requires Legal(h.b, ev) && e in Apply(h.b, ev).ready
    ensures var b := h.b;
            || e in b.ready
            || (e.id in Added(b, ev) && e.id in Apply(b, ev).tasks
                && Apply(b, ev).tasks[e.id].availableAt <= LastReading(h, ev))
            || (exists d :: d in b.delayed && d.id == e.id && d.availableAt <= LastReading(h, ev))
  {
    hide Image, Filter, B.Promote, B.DropCancelled;
    HeapPartKeepsTables(h.b, ev);
    if ev.Promote? && e !in h.b.ready {
      PromotedFrom(h.b, ev.now, e);
    }
    if ev.Scan? {
      DroppedFrom(h.b, ev.queues, e);
    }
  }

  lemma TimedKept(h: Hist, ev: Event, id: string)
    requires Legal(h.b, ev) && OnTime(h, ev) && id in h.b.tasks && EntriesTimed(h.b, id, h.clock)
    requires id !in Target(ev)
    ensures EntriesTimed(Apply(h.b, ev), id, LastReading(h, ev))
  {
    hide Apply, Added, Legal;
    OthersUntouched(h.b, ev, id);
    AddedIsTarget(h.b, ev);
    var b' := Apply(h.b, ev);
    forall e | e in b'.delayed && e.id == id ensures e.availableAt == b'.tasks[id].availableAt {
      DelayedFrom(h.b, ev, e);
    }
    forall e | e in b'.ready && e.id == id ensures b'.tasks[id].availableAt <= LastReading(h, ev) {
      ReadyFrom(h, ev, e);
    }
  }

  /** A task without entries that is pushed has timed entries. */
  lemma {:induction false} TimedFresh(h: Hist, ev: Event, id: string)
    requires Legal(h.b, ev) && OnTime(h, ev) && id in Apply(h.b, ev).tasks && !HasEntry(h.b, id)
    ensures EntriesTimed(Apply(h.b, ev), id, LastReading(h, ev))
  {
    hide Apply, Added, Legal;
    var b' := Apply(h.b, ev);
    forall e | e in b'.delayed && e.id == id ensures e.availableAt == b'.tasks[id].availableAt {
      DelayedFrom(h.b, ev, e);
    }
    forall e | e in b'.ready && e.id == id ensures b'.tasks[id].availableAt <= LastReading(h, ev) {
      ReadyFrom(h, ev, e);
    }
  }

  // ---------- The bound is kept ----------

  lemma DispatchedCount(h: Hist, ev: Event, id: string)
    requires Legal(h.b, ev)
    ensures Next(h, ev).flow.dispatched[id] == h.flow.dispatched[id] + if ev.Dispatch? && ev.entry.id == id then 1 else 0
  {
    hide Image, Filter, Apply, Revives;
  }

  lemma {:induction false} PacedOther(h: Hist, ev: Event, id: string)
    requires Legal(h.b, ev) && OnTime(h, ev) && id !in Target(ev)
    requires id in h.b.tasks && id in h.submittedAt && PacedRow(h, id)
    ensures id in Next(h, ev).b.tasks && id in Next(h, ev).submittedAt && PacedRow(Next(h, ev), id)
  {
    OthersUntouched(h.b, ev, id);
    DispatchedCount(h, ev, id);
    if Waiting(h.b, id) {
      TimedKept(h, ev, id);
    }
    hide Apply, Record, Legal, EntriesTimed, Revives, Backoff;
  }

  /** The state before the event, as far as its own task is concerned. */
  ghost predicate Ready(h: Hist, ev: Event, id: string) {
    && Legal(h.b, ev) && OnTime(h, ev) && id in Target(ev) && Hits(h.b, ev)
    && PlacedRow(h.b, id)
    && (id in h.b.tasks ==> id in h.submittedAt && PacedRow(h, id) && InflightRow(h.b, id))
    && (id !in h.b.tasks ==> h.flow.dispatched[id] == 0)
  }

  lemma {:induction false} PacedSubmit(h: Hist, ev: Event, id: string)
    requires Ready(h, ev, id) && ev.Submit?
    ensures id in Next(h, ev).b.tasks && id in Next(h, ev).submittedAt && PacedRow(Next(h, ev), id)
  {
    EntryOf(h.b, id);
    hide HasEntry, B.Entries;
    HeapPartKeepsTables(h.b, ev);
    TimedFresh(h, ev, id);
    DispatchedCount(h, ev, id);
    BackoffStep(h.b.tasks[id := B.Enqueued(NewTask(ev.spec, ev.createdAt), ev.t0)][id].spec, 0);
    hide Apply, Record, EntriesTimed, Revives, Backoff;
  }

  lemma {:induction false} PacedRetry(h: Hist, ev: Event, id: string)
    requires Ready(h, ev, id) && ev.Retry?
    ensures id in Next(h, ev).b.tasks && id in Next(h, ev).submittedAt && PacedRow(Next(h, ev), id)
  {
    EntryOf(h.b, id);
    hide HasEntry, B.Entries;
    HeapPartKeepsTables(h.b, ev);
    TimedFresh(h, ev, id);
    DispatchedCount(h, ev, id);
    BackoffStep(h.b.tasks[id].spec, h.b.tasks[id].attempts);
    hide Apply, Record, EntriesTimed, Revives, Backoff;
  }

  lemma DispatchWaits(h: Hist, ev: Event, id: string)
    requires Ready(h, ev, id) && ev.Dispatch?
    ensures id in h.b.tasks && id in h.submittedAt && Waiting(h.b, id)
    ensures ev.t >= Earliest(h, id, h.flow.dispatched[id])
  {
    hide B.Entries, Backoff;
    EntryOf(h.b, id);
    EntryGiven(h.b, ev.entry);
    assert Waiting(h.b, id);
    assert ev.entry in h.b.ready && ev.entry.id == id;
  }

  lemma PacedDispatch(h: Hist, ev: Event, id: string)
    requires Ready(h, ev, id) && ev.Dispatch?
    ensures id in Next(h, ev).b.tasks && id in Next(h, ev).submittedAt && PacedRow(Next(h, ev), id)
  {
    hide EntriesTimed, B.Entries, PlacedRow, Backoff;
    DispatchWaits(h, ev, id);
    HeapPartKeepsTables(h.b, ev);
    DispatchedCount(h, ev, id);
    hide Apply, Record, Revives, Legal;
    var t := h.b.tasks[id];
    assert Next(h, ev).b.tasks[id] == t.(status := Running, assignedWorker := Some(ev.worker.workerId),
                                          leaseDeadline := Some(ev.t + ev.leaseSeconds));
    assert h.flow.dispatched[id] == t.attempts;
  }

  lemma PacedEnd(h: Hist, ev: Event, id: string)
    requires Ready(h, ev, id) && (ev.Complete? || ev.Cancel?)
    ensures id in Next(h, ev).b.tasks && id in Next(h, ev).submittedAt && PacedRow(Next(h, ev), id)
  {
    hide B.Entries;
    HeapPartKeepsTables(h.b, ev);
    hide Apply, Record, Revives, Backoff;
  }

  lemma {:induction false} PacedTarget(h: Hist, ev: Event, id: string)
    requires Ready(h, ev, id)
    ensures id in Next(h, ev).b.tasks && id in Next(h, ev).submittedAt && PacedRow(Next(h, ev), id)
  {
    match ev {
      case Submit(_, _, _, _, _) => PacedSubmit(h, ev, id);
      case Retry(_, _, _, _) => PacedRetry(h, ev, id);
      case Dispatch(_, _, _, _, _) => PacedDispatch(h, ev, id);
      case Complete(_, _, _) => PacedEnd(h, ev, id);
      case Cancel(_) => PacedEnd(h, ev, id);
      case _ =>
    }
  }

  /** Undispatched: the budget of an unknown task is nothing. */
  lemma UnknownUndispatched(h: Hist, id: string)
    requires Inv(h) && id !in h.b.tasks
    ensures h.flow.dispatched[id] == 0
  {
    FlowCount(h.flow, h.b, id);
    hide Image, Conserved, B.Entries, WellFormed;
  }

  lemma KeysGrow(b: B.Broker, ev: Event)
    requires Legal(b, ev)
    ensures Tabled(b, ev).tasks.Keys == b.tasks.Keys + if ev.Submit? then {ev.id} else {}
  {
  }

  lemma KeysTogether(h: Hist, ev: Event)
    requires Legal(h.b, ev) && h.submittedAt.Keys == h.b.tasks.Keys
    ensures Next(h, ev).submittedAt.Keys == Next(h, ev).b.tasks.Keys
  {
    HeapPartKeepsTables(h.b, ev);
    KeysGrow(h.b, ev);
    hide Apply, Tabled, Record, Revives, Legal;
  }

  lemma RowReady(h: Hist, ev: Event, id: string)
    requires Inv(h) && Placed(h.b) && Paced(h) && OnTime(h, ev) && Hits(h.b, ev) && Legal(h.b, ev) && id in Target(ev)
    ensures Ready(h, ev, id)
  {
    if id !in h.b.tasks {
      UnknownUndispatched(h, id);
    }
    hide Hits, OnTime, PacedRow, WellFormed, Conserved, Budgeted, NoneLost, DepthOk, Legal, PlacedRow, InflightRow;
  }

  lemma {:induction false} PacedKept(h: Hist, ev: Event)
    requires Inv(h) && Placed(h.b) && Paced(h) && OnTime(h, ev) && Hits(h.b, ev)
    ensures Paced(Next(h, ev))
  {
    if Legal(h.b, ev) {
      KeysTogether(h, ev);
      hide Next, PlacedRow, Hits, OnTime, PacedRow, WellFormed, Conserved, Budgeted, NoneLost, DepthOk, InflightRow;
      forall id | id in Next(h, ev).b.tasks ensures PacedRow(Next(h, ev), id) {
        if id in Target(ev) {
          RowReady(h, ev, id);
          PacedTarget(h, ev, id);
        } else {
          PacedOther(h, ev, id);
        }
      }
    }
  }

  lemma {:induction false} PacedAlong(maxDepth: int, clock: real, evs: seq<Event>)
    requires Disciplined(Start(maxDepth, clock), evs) && Timely(Start(maxDepth, clock), evs)
    ensures Paced(After(Start(maxDepth, clock), evs))
  {
    if evs != [] {
      var front := evs[..|evs| - 1];
      PacedAlong(maxDepth, clock, front);
      EveryRun(maxDepth, clock, front);
      DisciplinedRun(maxDepth, clock, front);
      hide Inv, Placed, Paced, Next;
      PacedKept(After(Start(maxDepth, clock), front), evs[|evs| - 1]);
    }
  }

  /**
   * In a disciplined run under a nondecreasing clock, the dispatch of a task that was dispatched k
   * times before comes no sooner than delay + backoff * k(k + 1)/2 after its submission.
   */
  lemma {:induction false} BackoffRespected(maxDepth: int, clock: real, evs: seq<Event>, ev: Event)
    requires Disciplined(Start(maxDepth, clock), evs) && Timely(Start(maxDepth, clock), evs)
    requires ev.Dispatch? && Legal(After(Start(maxDepth, clock), evs).b, ev)
    requires OnTime(After(Start(maxDepth, clock), evs), ev)
    ensures var h := After(Start(maxDepth, clock), evs);
            var id := ev.entry.id;
            var k := h.flow.dispatched[id];
            && id in h.b.tasks && id in h.submittedAt && ev.t >= Earliest(h, id, k)
            && ev.t >= h.submittedAt[id] + h.b.tasks[id].spec.delaySeconds
                       + h.b.tasks[id].spec.retryBackoffSeconds * (k * (k + 1)) as real / 2.0
  {
    hide After, Inv, Placed, Paced, Backoff, Timely, Disciplined, Earliest, Ready, Legal, OnTime;
    var h := After(Start(maxDepth, clock), evs);
    PacedAlong(maxDepth, clock, evs);
    EveryRun(maxDepth, clock, evs);
    DisciplinedRun(maxDepth, clock, evs);
    assert Hits(h.b, ev) && ev.entry.id in Target(ev);
    RowReady(h, ev, ev.entry.id);
    DispatchWaits(h, ev, ev.entry.id);
    EarliestIs(h, ev.entry.id, h.flow.dispatched[ev.entry.id]);
  }
}
