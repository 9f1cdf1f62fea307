/** Due times, leases and backoff for runs of operations: what callers of reserve can rely on. */
module OperationRuns {
  import opened Ordering
  import opened Bags
  import opened BrokerRuns
  import opened RunInvariants
  import opened Discipline
  import opened Pacing
  import opened Operations
  import B = BrokerModel

  /** The clock readings that the operations take, in order, do not run backwards. */
  ghost predicate TimelyOps(maxDepth: int, clock: real, ops: seq<Op>) {
    Timely(Start(maxDepth, clock), Unrolled(B.Empty(maxDepth), ops))
  }

  /** Every complete, every retry and every retry by the reaper finds its task in flight. */
  ghost predicate DisciplinedOps(maxDepth: int, clock: real, ops: seq<Op>) {
    Disciplined(Start(maxDepth, clock), Unrolled(B.Empty(maxDepth), ops))
  }

  ghost function HistOf(maxDepth: int, clock: real, ops: seq<Op>): Hist {
    After(Start(maxDepth, clock), Unrolled(B.Empty(maxDepth), ops))
  }

  /** Under a nondecreasing clock, at every moment the ids handed out are matched one to one by pushes already due. */
  lemma {:induction false} NothingHandedEarly(maxDepth: int, clock: real, ops: seq<Op>)
    requires TimelyOps(maxDepth, clock, ops)
    ensures var h := HistOf(maxDepth, clock, ops);
            Handed(B.Empty(maxDepth), ops) <= Image(Filter(h.flow.pushes, DueBy(h.clock)), DueId)
  {
    hide Image, Filter, After, Unrolled, Handed, Timely;
    RunOfOperations(Start(maxDepth, clock), ops);
    NoEarlyDispatch(maxDepth, clock, Unrolled(B.Empty(maxDepth), ops));
    assert multiset{} + Handed(B.Empty(maxDepth), ops) == Handed(B.Empty(maxDepth), ops);
  }

  /** The entries a reserve chooses from, after its promotion and its scan. */
  ghost function Choice(b: B.Broker, op: Op): set<ReadyEntry>
    requires op.Reserve?
  {
    B.Eligible(B.DropCancelled(B.Promote(b, op.now), op.worker.queues), op.worker, op.completed)
  }

  lemma HandedIsLeast(b: B.Broker, op: Op)
    requires op.Reserve? && HandedBy(b, op) != multiset{}
    ensures Choice(b, op) != {} && HandedBy(b, op) == multiset{Least(Choice(b, op)).id}
    ensures Events(b, op) == [BrokerRuns.Promote(op.now), Scan(op.worker.queues)]
                             + [Dispatch(Least(Choice(b, op)), op.worker, op.completed, op.leaseSeconds, op.t)]
  {
    hide B.Promote, B.DropCancelled, B.Eligible;
  }

  lemma AfterTwo(h: Hist, p: Event, s: Event)
    ensures After(h, [p, s]) == Next(Next(h, p), s)
  {
    hide Next;
    AfterOne(h, p);
    AfterAppend(h, [p], [s]);
    AfterOne(Next(h, p), s);
    assert [p] + [s] == [p, s];
  }

  lemma SubmittedSame(h: Hist, ev: Event)
    requires !ev.Submit?
    ensures Next(h, ev).submittedAt == h.submittedAt
  {
    hide Apply, Legal, Record, Revives;
  }

  lemma PromoteScan(h: Hist, now: real, queues: set<string>)
    ensures var g := Next(Next(h, BrokerRuns.Promote(now)), Scan(queues));
            && g.b == B.DropCancelled(B.Promote(h.b, now), queues)
            && g.b.tasks == h.b.tasks && g.b.inflight == h.b.inflight && g.submittedAt == h.submittedAt
            && g.flow.dispatched == h.flow.dispatched
  {
    var k := Next(h, BrokerRuns.Promote(now));
    SubmittedSame(h, BrokerRuns.Promote(now));
    SubmittedSame(k, Scan(queues));
    hide Next;
    PromoteEvent(h, now);
    ScanEvent(k, queues);
    B.PromoteKeeps(h.b, now);
    B.DropKeeps(k.b, queues);
    hide B.Promote, B.DropCancelled;
  }

  lemma DispatchLegal(b: B.Broker, op: Op, eligible: set<ReadyEntry>)
    requires op.Reserve? && eligible == B.Eligible(b, op.worker, op.completed) && eligible != {}
    ensures Legal(b, Dispatch(Least(eligible), op.worker, op.completed, op.leaseSeconds, op.t))
  {
    B.EligibleMember(b, op.worker, op.completed, Least(eligible));
  }

  /** The moment of a successful reserve at which the entry is taken: the events before it, and that event. */
  lemma {:induction false} TakingMoment(maxDepth: int, clock: real, ops: seq<Op>, op: Op) returns (evs: seq<Event>, ev: Event)
    requires op.Reserve? && HandedBy(Performed(B.Empty(maxDepth), ops), op) != multiset{}
    ensures Unrolled(B.Empty(maxDepth), ops + [op]) == evs + [ev] && ev.Dispatch? && ev.t == op.t
    ensures HandedBy(Performed(B.Empty(maxDepth), ops), op) == multiset{ev.entry.id}
    ensures var h, g := HistOf(maxDepth, clock, ops), After(Start(maxDepth, clock), evs);
            && Legal(g.b, ev)
            && g.b.tasks == h.b.tasks && g.b.inflight == h.b.inflight && g.submittedAt == h.submittedAt
            && g.flow.dispatched == h.flow.dispatched
            && h.b == Performed(B.Empty(maxDepth), ops)
  {
    hide Next, Legal, Performed, HandedBy, Events, After, B.Promote, B.DropCancelled, B.Eligible;
    var b, h0 := B.Empty(maxDepth), Start(maxDepth, clock);
    RunOfOperations(h0, ops);
    var front, h := Unrolled(b, ops), HistOf(maxDepth, clock, ops);
    HandedIsLeast(h.b, op);
    var p, s := BrokerRuns.Promote(op.now), Scan(op.worker.queues);
    evs, ev := front + [p, s], Dispatch(Least(Choice(h.b, op)), op.worker, op.completed, op.leaseSeconds, op.t);
    assert (ops + [op])[..|ops|] == ops;
    AfterAppend(h0, front, [p, s]);
    AfterTwo(h, p, s);
    PromoteScan(h, op.now, op.worker.queues);
    DispatchLegal(After(h0, evs).b, op, Choice(h.b, op));
  }

  lemma {:induction false} LastOn(h: Hist, evs: seq<Event>, ev: Event)
    ensures Timely(h, evs + [ev]) ==> Timely(h, evs) && OnTime(After(h, evs), ev)
    ensures Disciplined(h, evs + [ev]) ==> Disciplined(h, evs)
  {
    hide After;
    assert (evs + [ev])[..|evs|] == evs;
  }

  /** In disciplined runs of operations reserve never returns an id that is in flight. */
  lemma {:induction false} ReserveNeverReturnsInFlight(maxDepth: int, clock: real, ops: seq<Op>, op: Op, id: string)
    requires op.Reserve? && DisciplinedOps(maxDepth, clock, ops + [op])
    requires id in HandedBy(Performed(B.Empty(maxDepth), ops), op)
    ensures id !in Performed(B.Empty(maxDepth), ops).inflight && Waiting(Performed(B.Empty(maxDepth), ops), id)
  {
    hide After, Unrolled, Performed, HandedBy, Disciplined, Legal;
    var evs, ev := TakingMoment(maxDepth, clock, ops, op);
    LastOn(Start(maxDepth, clock), evs, ev);
    ExclusiveLease(maxDepth, clock, evs, ev);
  }

  /**
   * In disciplined runs of operations under a nondecreasing clock, the reserve that returns an id
   * after k earlier ones takes its lease no sooner than delay + backoff * k(k + 1)/2 after the submission.
   */
  lemma {:induction false} ReserveRespectsBackoff(maxDepth: int, clock: real, ops: seq<Op>, op: Op, id: string)
    requires op.Reserve? && DisciplinedOps(maxDepth, clock, ops + [op]) && TimelyOps(maxDepth, clock, ops + [op])
    requires id in HandedBy(Performed(B.Empty(maxDepth), ops), op)
    ensures var h := HistOf(maxDepth, clock, ops);
            && id in h.b.tasks && id in h.submittedAt
            && op.t >= Earliest(h, id, Handed(B.Empty(maxDepth), ops)[id])
  {
    hide After, Unrolled, Performed, Handed, HandedBy, Disciplined, Timely, OnTime, Legal, Backoff;
    var evs, ev := TakingMoment(maxDepth, clock, ops, op);
    LastOn(Start(maxDepth, clock), evs, ev);
    BackoffRespected(maxDepth, clock, evs, ev);
    RunOfOperations(Start(maxDepth, clock), ops);
    assert multiset{} + Handed(B.Empty(maxDepth), ops) == Handed(B.Empty(maxDepth), ops);
  }
}
