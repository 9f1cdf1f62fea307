/**
 * Disciplined runs: every completion and every retry hits a task that is in flight at that moment.
 * In them each task has exactly the entries its status calls for, and no task is handed out while it
 * is in flight; Pacing shows that successive dispatches are spaced by the backoff.
 */
module Discipline {
  import opened Models
  import opened Ordering
  import opened Bags
  import opened BrokerRuns
  import opened RunInvariants
  import B = BrokerModel

  ghost predicate Hits(b: B.Broker, ev: Event) {
    (ev.Complete? || ev.Retry?) ==> ev.id in b.inflight
  }

  ghost predicate Disciplined(h: Hist, evs: seq<Event>) {
    evs == [] || (Disciplined(h, evs[..|evs| - 1]) && Hits(After(h, evs[..|evs| - 1]).b, evs[|evs| - 1]))
  }

  // ---------- Exact placement ----------

  /** The number of entries a status allows; a leftover entry of a cancelled task is known as such. */
  ghost predicate PlacedRow(b: B.Broker, id: string) {
    var n := B.Entries(b)[id];
    if id !in b.tasks then n == 0 && id !in b.cancelled
    else
      && (id in b.cancelled ==> b.tasks[id].status.Cancelled?)
      && match b.tasks[id].status
         case Queued => n == 1
         case Retrying => n == 1
         case Running => n == 0
         case Succeeded => n == 0
         case Failed => n == 0
         case DeadLettered => n == 0
         case Cancelled => n <= 1 && (n == 1 ==> id in b.cancelled)
         case Pending => false
         case Acked => false
  }

  ghost predicate Placed(b: B.Broker) {
    forall id :: PlacedRow(b, id)
  }

  lemma PlacedOther(b: B.Broker, ev: Event, id: string)
    requires Legal(b, ev) && id !in Target(ev) && PlacedRow(b, id)
    ensures PlacedRow(Apply(b, ev), id)
  {
    hide Apply, Legal, Removed, Added, B.Entries;
    OthersUntouched(b, ev, id);
    EntryCount(b, ev, id);
    AddedIsTarget(b, ev);
    if id in Removed(b, ev) {
      RemovedAreDead(b, ev, id);
      RemovalKinds(b, ev, id);
    }
  }

  /** What an event does to the entries of its own task. */
  lemma TargetCounts(b: B.Broker, ev: Event, id: string)
    requires Legal(b, ev) && id in Target(ev)
    ensures Removed(b, ev)[id] == if ev.Dispatch? then 1 else 0
    ensures Added(b, ev)[id] ==
            if ev.Submit? || (ev.Retry? && !Tabled(b, ev).tasks[id].status.DeadLettered?) then 1 else 0
  {
    hide Image, Filter;
  }

  lemma EntryGiven(b: B.Broker, e: ReadyEntry)
    requires e in b.ready
    ensures HasEntry(b, e.id)
  {
  }

  lemma {:induction false} PlacedTarget(b: B.Broker, ev: Event, id: string)
    requires Legal(b, ev) && id in Target(ev) && Hits(b, ev) && PlacedRow(b, id)
    requires id in b.tasks ==> InflightRow(b, id)
    ensures PlacedRow(Apply(b, ev), id)
  {
    hide Apply, B.Entries, HasEntry, Removed, Added;
    EntryCount(b, ev, id);
    TargetCounts(b, ev, id);
    HeapPartKeepsTables(b, ev);
    if ev.Dispatch? {
      EntryOf(b, id);
      EntryGiven(b, ev.entry);
    }
  }

  lemma PlacedKept(b: B.Broker, ev: Event)
    requires Legal(b, ev) && Placed(b) && InflightOk(b) && Hits(b, ev)
    ensures Placed(Apply(b, ev))
  {
    hide Apply, Legal, PlacedRow, InflightRow, Hits;
    forall id ensures PlacedRow(Apply(b, ev), id) {
      if id in Target(ev) {
        PlacedTarget(b, ev, id);
      } else {
        PlacedOther(b, ev, id);
      }
    }
  }

  /** In a placed broker no entry of a running or finished task can be taken. */
  lemma DispatchOnlyWaiting(b: B.Broker, ev: Event)
    requires Legal(b, ev) && ev.Dispatch? && Placed(b) && InflightOk(b)
    ensures Waiting(b, ev.entry.id) && ev.entry.id !in b.inflight
  {
    var id := ev.entry.id;
    EntryOf(b, id);
    assert HasEntry(b, id);
    assert PlacedRow(b, id) && InflightRow(b, id);
    hide B.Entries, HasEntry, Placed, InflightOk;
  }

  lemma NoRevival(b: B.Broker, ev: Event)
    requires Legal(b, ev) && Placed(b) && InflightOk(b) && Hits(b, ev)
    ensures !Revives(b, Apply(b, ev))
  {
    if ev.Dispatch? {
      DispatchOnlyWaiting(b, ev);
    }
    HeapPartKeepsTables(b, ev);
    hide Apply, B.Entries, Placed;
    forall id | id in b.tasks && id in Apply(b, ev).tasks && Terminal(b.tasks[id].status)
      ensures Terminal(Apply(b, ev).tasks[id].status)
    {
      assert InflightRow(b, id);
    }
  }

  /** Discipline keeps the placement exact and revives nothing. */
  lemma {:induction false} DisciplineKeeps(h: Hist, evs: seq<Event>)
    requires Inv(h) && Placed(h.b) && Disciplined(h, evs)
    ensures Inv(After(h, evs)) && Placed(After(h, evs).b) && After(h, evs).revivals == h.revivals
  {
    if evs != [] {
      var g, ev := After(h, evs[..|evs| - 1]), evs[|evs| - 1];
      DisciplineKeeps(h, evs[..|evs| - 1]);
      InvKept(g, ev);
      if Legal(g.b, ev) {
        PlacedKept(g.b, ev);
        NoRevival(g.b, ev);
      }
      hide Apply, Placed, Revives, WellFormed, Conserved, Budgeted, NoneLost, DepthOk, Legal;
    }
  }

  lemma PlacedAtStart(maxDepth: int, clock: real)
    ensures Placed(Start(maxDepth, clock).b)
  {
    hide Image;
    forall id ensures PlacedRow(Start(maxDepth, clock).b, id) {
      EntryOf(Start(maxDepth, clock).b, id);
    }
  }

  lemma {:induction false} DisciplinedRun(maxDepth: int, clock: real, evs: seq<Event>)
    requires Disciplined(Start(maxDepth, clock), evs)
    ensures var h := After(Start(maxDepth, clock), evs); Placed(h.b) && h.revivals == 0
  {
    hide Placed, Inv, Disciplined;
    PlacedAtStart(maxDepth, clock);
    InvAtStart(maxDepth, clock);
    DisciplineKeeps(Start(maxDepth, clock), evs);
  }

  /** In disciplined runs a dispatched task is waiting: never in flight, so no two live leases on one task. */
  lemma {:induction false} ExclusiveLease(maxDepth: int, clock: real, evs: seq<Event>, ev: Event)
    requires Disciplined(Start(maxDepth, clock), evs) && ev.Dispatch?
    requires Legal(After(Start(maxDepth, clock), evs).b, ev)
    ensures var b := After(Start(maxDepth, clock), evs).b;
            Waiting(b, ev.entry.id) && ev.entry.id !in b.inflight && B.Entries(b)[ev.entry.id] == 1
  {
    DisciplinedRun(maxDepth, clock, evs);
    EveryRun(maxDepth, clock, evs);
    var b := After(Start(maxDepth, clock), evs).b;
    DispatchOnlyWaiting(b, ev);
    assert PlacedRow(b, ev.entry.id);
    hide After, WellFormed, Conserved, Budgeted, NoneLost, DepthOk, Placed, B.Entries;
  }

  // ---------- Depth and snapshot agree ----------

  /** The cancelled tasks that still have an entry. */
  ghost function Leftover(b: B.Broker): set<string> {
    set id | id in b.tasks && b.tasks[id].status.Cancelled? && id in B.Entries(b)
  }

  ghost function WaitingIds(b: B.Broker): set<string> {
    set id | id in b.tasks && Waiting(b, id)
  }

  lemma EntriesAreDistinct(b: B.Broker)
    requires Placed(b)
    ensures |b.ready| + |b.delayed| == |WaitingIds(b)| + |Leftover(b)|
  {
    hide Image;
    assert |B.Entries(b)| == |b.ready| + |b.delayed|;
    hide B.Entries;
    forall id ensures B.Entries(b)[id] == if id in WaitingIds(b) + Leftover(b) then 1 else 0 {
      assert PlacedRow(b, id);
    }
    DistinctSize(B.Entries(b), WaitingIds(b) + Leftover(b));
    DisjointSize(WaitingIds(b), Leftover(b));
  }

  lemma ActiveSplits(b: B.Broker)
    requires Placed(b) && InflightOk(b) && b.inflight <= b.tasks.Keys
    ensures B.Depth(b) == |WaitingIds(b)| + |b.inflight|
  {
    hide B.Entries;
    forall id ensures id in B.Active(b) <==> id in WaitingIds(b) + b.inflight {
      assert PlacedRow(b, id);
      assert id in b.tasks ==> InflightRow(b, id);
    }
    assert B.Active(b) == WaitingIds(b) + b.inflight;
    forall id ensures !(id in WaitingIds(b) && id in b.inflight) {
      assert id in b.tasks ==> InflightRow(b, id);
    }
    DisjointSize(WaitingIds(b), b.inflight);
  }

  /** In disciplined runs what the snapshot counts is the depth and the leftover entries of cancelled tasks. */
  lemma {:induction false} SnapshotAgreesWithDepth(maxDepth: int, clock: real, evs: seq<Event>)
    requires Disciplined(Start(maxDepth, clock), evs)
    ensures var b := After(Start(maxDepth, clock), evs).b;
            var s := B.Snapshot(b);
            && s.queued + s.delayed + s.inflight == B.Depth(b) + |Leftover(b)|
            && B.Depth(b) <= if maxDepth > 0 then maxDepth else 0
  {
    DisciplinedRun(maxDepth, clock, evs);
    EveryRun(maxDepth, clock, evs);
    MaxDepthFixed(Start(maxDepth, clock), evs);
    var b := After(Start(maxDepth, clock), evs).b;
    hide After, Conserved, Budgeted, NoneLost, EntriesOk, B.Entries, Placed;
    EntriesAreDistinct(b);
    ActiveSplits(b);
    hide InflightOk, Leftover, WaitingIds, B.Depth;
  }
}
