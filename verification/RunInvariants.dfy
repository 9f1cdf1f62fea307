/**
 * What every run of the broker keeps: the dispatch budget, no task lost, the in-flight table, the
 * depth bound, due times, and the finality of cancellation.
 */
module RunInvariants {
  import opened Models
  import opened Ordering
  import opened Bags
  import opened BrokerRuns
  import B = BrokerModel

  // ---------- The dispatch budget ----------

  /** How many entries a task has been pushed with over its life so far. */
  ghost function Owed(tasks: map<string, Task>, id: string): int {
    if id !in tasks then 0
    else 1 + if tasks[id].attempts < tasks[id].spec.maxRetries then tasks[id].attempts else tasks[id].spec.maxRetries
  }

  ghost predicate Budgeted(f: Flow, b: B.Broker) {
    forall id :: Image(f.pushes, DueId)[id] == Owed(b.tasks, id)
  }

  lemma AddedIsTarget(b: B.Broker, ev: Event)
    requires Legal(b, ev)
    ensures forall id | id in Added(b, ev) :: id in Target(ev)
  {
  }

  /** The specs that normalization leaves nonnegative. */
  lemma SpecOf(b: B.Broker, ev: Event, id: string)
    requires Legal(b, ev) && WellFormed(b)
    ensures id in b.tasks ==> b.tasks[id].spec.IsNormal()
    ensures ev.Submit? ==> ev.spec.Normalized().IsNormal()
  {
    if ev.Submit? {
      NormalizedIsNormal(ev.spec);
    }
  }

  lemma {:induction false} OwedGrows(b: B.Broker, ev: Event, id: string)
    requires Legal(b, ev) && WellFormed(b)
    ensures Owed(Apply(b, ev).tasks, id) == Owed(b.tasks, id) + Added(b, ev)[id]
  {
    if id !in Target(ev) {
      OthersUntouched(b, ev, id);
      AddedIsTarget(b, ev);
      hide Apply, Added;
    } else {
      HeapPartKeepsTables(b, ev);
      SpecOf(b, ev, id);
      hide Apply, WellFormed;
    }
  }

  lemma {:induction false} PushesGrow(f: Flow, b: B.Broker, ev: Event)
    requires Legal(b, ev)
    ensures Image(Record(f, b, ev).pushes, DueId) == Image(f.pushes, DueId) + Added(b, ev)
  {
    hide Image, Filter;
    var t := Tabled(b, ev);
    if ev.Submit? || ev.Retry? {
      ImageAdd(f.pushes, Due(ev.id, t.tasks[ev.id].availableAt), DueId);
    }
  }

  lemma {:induction false} BudgetKept(f: Flow, b: B.Broker, ev: Event)
    requires Legal(b, ev) && WellFormed(b) && Budgeted(f, b)
    ensures Budgeted(Record(f, b, ev), Apply(b, ev))
  {
    hide Image, Filter, Apply, Record, Owed, Added;
    PushesGrow(f, b, ev);
    forall id ensures Image(Record(f, b, ev).pushes, DueId)[id] == Owed(Apply(b, ev).tasks, id) {
      OwedGrows(b, ev, id);
    }
  }

  // ---------- No task is lost ----------

  ghost predicate Waiting(b: B.Broker, id: string) {
    id in b.tasks && (b.tasks[id].status.Queued? || b.tasks[id].status.Retrying?)
  }

  ghost predicate NoneLost(b: B.Broker) {
    forall id | Waiting(b, id) && id !in b.cancelled :: id in B.Entries(b)
  }

  lemma RemovalKinds(b: B.Broker, ev: Event, id: string)
    requires id in Removed(b, ev)
    ensures ev.Promote? || ev.Scan? || ev.Dispatch?
  {
  }

  lemma {:induction false} WaitingBefore(b: B.Broker, ev: Event, id: string)
    requires Legal(b, ev) && Waiting(Apply(b, ev), id) && id !in Apply(b, ev).cancelled
    ensures id in Added(b, ev) || (Waiting(b, id) && id !in b.cancelled && id !in Removed(b, ev))
  {
    if id in Target(ev) {
      HeapPartKeepsTables(b, ev);
      hide Apply, Removed;
    } else {
      OthersUntouched(b, ev, id);
      hide Apply, Removed;
      if id in Removed(b, ev) {
        RemovedAreDead(b, ev, id);
        RemovalKinds(b, ev, id);
      }
    }
  }

  lemma {:induction false} EntryCount(b: B.Broker, ev: Event, id: string)
    requires Legal(b, ev)
    ensures B.Entries(Apply(b, ev))[id] + Removed(b, ev)[id] == B.Entries(b)[id] + Added(b, ev)[id]
  {
    hide Apply, Removed, Added, B.Entries;
    EntriesEffect(b, ev);
    assert (B.Entries(Apply(b, ev)) + Removed(b, ev))[id] == (B.Entries(b) + Added(b, ev))[id];
  }

  lemma RemovedWhenAdded(b: B.Broker, ev: Event, id: string)
    requires Legal(b, ev)
    ensures id in Added(b, ev) ==> id !in Removed(b, ev)
  {
  }

  lemma {:induction false} NoneLostKept(b: B.Broker, ev: Event)
    requires Legal(b, ev) && NoneLost(b)
    ensures NoneLost(Apply(b, ev))
  {
    hide Apply, Removed, Added, B.Entries, Waiting;
    forall id | Waiting(Apply(b, ev), id) && id !in Apply(b, ev).cancelled ensures id in B.Entries(Apply(b, ev)) {
      WaitingBefore(b, ev, id);
      EntryCount(b, ev, id);
      RemovedWhenAdded(b, ev, id);
    }
  }

  // ---------- The in-flight table ----------

  /** In flight exactly when running, and then with a worker and a deadline. */
  ghost predicate InflightRow(b: B.Broker, id: string)
    requires id in b.tasks
  {
    && (id in b.inflight <==> b.tasks[id].status.Running?)
    && (id in b.inflight ==> b.tasks[id].leaseDeadline.Some? && b.tasks[id].assignedWorker.Some?)
  }

  ghost predicate InflightOk(b: B.Broker) {
    forall id | id in b.tasks :: InflightRow(b, id)
  }

  lemma {:induction false} InflightRowKept(b: B.Broker, ev: Event, id: string)
    requires Legal(b, ev) && b.inflight <= b.tasks.Keys && id in Apply(b, ev).tasks
    requires id in b.tasks ==> InflightRow(b, id)
    ensures InflightRow(Apply(b, ev), id)
  {
    if id in Target(ev) {
      HeapPartKeepsTables(b, ev);
      hide Apply;
    } else {
      OthersUntouched(b, ev, id);
      hide Apply;
    }
  }

  lemma {:induction false} InflightKept(b: B.Broker, ev: Event)
    requires Legal(b, ev) && WellFormed(b) && InflightOk(b)
    ensures InflightOk(Apply(b, ev))
  {
    hide Apply, InflightRow;
    forall id | id in Apply(b, ev).tasks ensures InflightRow(Apply(b, ev), id) {
      InflightRowKept(b, ev, id);
    }
  }

  // ---------- Depth ----------

  ghost predicate DepthOk(b: B.Broker, revivals: nat) {
    B.Depth(b) <= (if b.maxDepth > 0 then b.maxDepth else 0) + revivals
  }

  lemma {:induction false} SubsetSize<T>(a: set<T>, b: set<T>)
    requires a <= b
    ensures |a| <= |b|
  {
    assert b == a + (b - a);
  }

  lemma ActiveGrows(b: B.Broker, ev: Event)
    requires Legal(b, ev)
    ensures B.Depth(Apply(b, ev)) <= B.Depth(b) + if ev.Submit? || Revives(b, Apply(b, ev)) then 1 else 0
    ensures Apply(b, ev).maxDepth == b.maxDepth
  {
    HeapPartKeepsTables(b, ev);
    hide Apply;
    var b' := Apply(b, ev);
    var x := match ev case Submit(id, _, _, _, _) => id case Dispatch(e, _, _, _, _) => e.id
                      case Retry(id, _, _, _) => id case _ => "";
    forall id | id in B.Active(b') && id !in B.Active(b) ensures id == x && (ev.Submit? || Revives(b, b')) {
      assert id in b'.tasks;
    }
    if ev.Submit? || Revives(b, b') {
      assert B.Active(b') <= B.Active(b) + {x};
      SubsetSize(B.Active(b'), B.Active(b) + {x});
    } else {
      SubsetSize(B.Active(b'), B.Active(b));
    }
  }

  lemma DepthKept(b: B.Broker, revivals: nat, ev: Event)
    requires Legal(b, ev) && DepthOk(b, revivals)
    ensures DepthOk(Apply(b, ev), revivals + if Revives(b, Apply(b, ev)) then 1 else 0)
  {
    ActiveGrows(b, ev);
    hide Apply, Revives, B.Depth;
  }

  // ---------- Due times ----------

  /** The event's clock readings do not run backwards. */
  ghost predicate OnTime(h: Hist, ev: Event) {
    match ev
    case Submit(_, _, _, t0, t1) => h.clock <= t0 <= t1
    case Promote(now) => h.clock <= now
    case Dispatch(_, _, _, _, t) => h.clock <= t
    case Retry(_, _, t0, t1) => h.clock <= t0 <= t1
    case _ => true
  }

  /** A run under a nondecreasing clock. */
  ghost predicate Timely(h: Hist, evs: seq<Event>) {
    evs == [] || (Timely(h, evs[..|evs| - 1]) && OnTime(After(h, evs[..|evs| - 1]), evs[|evs| - 1]))
  }

  ghost function DueBy(clock: real): Due -> bool {
    (d: Due) => d.at <= clock
  }

  /** Only what is due has been released. */
  ghost predicate ReleasedDue(released: multiset<Due>, clock: real) {
    forall d | d in released :: d.at <= clock
  }

  lemma MovedAreDue(b: B.Broker, now: real)
    ensures ReleasedDue(Image(B.Moved(b, now), ToDue), now)
  {
    var moved := B.Moved(b, now);
    forall d | d in Image(moved, ToDue) ensures d.at <= now {
      ImageMember(moved, ToDue, d);
      var e :| e in moved && ToDue(e) == d;
      assert e in B.DueEntries(b, now);
    }
  }

  lemma {:induction false} ReleasedDueKept(h: Hist, ev: Event)
    requires ReleasedDue(h.flow.released, h.clock) && OnTime(h, ev)
    ensures ReleasedDue(Next(h, ev).flow.released, Next(h, ev).clock)
    ensures h.clock <= Next(h, ev).clock
  {
    if Legal(h.b, ev) {
      if ev.Promote? {
        MovedAreDue(h.b, ev.now);
      }
      hide Image, Filter, Apply, Legal, Tabled, Revives;
    }
  }

  // ---------- Cancellation ----------

  lemma CancelledNotDispatched(h: Hist, ev: Event, id: string)
    requires id in h.b.cancelled
    ensures id in Next(h, ev).b.cancelled
    ensures Next(h, ev).flow.dispatched[id] == h.flow.dispatched[id]
  {
    if Legal(h.b, ev) {
      HeapPartKeepsTables(h.b, ev);
      hide Apply, Image, Filter, Revives;
    }
  }

  // ---------- Every run ----------

  ghost predicate Inv(h: Hist) {
    && WellFormed(h.b)
    && Conserved(h.flow, h.b.ready, h.b.delayed)
    && Budgeted(h.flow, h.b)
    && NoneLost(h.b)
    && InflightOk(h.b)
    && DepthOk(h.b, h.revivals)
  }

  lemma {:induction false} InvKept(h: Hist, ev: Event)
    requires Inv(h)
    ensures Inv(Next(h, ev))
  {
    if Legal(h.b, ev) {
      WellFormedKept(h, ev);
      ConservedKept(h.flow, h.b, ev);
      BudgetKept(h.flow, h.b, ev);
      NoneLostKept(h.b, ev);
      InflightKept(h.b, ev);
      DepthKept(h.b, h.revivals, ev);
      hide Apply, Record, WellFormed, Conserved, Budgeted, NoneLost, InflightOk, DepthOk, Revives;
    }
  }

  lemma InvAtStart(maxDepth: int, clock: real)
    ensures Inv(Start(maxDepth, clock))
  {
    var h := Start(maxDepth, clock);
    assert B.Active(h.b) == {};
  }

  /** The invariant holds in every run. */
  lemma {:induction false} EveryRun(maxDepth: int, clock: real, evs: seq<Event>)
    ensures Inv(After(Start(maxDepth, clock), evs))
  {
    hide Inv, Next;
    if evs == [] {
      InvAtStart(maxDepth, clock);
    } else {
      EveryRun(maxDepth, clock, evs[..|evs| - 1]);
      InvKept(After(Start(maxDepth, clock), evs[..|evs| - 1]), evs[|evs| - 1]);
    }
  }

  lemma SumCount<T>(a: multiset<T>, b: multiset<T>, c: multiset<T>, d: multiset<T>, e: multiset<T>, x: T)
    ensures ((((a + b) + c) + d) + e)[x] == a[x] + b[x] + d[x] + (c + e)[x]
  {
  }

  /** Conservation, counted for one task. */
  lemma {:induction false} FlowCount(f: Flow, b: B.Broker, id: string)
    requires Conserved(f, b.ready, b.delayed)
    ensures Image(f.pushes, DueId)[id] ==
            f.dispatched[id] + f.dropped[id] + Image(f.lost, DueId)[id] + B.Entries(b)[id]
  {
    hide Image;
    ImageUnion(f.released + f.lost, Image(b.delayed, ToDue), DueId);
    ImageUnion(f.released, f.lost, DueId);
    ImageCompose(b.delayed, ToDue, DueId, B.DelayedId);
    SumCount(f.dispatched, f.dropped, Image(b.ready, B.ReadyId), Image(f.lost, DueId), Image(b.delayed, B.DelayedId), id);
  }

  /** In every run, for every task: dispatches, drops and entries still queued are what its attempts allow. */
  lemma {:induction false} DispatchBudget(maxDepth: int, clock: real, evs: seq<Event>, id: string)
    ensures var h := After(Start(maxDepth, clock), evs);
            h.flow.dispatched[id] + h.flow.dropped[id] + Image(h.flow.lost, DueId)[id] + B.Entries(h.b)[id]
            == Owed(h.b.tasks, id)
  {
    hide Image, After, WellFormed, Conserved, B.Entries;
    EveryRun(maxDepth, clock, evs);
    FlowCount(After(Start(maxDepth, clock), evs).flow, After(Start(maxDepth, clock), evs).b, id);
  }

  /** In every run a task is dispatched at most max_retries + 1 times, and an unknown one never. */
  lemma {:induction false} DispatchLimit(maxDepth: int, clock: real, evs: seq<Event>, id: string)
    ensures var h := After(Start(maxDepth, clock), evs);
            h.flow.dispatched[id] <= if id in h.b.tasks then 1 + h.b.tasks[id].spec.maxRetries else 0
  {
    hide Image, After, B.Entries;
    DispatchBudget(maxDepth, clock, evs, id);
  }

  /** The total number of dispatches is at most the sum of (1 + max_retries) over the submitted tasks. */
  lemma {:induction false} TotalBudget(maxDepth: int, clock: real, evs: seq<Event>)
    ensures var h := After(Start(maxDepth, clock), evs);
            |h.flow.dispatched| <= SumOver(h.b.tasks.Keys, id => if id in h.b.tasks then 1 + h.b.tasks[id].spec.maxRetries else 0)
  {
    hide After;
    var h := After(Start(maxDepth, clock), evs);
    forall id ensures h.flow.dispatched[id] <= if id in h.b.tasks then 1 + h.b.tasks[id].spec.maxRetries else 0 {
      DispatchLimit(maxDepth, clock, evs, id);
    }
    BoundedSize(h.flow.dispatched, h.b.tasks.Keys, id => if id in h.b.tasks then 1 + h.b.tasks[id].spec.maxRetries else 0);
  }

  ghost predicate HasEntry(b: B.Broker, id: string) {
    (exists e :: e in b.delayed && e.id == id) || (exists e :: e in b.ready && e.id == id)
  }

  lemma EntryOf(b: B.Broker, id: string)
    ensures id in B.Entries(b) <==> HasEntry(b, id)
  {
    ImageMember(b.delayed, B.DelayedId, id);
    ImageMember(b.ready, B.ReadyId, id);
    hide Image;
    assert (exists e :: e in b.delayed && e.id == id) <==> (exists e :: e in b.delayed && B.DelayedId(e) == id) by {
      assert forall e | e in b.delayed && e.id == id :: B.DelayedId(e) == id;
    }
    assert (exists e :: e in b.ready && e.id == id) <==> (exists e :: e in b.ready && B.ReadyId(e) == id) by {
      assert forall e | e in b.ready && e.id == id :: B.ReadyId(e) == id;
    }
  }

  /** In every run, a waiting task that was not cancelled has an entry. */
  lemma {:induction false} NoTaskLost(maxDepth: int, clock: real, evs: seq<Event>, id: string)
    requires var b := After(Start(maxDepth, clock), evs).b; Waiting(b, id) && id !in b.cancelled
    ensures HasEntry(After(Start(maxDepth, clock), evs).b, id)
  {
    hide After, HasEntry, B.Entries, WellFormed, Conserved, Budgeted, InflightOk, DepthOk;
    EveryRun(maxDepth, clock, evs);
    EntryOf(After(Start(maxDepth, clock), evs).b, id);
  }

  /** In every run, each entry's task is known, and a ready entry carries its own priority and creation time. */
  lemma {:induction false} EntriesSpeakTruly(maxDepth: int, clock: real, evs: seq<Event>, e: ReadyEntry, d: DelayedEntry)
    ensures var b := After(Start(maxDepth, clock), evs).b;
            && (d in b.delayed ==> d.id in b.tasks)
            && (e in b.ready ==> e.id in b.tasks && e.priority == b.tasks[e.id].spec.priority
                                 && e.createdAt == b.tasks[e.id].createdAt)
  {
    hide After, NoneLost, Conserved, Budgeted, InflightOk, DepthOk;
    EveryRun(maxDepth, clock, evs);
    var b := After(Start(maxDepth, clock), evs).b;
    assert e in b.ready ==> Proper(b.tasks, e);
  }

  lemma {:induction false} ReleasedDueAlong(h: Hist, evs: seq<Event>)
    requires ReleasedDue(h.flow.released, h.clock) && Timely(h, evs)
    ensures ReleasedDue(After(h, evs).flow.released, After(h, evs).clock)
  {
    if evs != [] {
      ReleasedDueAlong(h, evs[..|evs| - 1]);
      ReleasedDueKept(After(h, evs[..|evs| - 1]), evs[|evs| - 1]);
    }
  }

  lemma ReleasedWithinDue(f: Flow, clock: real, delayed: multiset<Due>)
    requires f.pushes == (f.released + f.lost) + delayed && ReleasedDue(f.released, clock)
    ensures f.released <= Filter(f.pushes, DueBy(clock))
  {
  }

  /**
   * Under a nondecreasing clock no entry is dispatched before its due time: at every moment the
   * dispatches are matched, one to one, by pushes that are due by then.
   */
  lemma NoEarlyDispatch(maxDepth: int, clock: real, evs: seq<Event>)
    requires Timely(Start(maxDepth, clock), evs)
    ensures var h := After(Start(maxDepth, clock), evs);
            h.flow.dispatched <= Image(Filter(h.flow.pushes, DueBy(h.clock)), DueId)
  {
    hide After, Timely, WellFormed, NoneLost, Budgeted, InflightOk, DepthOk;
    EveryRun(maxDepth, clock, evs);
    ReleasedDueAlong(Start(maxDepth, clock), evs);
    var h := After(Start(maxDepth, clock), evs);
    ReleasedWithinDue(h.flow, h.clock, Image(h.b.delayed, ToDue));
    ImageSplit(h.flow.released, Filter(h.flow.pushes, DueBy(h.clock)), DueId);
    hide Image, Filter;
  }

  /** Once cancelled, a task is not dispatched in any continuation, whatever is reported or retried. */
  lemma {:induction false} CancellationIsFinal(h: Hist, id: string, evs: seq<Event>)
    requires id in h.b.tasks
    ensures After(Next(h, Cancel(id)), evs).flow.dispatched[id] == h.flow.dispatched[id]
    ensures id in After(Next(h, Cancel(id)), evs).b.cancelled
  {
    if evs != [] {
      CancellationIsFinal(h, id, evs[..|evs| - 1]);
      CancelledNotDispatched(After(Next(h, Cancel(id)), evs[..|evs| - 1]), evs[|evs| - 1], id);
    }
  }

  lemma {:induction false} MaxDepthFixed(h: Hist, evs: seq<Event>)
    ensures After(h, evs).b.maxDepth == h.b.maxDepth
  {
    if evs != [] {
      MaxDepthFixed(h, evs[..|evs| - 1]);
      var g, ev := After(h, evs[..|evs| - 1]), evs[|evs| - 1];
      if Legal(g.b, ev) {
        HeapPartKeepsTables(g.b, ev);
      }
      hide Apply;
    }
  }

  /** In every run the depth exceeds the maximum by no more than the steps that made a terminal task active again. */
  lemma DepthBounded(maxDepth: int, clock: real, evs: seq<Event>)
    ensures var h := After(Start(maxDepth, clock), evs);
            B.Depth(h.b) <= (if maxDepth > 0 then maxDepth else 0) + h.revivals
  {
    hide After, B.Depth, WellFormed, Conserved, Budgeted, NoneLost, InflightOk;
    EveryRun(maxDepth, clock, evs);
    MaxDepthFixed(Start(maxDepth, clock), evs);
  }

  /** In every run a task is in flight exactly when it is running, and then it has a worker and a deadline. */
  lemma {:induction false} InflightIsRunning(maxDepth: int, clock: real, evs: seq<Event>, id: string)
    ensures var b := After(Start(maxDepth, clock), evs).b;
            && (id in b.inflight <==> id in b.tasks && b.tasks[id].status.Running?)
            && (id in b.inflight ==> b.tasks[id].leaseDeadline.Some? && b.tasks[id].assignedWorker.Some?)
  {
    hide After, Conserved, Budgeted, NoneLost, DepthOk, EntriesOk;
    EveryRun(maxDepth, clock, evs);
    var b := After(Start(maxDepth, clock), evs).b;
    assert id in b.tasks ==> InflightRow(b, id);
  }
}
