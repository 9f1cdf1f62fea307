/**
 * When the cluster's runs are disciplined. Leases may expire, slots may die and tasks may be retried
 * by hand, as long as none of it happens behind the back of a slot that is still executing the task:
 * then every report hits a live lease, the placement is exact, and executing slots hold distinct
 * tasks, each in flight and assigned to the slot's own worker.
 */
module SteadyRuns {
  import opened Models
  import opened BrokerRuns
  import opened RunInvariants
  import opened Discipline
  import opened Operations
  import opened BrokerLaws
  import opened OpEffects
  import opened Cluster
  import opened ClusterRuns
  import opened ClusterMirror
  import B = BrokerModel

  /** This slot is executing this task. */
  ghost predicate At(slots: map<string, seq<Slot>>, w: string, i: nat, id: string) {
    w in slots && i < |slots[w]| && slots[w][i] == Holding(id)
  }

  /** Some slot is executing the task. */
  ghost predicate Executing(slots: map<string, seq<Slot>>, id: string) {
    exists w, i :: At(slots, w, i, id)
  }

  /**
   * The reaper finds no expired lease of a task in execution; only executing slots report; a
   * cancellation is for a task that no slot executes; a manual retry is for one that is in flight
   * and that no slot executes, because its slot died.
   */
  ghost predicate SteadyStep(s: System, step: Step) {
    match step
    case Reap(now, _) => forall id | Executing(s.slots, id) :: !Overdue(s.h.b, id, now)
    case Report(worker, slot, r, _, _) => At(s.slots, worker, slot, r.taskId)
    case CancelTask(id) => !Executing(s.slots, id)
    case RetryTask(id, _, _) => id in s.h.b.inflight && !Executing(s.slots, id)
    case _ => true
  }

  ghost predicate Steady(s: System, steps: seq<Step>) {
    steps == [] || (Steady(s, steps[..|steps| - 1]) && SteadyStep(Run(s, steps[..|steps| - 1]), steps[|steps| - 1]))
  }

  /** The task is in flight, assigned to this worker. */
  ghost predicate LeasedTo(b: B.Broker, w: string, id: string) {
    id in b.inflight && id in b.tasks && b.tasks[id].assignedWorker == Some(w)
  }

  /** What slots execute is leased to their own workers, and no task is executed twice. */
  ghost predicate SlotsOwn(slots: map<string, seq<Slot>>, b: B.Broker) {
    && (forall w, i, id | At(slots, w, i, id) :: LeasedTo(b, w, id))
    && (forall w, i, v, j, id | At(slots, w, i, id) && At(slots, v, j, id) :: w == v && i == j)
  }

  // ---------- The events of a steady step are disciplined ----------

  ghost predicate Harmless(evs: seq<Event>) {
    forall i | 0 <= i < |evs| :: !evs[i].Complete? && !evs[i].Retry?
  }

  lemma {:induction false} HarmlessIsDisciplined(h: Hist, evs: seq<Event>)
    requires Harmless(evs)
    ensures Disciplined(h, evs)
  {
    hide After;
    if evs != [] {
      HarmlessIsDisciplined(h, evs[..|evs| - 1]);
    }
  }

  lemma OneIsDisciplined(h: Hist, ev: Event)
    requires Hits(h.b, ev)
    ensures Disciplined(h, [ev])
  {
    assert [ev][..0] == [];
    hide Next;
    assert Disciplined(h, []);
    assert After(h, []) == h;
  }

  lemma {:induction false} DisciplinedJoin(h: Hist, a: seq<Event>, c: seq<Event>)
    requires Disciplined(h, a) && Disciplined(After(h, a), c)
    ensures Disciplined(h, a + c)
  {
    hide Next, Hits;
    if c == [] {
      assert a + c == a;
    } else {
      assert (a + c)[..|a + c| - 1] == a + c[..|c| - 1];
      DisciplinedJoin(h, a, c[..|c| - 1]);
      AfterAppend(h, a, c[..|c| - 1]);
    }
  }

  lemma {:induction false} SubmitsHarmless(batch: seq<B.Submission>)
    ensures Harmless(SubmitEvents(batch))
  {
    if batch != [] {
      SubmitsHarmless(batch[..|batch| - 1]);
    }
  }

  /** Until it is visited, a task in flight stays in flight, whatever the reaper did to the tasks before it. */
  lemma {:induction false} StillInFlight(b: B.Broker, now: real, visits: seq<B.Visit>, id: string)
    requires DistinctVisits(visits) && !Visited(visits, id) && id in b.inflight
    ensures id in B.Requeue(b, now, visits).0.inflight
  {
    hide B.Requeue, B.Entries;
    ReapPrefix(b, now, visits, id);
  }

  lemma LastUnvisited(visits: seq<B.Visit>)
    requires DistinctVisits(visits) && visits != []
    ensures DistinctVisits(visits[..|visits| - 1]) && !Visited(visits[..|visits| - 1], visits[|visits| - 1].id)
  {
  }

  /** The reaper's own retries hit: it visits only what is in flight, each once. */
  lemma {:induction false} ReapingIsDisciplined(h: Hist, now: real, visits: seq<B.Visit>)
    requires DistinctVisits(visits) && forall i | 0 <= i < |visits| :: visits[i].id in h.b.inflight
    ensures Disciplined(h, RequeueEvents(h.b, now, visits))
  {
    hide After, B.Requeue, B.LeaseExpired;
    if visits != [] {
      var front, v := visits[..|visits| - 1], visits[|visits| - 1];
      ReapingIsDisciplined(h, now, front);
      RequeueIsEvents(h, now, front);
      LastUnvisited(visits);
      StillInFlight(h.b, now, front, v.id);
      var evs := RequeueEvents(h.b, now, front);
      if B.LeaseExpired(B.Requeue(h.b, now, front).0, v.id, now) {
        OneIsDisciplined(After(h, evs), BrokerRuns.Retry(v.id, "lease expired", v.t0, v.t1));
        DisciplinedJoin(h, evs, [BrokerRuns.Retry(v.id, "lease expired", v.t0, v.t1)]);
      } else {
        assert evs + [] == evs;
      }
    }
  }

  lemma VisitsInFlight(s: System, now: real, visits: seq<B.Visit>)
    requires Enabled(s, Reap(now, visits))
    ensures DistinctVisits(visits) && forall i | 0 <= i < |visits| :: visits[i].id in s.h.b.inflight
  {
    forall i | 0 <= i < |visits| ensures visits[i].id in s.h.b.inflight {
      assert Visited(visits, visits[i].id);
    }
  }

  lemma ReportIsDisciplined(s: System, step: Step)
    requires Enabled(s, step) && step.Report? && SteadyStep(s, step) && SlotsOwn(s.slots, s.h.b)
    ensures Disciplined(s.h, Events(s.h.b, OpOf(step).value))
  {
    hide Disciplined;
    assert At(s.slots, step.worker, step.slot, step.result.taskId);
    OneIsDisciplined(s.h, Events(s.h.b, OpOf(step).value)[0]);
  }

  lemma BatchIsDisciplined(h: Hist, batch: seq<B.Submission>)
    ensures Disciplined(h, Events(h.b, SubmitMany(batch)))
  {
    hide Disciplined;
    SubmitsHarmless(batch);
    HarmlessIsDisciplined(h, Events(h.b, SubmitMany(batch)));
  }

  lemma ReserveHarmless(b: B.Broker, op: Op)
    requires op.Reserve?
    ensures Harmless(Events(b, op))
  {
    hide B.Eligible, B.DropCancelled, B.Promote;
  }

  lemma OthersHarmless(b: B.Broker, op: Op)
    requires op.SubmitOne? || op.Cancel? || op.Snapshot?
    ensures Harmless(Events(b, op))
  {
    hide Allowed;
  }

  lemma OtherIsDisciplined(s: System, step: Step)
    requires OpOf(step).Some?
    requires step.Submit? || step.Attempt? || step.CancelTask? || step.Snapshot?
    ensures Disciplined(s.h, Events(s.h.b, OpOf(step).value))
  {
    hide Disciplined, Harmless, Events;
    if step.Attempt? {
      ReserveHarmless(s.h.b, OpOf(step).value);
    } else {
      OthersHarmless(s.h.b, OpOf(step).value);
    }
    HarmlessIsDisciplined(s.h, Events(s.h.b, OpOf(step).value));
  }

  lemma SteadyIsDisciplined(s: System, step: Step)
    requires Enabled(s, step) && SteadyStep(s, step) && SlotsOwn(s.slots, s.h.b) && OpOf(step).Some?
    ensures Disciplined(s.h, Events(s.h.b, OpOf(step).value))
  {
    hide Disciplined, Enabled, SlotsOwn, RequeueEvents, SubmitEvents, ReserveEvents;
    match step {
      case Report(_, _, _, _, _) => ReportIsDisciplined(s, step);
      case Reap(now, visits) =>
        VisitsInFlight(s, now, visits);
        ReapingIsDisciplined(s.h, now, visits);
      case RetryTask(id, t0, t1) => OneIsDisciplined(s.h, BrokerRuns.Retry(id, "manual retry", t0, t1));
      case SubmitBatch(batch) => BatchIsDisciplined(s.h, batch);
      case _ => OtherIsDisciplined(s, step);
    }
  }

  lemma SteadyPlaced(s: System, step: Step)
    requires SteadyStep(s, step) && SlotsOwn(s.slots, s.h.b) && Inv(s.h) && Placed(s.h.b)
    ensures Inv(Do(s, step).h) && Placed(Do(s, step).h.b) && Do(s, step).h.revivals == s.h.revivals
  {
    hide Enabled, SteadyStep, SlotsOwn, Inv, Placed, Around, OpOf, Events;
    if Enabled(s, step) && OpOf(step).Some? {
      SteadyIsDisciplined(s, step);
      DisciplineKeeps(s.h, Events(s.h.b, OpOf(step).value));
    }
  }

  // ---------- Slots own what they execute ----------

  lemma PromotedPlaced(b: B.Broker, now: real)
    requires Placed(b) && (forall id | id in b.tasks :: InflightRow(b, id)) && WellFormed(b)
    ensures Placed(B.Promote(b, now)) && InflightOk(B.Promote(b, now))
  {
    hide Placed, InflightRow, WellFormed, B.Entries;
    assert InflightOk(b);
    PlacedKept(b, BrokerRuns.Promote(now));
    InflightKept(b, BrokerRuns.Promote(now));
    hide InflightOk, B.Promote;
  }

  /** Where the placement is exact, reserve hands out a waiting task, never one in flight. */
  lemma ReserveTakesWaiting(b: B.Broker, w: WorkerInfo, completed: set<string>, leaseSeconds: real, now: real, t: real)
    requires Placed(b) && (forall id | id in b.tasks :: InflightRow(b, id)) && WellFormed(b)
    ensures var best := B.Reserve(b, w, completed, leaseSeconds, now, t).1;
            best.Some? ==> best.value in b.tasks && Waiting(b, best.value) && best.value !in b.inflight
  {
    hide B.PopEligible, B.Promote, B.Entries, Placed;
    B.PromoteKeeps(b, now);
    var p := B.Promote(b, now);
    if B.PopEligible(p, w, completed).1.Some? {
      var e := SelectionTakesLeast(p, w, completed);
      PromotedPlaced(b, now);
      AcceptsWhatSuits(w, p.tasks[e.id].spec);
      DispatchOnlyWaiting(p, Dispatch(e, w, completed, leaseSeconds, t));
    }
  }

  /** Executing slots keep their leases when only tasks that none of them executes are touched. */
  lemma OwnByOp(slots: map<string, seq<Slot>>, b: B.Broker, op: Op)
    requires SlotsOwn(slots, b) && forall id | id in Touched(b, op) :: !Executing(slots, id)
    ensures SlotsOwn(slots, Perform(b, op))
  {
    hide Perform, Touched, At;
    forall w, i, id | At(slots, w, i, id) ensures LeasedTo(Perform(b, op), w, id) {
      assert Executing(slots, id);
      assert LeasedTo(b, w, id);
      OthersKept(b, op, id);
    }
  }

  lemma OwnMore(slots: map<string, seq<Slot>>, b: B.Broker, w: string, i: nat, id: string, b': B.Broker)
    requires SlotsOwn(slots, b) && w in slots && i < |slots[w]| && slots[w][i].Free? && id !in b.inflight
    requires LeasedTo(b', w, id) && forall x | x != id :: SameRow(b, b', x)
    ensures SlotsOwn(SetSlot(slots, w, i, Holding(id)), b')
  {
    var slots' := SetSlot(slots, w, i, Holding(id));
    forall v, j, x ensures At(slots', v, j, x) <==> At(slots, v, j, x) || (v == w && j == i && x == id) {
    }
    hide At;
    forall v, j, x | At(slots', v, j, x) ensures LeasedTo(b', v, x) {
      assert At(slots, v, j, x) ==> LeasedTo(b, v, x) && SameRow(b, b', x);
    }
  }

  lemma OwnLess(slots: map<string, seq<Slot>>, b: B.Broker, w: string, i: nat, id: string, x: Slot, b': B.Broker)
    requires SlotsOwn(slots, b) && At(slots, w, i, id) && !x.Holding?
    requires forall y | y != id :: SameRow(b, b', y)
    ensures SlotsOwn(SetSlot(slots, w, i, x), b')
  {
    var slots' := SetSlot(slots, w, i, x);
    forall v, j, y ensures At(slots', v, j, y) <==> At(slots, v, j, y) && !(v == w && j == i) {
    }
    hide At;
    forall v, j, y | At(slots', v, j, y) ensures LeasedTo(b', v, y) {
      assert LeasedTo(b, v, y) && SameRow(b, b', y);
    }
  }

  lemma OwnLaunch(slots: map<string, seq<Slot>>, b: B.Broker, w: string, capacity: nat)
    requires SlotsOwn(slots, b) && w !in slots
    ensures SlotsOwn(slots[w := seq(capacity, _ => Free)], b)
  {
    var slots' := slots[w := seq(capacity, _ => Free)];
    forall v, j, x ensures At(slots', v, j, x) <==> At(slots, v, j, x) {
    }
    hide At;
  }

  lemma ReservedIsLeased(b: B.Broker, step: Step)
    requires step.Attempt? && Best(b, step).Some?
    ensures LeasedTo(Perform(b, OpOf(step).value), step.info.workerId, Best(b, step).value)
  {
    hide B.Reserve;
    ReserveTables(b, step.info, step.completed, step.leaseSeconds, step.now, step.t);
  }

  lemma OwnAttempt(s: System, step: Step)
    requires step.Attempt? && Enabled(s, step) && SlotsOwn(s.slots, s.h.b) && Inv(s.h) && Placed(s.h.b)
    ensures SlotsOwn(Do(s, step).slots, Do(s, step).h.b)
  {
    hide Operate, Placed, Inv, Events, B.Reserve, SlotsOwn, Touched, Perform, LeasedTo;
    InvIsWellFormed(s.h);
    BrokerStep(s, step);
    StepTouches(s, step);
    var b, op := s.h.b, OpOf(step).value;
    ReserveTakesWaiting(b, step.info, step.completed, step.leaseSeconds, step.now, step.t);
    if Best(b, step).Some? {
      var id := Best(b, step).value;
      forall x | x != id ensures SameRow(b, Perform(b, op), x) {
        OthersKept(b, op, x);
      }
      hide WellFormed, InflightRow;
      ReservedIsLeased(b, step);
      OwnMore(s.slots, b, step.info.workerId, step.slot, id, Perform(b, op));
    } else {
      OwnByOp(s.slots, b, op);
    }
  }

  lemma OwnReport(s: System, step: Step)
    requires step.Report? && Enabled(s, step) && SteadyStep(s, step) && SlotsOwn(s.slots, s.h.b)
    ensures SlotsOwn(Do(s, step).slots, Do(s, step).h.b)
  {
    hide Operate, Perform, SlotsOwn, Touched;
    BrokerStep(s, step);
    StepTouches(s, step);
    var id, op := step.result.taskId, OpOf(step).value;
    forall x | x != id ensures SameRow(s.h.b, Perform(s.h.b, op), x) {
      OthersKept(s.h.b, op, x);
    }
    hide OpOf, SameRow;
    OwnLess(s.slots, s.h.b, step.worker, step.slot, id, Free, Perform(s.h.b, op));
  }

  lemma OwnDie(s: System, step: Step)
    requires step.Die? && Enabled(s, step) && SlotsOwn(s.slots, s.h.b)
    ensures SlotsOwn(Do(s, step).slots, Do(s, step).h.b)
  {
    hide SlotsOwn;
    var id := s.slots[step.worker][step.slot].id;
    assert At(s.slots, step.worker, step.slot, id);
    OwnLess(s.slots, s.h.b, step.worker, step.slot, id, Dead(id), s.h.b);
  }

  lemma OwnLaunched(s: System, step: Step)
    requires step.Launch? && Enabled(s, step) && SlotsOwn(s.slots, s.h.b)
    ensures SlotsOwn(Do(s, step).slots, Do(s, step).h.b)
  {
    hide SlotsOwn;
    OwnLaunch(s.slots, s.h.b, step.worker, step.capacity);
  }

  /** The sweep touches only expired leases, and those no slot executes. */
  lemma ReapTouchesNone(s: System, step: Step, id: string)
    requires step.Reap? && Enabled(s, step) && SteadyStep(s, step) && id in Touched(s.h.b, OpOf(step).value)
    ensures !Executing(s.slots, id)
  {
    hide B.Requeue, B.Entries, Executing;
    ReapPrefix(s.h.b, step.now, step.visits, id);
  }

  /** The other steps leave the slots alone, and touch no task that a slot executes. */
  lemma OtherTouchesNone(s: System, step: Step, id: string)
    requires Enabled(s, step) && SteadyStep(s, step) && SlotsOwn(s.slots, s.h.b) && s.h.b.inflight <= s.h.b.tasks.Keys
    requires step.Submit? || step.SubmitBatch? || step.CancelTask? || step.RetryTask? || step.Snapshot?
    requires id in Touched(s.h.b, OpOf(step).value)
    ensures !Executing(s.slots, id)
  {
    hide B.SubmitEach, B.Depth, At;
    if Executing(s.slots, id) {
      var w, i :| At(s.slots, w, i, id);
      assert LeasedTo(s.h.b, w, id);
      hide SlotsOwn, Executing;
      if step.SubmitBatch? {
        BatchEffect(s.h.b, step.batch, id);
      }
    }
  }

  lemma SlotsSame(s: System, step: Step)
    requires Enabled(s, step)
    requires !step.Attempt? && !step.Launch? && !step.Report? && !step.Die?
    ensures Do(s, step).slots == s.slots
  {
    hide Enabled, Operate, B.Depth, B.SubmitEach, Upserts, BatchIds, B.Requeue;
  }

  lemma OwnOther(s: System, step: Step)
    requires Enabled(s, step) && SteadyStep(s, step) && SlotsOwn(s.slots, s.h.b) && s.h.b.inflight <= s.h.b.tasks.Keys
    requires !step.Attempt? && !step.Launch? && !step.Report? && !step.Die?
    ensures SlotsOwn(Do(s, step).slots, Do(s, step).h.b)
  {
    hide Enabled, Operate, SteadyStep, SlotsOwn, Touched, Perform, Around, Executing, Do;
    BrokerStep(s, step);
    SlotsSame(s, step);
    if OpOf(step).Some? {
      var op := OpOf(step).value;
      forall id | id in Touched(s.h.b, op) ensures !Executing(s.slots, id) {
        if step.Reap? {
          ReapTouchesNone(s, step, id);
        } else {
          OtherTouchesNone(s, step, id);
        }
      }
      OwnByOp(s.slots, s.h.b, op);
    }
  }

  lemma OwnKept(s: System, step: Step)
    requires SteadyStep(s, step) && SlotsOwn(s.slots, s.h.b) && Inv(s.h) && Placed(s.h.b)
    ensures SlotsOwn(Do(s, step).slots, Do(s, step).h.b)
  {
    hide Inv, Placed, Operate, SlotsOwn, SteadyStep, Enabled, Around;
    if Enabled(s, step) {
      InvIsWellFormed(s.h);
      match step {
        case Attempt(_, _, _, _, _, _) => OwnAttempt(s, step);
        case Report(_, _, _, _, _) => OwnReport(s, step);
        case Launch(_, _) => OwnLaunched(s, step);
        case Die(_, _) => OwnDie(s, step);
        case _ => OwnOther(s, step);
      }
    }
  }

  // ---------- Steady runs ----------

  ghost predicate SteadyInv(s: System) {
    Inv(s.h) && Placed(s.h.b) && s.h.revivals == 0 && SlotsOwn(s.slots, s.h.b)
  }

  lemma OwnNothing(b: B.Broker)
    ensures SlotsOwn(map[], b)
  {
  }

  /** In every steady run the placement is exact, nothing was revived, and slots own what they execute. */
  lemma {:induction false} EverySteadyRun(maxDepth: int, clock: real, steps: seq<Step>)
    requires Steady(Boot(maxDepth, clock), steps)
    ensures SteadyInv(Run(Boot(maxDepth, clock), steps))
  {
    hide Inv, Placed, Do, SlotsOwn;
    if steps == [] {
      InvAtStart(maxDepth, clock);
      PlacedAtStart(maxDepth, clock);
      OwnNothing(Boot(maxDepth, clock).h.b);
    } else {
      var front := steps[..|steps| - 1];
      EverySteadyRun(maxDepth, clock, front);
      SteadyPlaced(Run(Boot(maxDepth, clock), front), steps[|steps| - 1]);
      OwnKept(Run(Boot(maxDepth, clock), front), steps[|steps| - 1]);
    }
  }

  lemma StepIsDisciplined(s: System, step: Step)
    requires SteadyStep(s, step) && SlotsOwn(s.slots, s.h.b)
    ensures Do(s, step).h == After(s.h, StepEvents(s, step)) && Disciplined(s.h, StepEvents(s, step))
  {
    hide Enabled, SteadyStep, SlotsOwn, Around, OpOf, Events, Next;
    if Enabled(s, step) && OpOf(step).Some? {
      SteadyIsDisciplined(s, step);
    }
  }

  /** A steady run is, for the broker, a disciplined run. */
  lemma {:induction false} SteadyRunIsDisciplined(maxDepth: int, clock: real, steps: seq<Step>)
    requires Steady(Boot(maxDepth, clock), steps)
    ensures var evs := RunEvents(Boot(maxDepth, clock), steps);
            Run(Boot(maxDepth, clock), steps).h == After(Start(maxDepth, clock), evs)
            && Disciplined(Start(maxDepth, clock), evs)
  {
    hide Do, Disciplined, Inv, Placed, SlotsOwn, Next, StepEvents, SteadyStep;
    if steps == [] {
      assert Disciplined(Start(maxDepth, clock), []) by { HarmlessIsDisciplined(Start(maxDepth, clock), []); }
    } else {
      var front, step := steps[..|steps| - 1], steps[|steps| - 1];
      var s := Run(Boot(maxDepth, clock), front);
      SteadyRunIsDisciplined(maxDepth, clock, front);
      EverySteadyRun(maxDepth, clock, front);
      StepIsDisciplined(s, step);
      AfterAppend(Start(maxDepth, clock), RunEvents(Boot(maxDepth, clock), front), StepEvents(s, step));
      DisciplinedJoin(Start(maxDepth, clock), RunEvents(Boot(maxDepth, clock), front), StepEvents(s, step));
    }
  }

  ghost predicate SomeDead(slots: map<string, seq<Slot>>) {
    exists w, i :: w in slots && 0 <= i < |slots[w]| && slots[w][i].Dead?
  }

  lemma HolderIn(slots: map<string, seq<Slot>>, w: string, id: string) returns (i: nat)
    requires HeldBy(slots, w, id)
    ensures w in slots && i < |slots[w]| && !slots[w][i].Free? && slots[w][i].id == id
  {
    i :| i < |slots[w]| && !slots[w][i].Free? && slots[w][i].id == id;
  }

  /**
   * In a steady run a task that a slot executes is in flight, assigned to the slot's worker, and
   * executed by no other slot; and a task in flight is held by a slot of the worker it is assigned
   * to, which executes it unless that slot died.
   */
  lemma {:induction false} OneHolder(maxDepth: int, clock: real, steps: seq<Step>, id: string) returns (w: string, i: nat)
    requires Steady(Boot(maxDepth, clock), steps)
    ensures var s := Run(Boot(maxDepth, clock), steps);
            && (forall v, j | At(s.slots, v, j, id) :: LeasedTo(s.h.b, v, id))
            && (forall v, j, u, k | At(s.slots, v, j, id) && At(s.slots, u, k, id) :: v == u && j == k)
            && (id in s.h.b.inflight ==>
                  LeasedTo(s.h.b, w, id) && HasSlot(s, w, i) && !s.slots[w][i].Free? && s.slots[w][i].id == id)
            && (!SomeDead(s.slots) ==> (id in s.h.b.inflight <==> At(s.slots, w, i, id)))
  {
    hide Steady, Run, Inv, Placed, TopoOk, MirrorOk, ResultsOk, HeldBy;
    EverySteadyRun(maxDepth, clock, steps);
    EverySystemRun(maxDepth, clock, steps);
    var s := Run(Boot(maxDepth, clock), steps);
    w, i := "", 0;
    if id in s.h.b.inflight {
      assert LeaseHeld(s.h.b, s.slots, id);
      w := s.h.b.tasks[id].assignedWorker.value;
      i := HolderIn(s.slots, w, id);
      assert s.slots[w][i].Dead? || At(s.slots, w, i, id);
    }
  }
}
