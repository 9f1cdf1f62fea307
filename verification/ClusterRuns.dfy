/**
 * What every run of the scheduler and its workers keeps: leases held by slots, dispatches in
 * dependency order, and the store as a mirror of the live tasks.
 */
module ClusterRuns {
  import opened Models
  import opened Bags
  import opened BrokerRuns
  import opened RunInvariants
  import opened Operations
  import opened BrokerLaws
  import opened OpEffects
  import opened Store
  import opened Cluster
  import B = BrokerModel

  // ---------- The broker inside the cluster ----------

  lemma InvIsWellFormed(h: Hist)
    requires Inv(h)
    ensures WellFormed(h.b)
    ensures h.b.inflight <= h.b.tasks.Keys && h.b.cancelled <= h.b.tasks.Keys
    ensures forall id | id in h.b.tasks :: InflightRow(h.b, id)
  {
  }

  lemma {:induction false} InvAfter(h: Hist, evs: seq<Event>)
    requires Inv(h)
    ensures Inv(After(h, evs)) && SameIdentity(h.b.tasks, After(h, evs).b.tasks)
  {
    hide Inv, Next, WellFormed;
    if evs != [] {
      var g, ev := After(h, evs[..|evs| - 1]), evs[|evs| - 1];
      InvAfter(h, evs[..|evs| - 1]);
      InvKept(g, ev);
      InvIsWellFormed(g);
      WellFormedKept(g, ev);
    }
  }

  /** A step's broker is the operation's. */
  lemma BrokerStep(s: System, step: Step)
    requires Enabled(s, step)
    ensures Do(s, step).h.b == if OpOf(step).Some? then Perform(s.h.b, OpOf(step).value) else s.h.b
  {
    hide Around, Enabled, Operate, Perform;
    if OpOf(step).Some? {
      OperationIsEvents(s.h, OpOf(step).value);
    }
  }

  lemma InvStep(s: System, step: Step)
    requires Inv(s.h)
    ensures Inv(Do(s, step).h) && SameIdentity(s.h.b.tasks, Do(s, step).h.b.tasks)
  {
    hide Around, Enabled, Inv, Events, After, OpOf;
    if Enabled(s, step) && OpOf(step).Some? {
      InvAfter(s.h, Events(s.h.b, OpOf(step).value));
    }
  }

  // ---------- Leases are held by slots ----------

  ghost function HeldIds(slots: seq<Slot>): set<string> {
    set i | 0 <= i < |slots| && !slots[i].Free? :: slots[i].id
  }

  ghost predicate HeldBy(slots: map<string, seq<Slot>>, worker: string, id: string) {
    worker in slots && id in HeldIds(slots[worker])
  }

  lemma HeldUpdate(slots: seq<Slot>, i: nat, x: Slot, id: string)
    requires i < |slots|
    ensures id in HeldIds(slots) && (slots[i].Free? || slots[i].id != id) ==> id in HeldIds(slots[i := x])
    ensures !x.Free? && x.id == id ==> id in HeldIds(slots[i := x])
    ensures id in HeldIds(slots[i := x]) ==> id in HeldIds(slots) || (!x.Free? && x.id == id)
  {
    if id in HeldIds(slots) {
      var k :| 0 <= k < |slots| && !slots[k].Free? && slots[k].id == id;
      assert k != i ==> slots[i := x][k] == slots[k];
    }
    assert slots[i := x][i] == x;
  }

  lemma {:induction false} HeldSize(slots: seq<Slot>)
    ensures |HeldIds(slots)| <= |slots|
  {
    if slots != [] {
      var front, last := slots[..|slots| - 1], slots[|slots| - 1];
      HeldSize(front);
      var ids := if last.Free? then {} else {last.id};
      assert HeldIds(slots) <= HeldIds(front) + ids;
      SubsetSize(HeldIds(slots), HeldIds(front) + ids);
    }
  }

  ghost predicate LeaseHeld(b: B.Broker, slots: map<string, seq<Slot>>, id: string) {
    id in b.tasks && b.tasks[id].assignedWorker.Some? && HeldBy(slots, b.tasks[id].assignedWorker.value, id)
  }

  /** Every task in flight is held by a slot of the worker it is assigned to. */
  ghost predicate LeaseOk(b: B.Broker, slots: map<string, seq<Slot>>) {
    forall id | id in b.inflight :: LeaseHeld(b, slots, id)
  }

  /** What slots held is held still, but for these ids. */
  ghost predicate StillHeld(slots: map<string, seq<Slot>>, slots': map<string, seq<Slot>>, but: set<string>) {
    forall w, id | HeldBy(slots, w, id) && id !in but :: HeldBy(slots', w, id)
  }

  lemma LeaseByOp(b: B.Broker, op: Op, slots: map<string, seq<Slot>>, slots': map<string, seq<Slot>>)
    requires LeaseOk(b, slots) && b.inflight <= b.tasks.Keys
    requires StillHeld(slots, slots', Touched(b, op))
    requires op.Reserve? ==> forall id | id in Touched(b, op) :: HeldBy(slots', op.worker.workerId, id)
    ensures LeaseOk(Perform(b, op), slots')
  {
    hide HeldBy, Perform, Touched;
    forall id | id in Perform(b, op).inflight ensures LeaseHeld(Perform(b, op), slots', id) {
      if id in Touched(b, op) {
        TouchedEffect(b, op, id);
      } else {
        OthersKept(b, op, id);
        assert LeaseHeld(b, slots, id);
      }
    }
  }

  lemma DeadStillHolds(slots: seq<Slot>, i: nat, id: string)
    requires i < |slots| && slots[i].Holding?
    ensures id in HeldIds(slots) ==> id in HeldIds(slots[i := Dead(slots[i].id)])
  {
    HeldUpdate(slots, i, Dead(slots[i].id), id);
  }

  /** What a step does to the slots. */
  lemma {:induction false} SlotsAfter(s: System, step: Step, w: string, id: string)
    requires Enabled(s, step)
    ensures HeldBy(s.slots, w, id) && !(step.Report? && id == step.result.taskId) ==> HeldBy(Around(s, step).slots, w, id)
    ensures step.Attempt? && Best(s.h.b, step) == Some(id) ==> HeldBy(Around(s, step).slots, step.info.workerId, id)
  {
    hide HeldIds, B.Reserve, B.Depth, B.SubmitEach, Upserts, Fresh, IsNew, Bag;
    match step {
      case Attempt(info, slot, _, _, _, _) =>
        if Best(s.h.b, step).Some? {
          HeldUpdate(s.slots[info.workerId], slot, Holding(Best(s.h.b, step).value), id);
        }
      case Report(worker, slot, _, _, _) => HeldUpdate(s.slots[worker], slot, Free, id);
      case Die(worker, slot) =>
        HeldUpdate(s.slots[worker], slot, Dead(s.slots[worker][slot].id), id);
        DeadStillHolds(s.slots[worker], slot, id);
      case _ =>
    }
  }

  lemma SlotsStillHold(s: System, step: Step)
    requires Enabled(s, step)
    ensures StillHeld(s.slots, Around(s, step).slots, if step.Report? then {step.result.taskId} else {})
  {
    hide Enabled, Around, HeldBy, Best;
    var slots' := Around(s, step).slots;
    forall w, id | HeldBy(s.slots, w, id) && id !in (if step.Report? then {step.result.taskId} else {})
      ensures HeldBy(slots', w, id)
    {
      SlotsAfter(s, step, w, id);
    }
  }

  /** The task a report is about is the one its broker call touches, and likewise for a reservation. */
  lemma StepTouches(s: System, step: Step)
    requires Enabled(s, step) && OpOf(step).Some?
    ensures step.Report? ==> Touched(s.h.b, OpOf(step).value) == {step.result.taskId}
    ensures OpOf(step).value.Reserve? <==> step.Attempt?
    ensures step.Attempt? ==>
              && OpOf(step).value.worker == step.info
              && Touched(s.h.b, OpOf(step).value) == if Best(s.h.b, step).Some? then {Best(s.h.b, step).value} else {}
  {
    hide B.Reserve, B.SubmitEach, B.Depth, B.Requeue, Fresh, IsNew;
  }

  lemma {:induction false} SlotsHoldTouched(s: System, step: Step)
    requires Enabled(s, step) && OpOf(step).Some?
    ensures StillHeld(s.slots, Around(s, step).slots, Touched(s.h.b, OpOf(step).value))
    ensures OpOf(step).value.Reserve? ==>
              forall id | id in Touched(s.h.b, OpOf(step).value) ::
                HeldBy(Around(s, step).slots, OpOf(step).value.worker.workerId, id)
  {
    hide Enabled, Around, HeldBy, Best, Touched, OpOf;
    StepTouches(s, step);
    SlotsStillHold(s, step);
    if step.Attempt? && Best(s.h.b, step).Some? {
      SlotsAfter(s, step, step.info.workerId, Best(s.h.b, step).value);
    }
  }

  lemma SameLease(b: B.Broker, slots: map<string, seq<Slot>>, slots': map<string, seq<Slot>>, id: string)
    requires LeaseHeld(b, slots, id) && StillHeld(slots, slots', {})
    ensures LeaseHeld(b, slots', id)
  {
  }

  lemma LeaseKept(s: System, step: Step)
    requires LeaseOk(s.h.b, s.slots) && s.h.b.inflight <= s.h.b.tasks.Keys
    ensures LeaseOk(Do(s, step).h.b, Do(s, step).slots)
  {
    if Enabled(s, step) {
      hide Around, Enabled, Perform, Operate, HeldBy, LeaseHeld, Touched, StillHeld;
      BrokerStep(s, step);
      if OpOf(step).Some? {
        SlotsHoldTouched(s, step);
        hide OpOf;
        LeaseByOp(s.h.b, OpOf(step).value, s.slots, Around(s, step).slots);
      } else {
        SlotsStillHold(s, step);
        forall id | id in s.h.b.inflight ensures LeaseHeld(s.h.b, Around(s, step).slots, id) {
          SameLease(s.h.b, s.slots, Around(s, step).slots, id);
        }
      }
    }
  }

  /** The tasks in flight that are assigned to a worker. */
  ghost function Leased(b: B.Broker, worker: string): set<string> {
    set id | id in b.inflight && id in b.tasks && b.tasks[id].assignedWorker == Some(worker)
  }

  /** No worker ever has more leases than slots. */
  lemma LeaseBound(s: System, worker: string)
    requires LeaseOk(s.h.b, s.slots)
    ensures |Leased(s.h.b, worker)| <= if worker in s.slots then |s.slots[worker]| else 0
  {
    hide HeldIds;
    var held := if worker in s.slots then HeldIds(s.slots[worker]) else {};
    forall id | id in Leased(s.h.b, worker) ensures id in held {
      assert LeaseHeld(s.h.b, s.slots, id);
    }
    SubsetSize(Leased(s.h.b, worker), held);
    if worker in s.slots {
      HeldSize(s.slots[worker]);
    }
  }

  lemma {:induction false} CapacityKept(s: System, step: Step, worker: string)
    requires worker in s.slots
    ensures worker in Do(s, step).slots && |Do(s, step).slots[worker]| == |s.slots[worker]|
  {
    hide B.Reserve, B.Depth, B.SubmitEach, B.Requeue, Upserts, Fresh, IsNew, Bag, Operate;
  }

  lemma {:induction false} CapacityFixed(s: System, steps: seq<Step>, worker: string)
    requires worker in s.slots
    ensures worker in Run(s, steps).slots && |Run(s, steps).slots[worker]| == |s.slots[worker]|
  {
    if steps != [] {
      var front := steps[..|steps| - 1];
      CapacityFixed(s, front, worker);
      CapacityKept(Run(s, front), steps[|steps| - 1], worker);
      hide Do;
    }
  }

  // ---------- Dispatches follow dependencies ----------

  ghost predicate WasSent(trace: seq<Mark>, id: string) {
    exists k :: 0 <= k < |trace| && trace[k].Sent? && trace[k].id == id
  }

  /** A dispatch comes after the success of all dependencies, and a success after a dispatch of the same task. */
  ghost predicate MarkOk(before: seq<Mark>, m: Mark, tasks: map<string, Task>) {
    && m.id in tasks
    && (m.Sent? ==> forall d | d in tasks[m.id].spec.dependsOn :: Done(d) in before)
    && (m.Done? ==> WasSent(before, m.id))
  }

  ghost predicate TraceOk(trace: seq<Mark>, tasks: map<string, Task>) {
    forall k | 0 <= k < |trace| :: MarkOk(trace[..k], trace[k], tasks)
  }

  /** Whoever holds a task had it sent. */
  ghost predicate HoldersSent(slots: map<string, seq<Slot>>, trace: seq<Mark>) {
    forall w, id | HeldBy(slots, w, id) :: WasSent(trace, id)
  }

  ghost predicate CompletedDone(completed: set<string>, trace: seq<Mark>) {
    forall id | id in completed :: Done(id) in trace
  }

  ghost predicate TopoOk(s: System) {
    && TraceOk(s.trace, s.h.b.tasks)
    && CompletedDone(s.completed, s.trace)
    && HoldersSent(s.slots, s.trace)
  }

  lemma TraceOkGrow(trace: seq<Mark>, tasks: map<string, Task>, tasks': map<string, Task>)
    requires TraceOk(trace, tasks) && SameIdentity(tasks, tasks')
    ensures TraceOk(trace, tasks')
  {
    hide WasSent;
    forall k | 0 <= k < |trace| ensures MarkOk(trace[..k], trace[k], tasks') {
      assert MarkOk(trace[..k], trace[k], tasks);
    }
  }

  lemma TraceOkMore(trace: seq<Mark>, m: Mark, tasks: map<string, Task>)
    requires TraceOk(trace, tasks) && MarkOk(trace, m, tasks)
    ensures TraceOk(trace + [m], tasks)
    ensures forall x | x in trace :: x in trace + [m]
    ensures forall id | WasSent(trace, id) :: WasSent(trace + [m], id)
    ensures m.Sent? ==> WasSent(trace + [m], m.id)
  {
    var t := trace + [m];
    assert t[..|trace|] == trace;
    forall id | WasSent(trace, id) ensures WasSent(t, id) {
      var k :| 0 <= k < |trace| && trace[k].Sent? && trace[k].id == id;
      assert t[k] == trace[k];
    }
    assert t[|trace|] == m;
    hide MarkOk, WasSent;
    forall k | 0 <= k < |t| ensures MarkOk(t[..k], t[k], tasks) {
      if k < |trace| {
        assert t[..k] == trace[..k];
      }
    }
  }

  /** Reserve hands out a task only when its dependencies are among those it was given as completed. */
  lemma ReserveHonoursDependencies(b: B.Broker, w: WorkerInfo, completed: set<string>, leaseSeconds: real, now: real, t: real)
    ensures var best := B.Reserve(b, w, completed, leaseSeconds, now, t).1;
            best.Some? ==> best.value in b.tasks && b.tasks[best.value].spec.dependsOn <= completed
                           && best.value !in b.cancelled && Suits(w, b.tasks[best.value].spec)
  {
    hide B.PopEligible, B.Promote;
    B.PromoteKeeps(b, now);
    if B.PopEligible(B.Promote(b, now), w, completed).1.Some? {
      var e := SelectionTakesLeast(B.Promote(b, now), w, completed);
    }
  }

  lemma NoneHeld(capacity: nat)
    ensures HeldIds(seq(capacity, _ => Free)) == {}
  {
  }

  lemma HeldAt(slots: seq<Slot>, i: nat)
    requires i < |slots| && !slots[i].Free?
    ensures slots[i].id in HeldIds(slots)
  {
  }

  /** What a step adds to the held ids, the completed ids and the trace. */
  lemma MarksAfter(s: System, step: Step, w: string, id: string)
    requires Enabled(s, step)
    ensures HeldBy(Around(s, step).slots, w, id) ==>
              HeldBy(s.slots, w, id) || (step.Attempt? && Best(s.h.b, step) == Some(id))
  {
    hide HeldIds, B.Reserve, B.Depth, B.SubmitEach, Upserts, Fresh, IsNew, Bag;
    match step {
      case Launch(_, capacity) => NoneHeld(capacity);
      case Attempt(info, slot, _, _, _, _) =>
        if Best(s.h.b, step).Some? {
          HeldUpdate(s.slots[info.workerId], slot, Holding(Best(s.h.b, step).value), id);
        }
      case Report(worker, slot, _, _, _) => HeldUpdate(s.slots[worker], slot, Free, id);
      case Die(worker, slot) =>
        HeldUpdate(s.slots[worker], slot, Dead(s.slots[worker][slot].id), id);
        HeldAt(s.slots[worker], slot);
      case _ =>
    }
  }

  ghost function NewMarks(s: System, step: Step): seq<Mark> {
    match step
    case Attempt(info, _, _, _, _, _) =>
      if Best(s.h.b, step).Some? then [Sent(Best(s.h.b, step).value, info.workerId)] else []
    case Report(_, _, r, _, _) => if r.status.Succeeded? then [Done(r.taskId)] else []
    case _ => []
  }

  lemma NoMarks(s: System)
    ensures s.trace + [] == s.trace && s.completed + {} == s.completed
  {
  }

  lemma TraceAfter(s: System, step: Step)
    requires Enabled(s, step)
    ensures Around(s, step).trace == s.trace + NewMarks(s, step)
    ensures Around(s, step).completed ==
            s.completed + if step.Report? && step.result.status.Succeeded? then {step.result.taskId} else {}
  {
    hide Enabled, Best, B.Depth, B.SubmitEach, Upserts, Bag, SetSlot, Upserted, BatchIds, B.Requeue;
    NoMarks(s);
  }

  lemma NewMarkOk(s: System, step: Step, m: Mark)
    requires Enabled(s, step) && TopoOk(s) && m in NewMarks(s, step)
    ensures MarkOk(s.trace, m, s.h.b.tasks)
  {
    hide B.Reserve, WasSent, TraceOk, HeldIds;
    match step {
      case Attempt(info, slot, completed, leaseSeconds, now, t) =>
        ReserveHonoursDependencies(s.h.b, info, completed, leaseSeconds, now, t);
      case Report(worker, slot, r, _, _) =>
        HeldAt(s.slots[worker], slot);
        assert HeldBy(s.slots, worker, r.taskId);
    }
  }

  lemma TraceGrows(s: System, step: Step)
    requires Enabled(s, step) && TopoOk(s)
    ensures var trace := Around(s, step).trace;
            && TraceOk(trace, s.h.b.tasks)
            && (forall x | x in s.trace :: x in trace)
            && (forall id | WasSent(s.trace, id) :: WasSent(trace, id))
            && (step.Attempt? && Best(s.h.b, step).Some? ==> WasSent(trace, Best(s.h.b, step).value))
            && CompletedDone(Around(s, step).completed, trace)
  {
    hide Around, Enabled, WasSent, TraceOk, MarkOk, HeldBy, Best;
    TraceAfter(s, step);
    var marks := NewMarks(s, step);
    if marks == [] {
      assert s.trace + marks == s.trace;
    } else {
      assert marks == [marks[0]];
      NewMarkOk(s, step, marks[0]);
      TraceOkMore(s.trace, marks[0], s.h.b.tasks);
    }
  }

  lemma HoldersKept(s: System, step: Step)
    requires Enabled(s, step) && TopoOk(s)
    ensures HoldersSent(Around(s, step).slots, Around(s, step).trace)
  {
    hide Around, Enabled, WasSent, TraceOk, HeldBy, Best, CompletedDone;
    TraceGrows(s, step);
    var s' := Around(s, step);
    forall w, id | HeldBy(s'.slots, w, id) ensures WasSent(s'.trace, id) {
      MarksAfter(s, step, w, id);
    }
  }

  lemma TopoKept(s: System, step: Step)
    requires TopoOk(s) && Inv(s.h)
    ensures TopoOk(Do(s, step))
  {
    if Enabled(s, step) {
      hide Inv, Around, Enabled, WasSent, TraceOk, HeldBy, SameIdentity, Operate, OpOf, Best, HoldersSent;
      TraceGrows(s, step);
      HoldersKept(s, step);
      InvStep(s, step);
      TraceOkGrow(Around(s, step).trace, s.h.b.tasks, Do(s, step).h.b.tasks);
    }
  }

  /** Before position k, d was sent to a worker and after that reported as succeeded. */
  ghost predicate SentThenDone(trace: seq<Mark>, d: string, k: nat)
    requires k <= |trace|
  {
    exists i, j :: 0 <= i < j < k && trace[i].Sent? && trace[i].id == d && trace[j] == Done(d)
  }

  /** A task is dispatched only after each dependency was reported as succeeded, and that after it was dispatched. */
  lemma SentAfterDependencies(trace: seq<Mark>, tasks: map<string, Task>, k: nat, d: string)
    requires TraceOk(trace, tasks) && k < |trace| && trace[k].Sent? && trace[k].id in tasks
    requires d in tasks[trace[k].id].spec.dependsOn
    ensures SentThenDone(trace, d, k)
  {
    assert MarkOk(trace[..k], trace[k], tasks);
    var j :| 0 <= j < k && trace[..k][j] == Done(d);
    assert MarkOk(trace[..j], trace[j], tasks);
    var i :| 0 <= i < j && trace[..j][i].Sent? && trace[..j][i].id == d;
    assert trace[i].Sent? && trace[i].id == d && trace[j] == Done(d);
  }

  /** Each of these tasks waits for another of them: a dependency cycle, with what is behind it. */
  ghost predicate Stuck(tasks: map<string, Task>, ids: set<string>) {
    forall id | id in ids && id in tasks :: tasks[id].spec.dependsOn * ids != {}
  }

  lemma {:induction false} StuckNeverSent(trace: seq<Mark>, tasks: map<string, Task>, ids: set<string>, k: nat)
    requires TraceOk(trace, tasks) && Stuck(tasks, ids) && k < |trace| && trace[k].Sent?
    ensures trace[k].id !in ids
  {
    var id := trace[k].id;
    assert MarkOk(trace[..k], trace[k], tasks);
    if id in ids {
      var d :| d in tasks[id].spec.dependsOn && d in ids;
      SentAfterDependencies(trace, tasks, k, d);
      var i, j :| 0 <= i < j < k && trace[i].Sent? && trace[i].id == d && trace[j] == Done(d);
      StuckNeverSent(trace, tasks, ids, i);
    }
  }
}
