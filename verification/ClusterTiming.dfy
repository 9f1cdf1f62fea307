/** Due times, backoff and cancellation in runs of the cluster. */
module ClusterTiming {
  import opened Models
  import opened Ordering
  import opened Bags
  import opened BrokerRuns
  import opened RunInvariants
  import opened Discipline
  import opened Pacing
  import opened Operations
  import opened OperationRuns
  import opened Cluster
  import opened ClusterRuns
  import opened ClusterMirror
  import opened SteadyRuns
  import B = BrokerModel

  /** The clock readings that the steps' broker calls take, in order, do not run backwards. */
  ghost predicate TimelyRun(maxDepth: int, clock: real, steps: seq<Step>) {
    Timely(Start(maxDepth, clock), RunEvents(Boot(maxDepth, clock), steps))
  }

  /** Under a nondecreasing clock the tasks sent to workers are at every moment matched one to one by pushes already due. */
  lemma {:induction false} NothingSentEarly(maxDepth: int, clock: real, steps: seq<Step>)
    requires TimelyRun(maxDepth, clock, steps)
    ensures var s := Run(Boot(maxDepth, clock), steps);
            SentIds(s.trace) <= Image(Filter(s.h.flow.pushes, DueBy(s.h.clock)), DueId)
  {
    hide Run, After, SentIds, Image, Filter, Timely, RunEvents;
    SentAreDispatched(maxDepth, clock, steps);
    BrokerRunOf(Boot(maxDepth, clock), steps);
    NoEarlyDispatch(maxDepth, clock, RunEvents(Boot(maxDepth, clock), steps));
  }

  // ---------- Backoff ----------

  lemma RunEventsMore(s: System, steps: seq<Step>, step: Step)
    ensures RunEvents(s, steps + [step]) == RunEvents(s, steps) + StepEvents(Run(s, steps), step)
  {
    hide Run, StepEvents;
    assert (steps + [step])[..|steps|] == steps;
  }

  lemma SameSingle<T>(x: T, y: T)
    requires multiset{x} == multiset{y}
    ensures x == y
  {
    assert x in multiset{y};
  }

  /** The events of an attempt that brings a task: a promotion and a scan, then the dispatch. */
  lemma AttemptEvents(s: System, step: Step) returns (front: seq<Event>, ev: Event)
    requires step.Attempt? && Enabled(s, step) && Best(s.h.b, step).Some?
    ensures StepEvents(s, step) == front + [ev] && ev.Dispatch? && ev.t == step.t
    ensures ev.entry.id == Best(s.h.b, step).value
    ensures var g := After(s.h, front);
            && Legal(g.b, ev)
            && g.b.tasks == s.h.b.tasks && g.submittedAt == s.h.submittedAt
            && g.flow.dispatched == s.h.flow.dispatched
  {
    hide Next, Legal, Events, After, B.Promote, B.DropCancelled, B.Eligible, B.Reserve, Enabled;
    var op := OpOf(step).value;
    HandedIsLeast(s.h.b, op);
    var p, sc := BrokerRuns.Promote(op.now), Scan(op.worker.queues);
    var best := Least(Choice(s.h.b, op));
    assert multiset{Best(s.h.b, step).value} == multiset{best.id};
    SameSingle(Best(s.h.b, step).value, best.id);
    front, ev := [p, sc], Dispatch(best, op.worker, op.completed, op.leaseSeconds, op.t);
    AfterTwo(s.h, p, sc);
    PromoteScan(s.h, op.now, op.worker.queues);
    DispatchLegal(After(s.h, front).b, op, Choice(s.h.b, op));
  }

  /**
   * In a steady run under a nondecreasing clock, the attempt that sends a task to a worker after it
   * was sent k times comes no sooner than delay + backoff * k(k + 1)/2 after the task's submission.
   */
  lemma {:induction false} SendsRespectBackoff(maxDepth: int, clock: real, steps: seq<Step>, step: Step, id: string)
    requires Steady(Boot(maxDepth, clock), steps + [step]) && TimelyRun(maxDepth, clock, steps + [step])
    requires step.Attempt? && Enabled(Run(Boot(maxDepth, clock), steps), step)
    requires Best(Run(Boot(maxDepth, clock), steps).h.b, step) == Some(id)
    ensures var s := Run(Boot(maxDepth, clock), steps);
            && id in s.h.b.tasks && id in s.h.submittedAt
            && step.t >= Earliest(s.h, id, SentIds(s.trace)[id])
  {
    hide Run, After, Steady, Timely, Disciplined, RunEvents, StepEvents, Best, Enabled, Legal, OnTime, Backoff, SentIds;
    var h0, s0 := Start(maxDepth, clock), Boot(maxDepth, clock);
    var s := Run(s0, steps);
    var front, ev := AttemptEvents(s, step);
    var evs := RunEvents(s0, steps);
    SteadyRunIsDisciplined(maxDepth, clock, steps + [step]);
    RunEventsMore(s0, steps, step);
    assert evs + (front + [ev]) == (evs + front) + [ev];
    LastOn(h0, evs + front, ev);
    BrokerRunOf(s0, steps);
    AfterAppend(h0, evs, front);
    BackoffRespected(maxDepth, clock, evs + front, ev);
    SentAreDispatched(maxDepth, clock, steps);
  }

  // ---------- Cancellation ----------

  lemma {:induction false} CancelledAlong(h: Hist, evs: seq<Event>, id: string)
    requires id in h.b.cancelled
    ensures id in After(h, evs).b.cancelled
  {
    hide Next;
    if evs != [] {
      CancelledAlong(h, evs[..|evs| - 1], id);
      CancelledNotDispatched(After(h, evs[..|evs| - 1]), evs[|evs| - 1], id);
    }
  }

  /** A mark of one of these is a dispatch of the task. */
  ghost predicate SendsOf(marks: seq<Mark>, id: string) {
    exists k :: 0 <= k < |marks| && marks[k].Sent? && marks[k].id == id
  }

  lemma CancelledNotSent(s: System, step: Step, id: string)
    requires Enabled(s, step) && id in s.h.b.cancelled
    ensures !SendsOf(NewMarks(s, step), id)
  {
    hide Enabled, B.Reserve;
    if step.Attempt? {
      ReserveHonoursDependencies(s.h.b, step.info, step.completed, step.leaseSeconds, step.now, step.t);
    }
  }

  lemma SendsJoin(a: seq<Mark>, c: seq<Mark>, id: string)
    requires !SendsOf(a, id) && !SendsOf(c, id)
    ensures !SendsOf(a + c, id)
  {
  }

  lemma NoSends(id: string)
    ensures !SendsOf([], id)
  {
  }

  lemma DoTrace(s: System, step: Step)
    requires Enabled(s, step)
    ensures Do(s, step).trace == s.trace + NewMarks(s, step)
  {
    hide Around, Enabled, Operate, NewMarks;
    TraceAfter(s, step);
  }

  /** From a system in which the task was cancelled by request, no run sends it to a worker. */
  lemma {:induction false} QuietAlong(s: System, steps: seq<Step>, id: string) returns (marks: seq<Mark>)
    requires id in s.h.b.cancelled
    ensures id in Run(s, steps).h.b.cancelled
    ensures Run(s, steps).trace == s.trace + marks && !SendsOf(marks, id)
  {
    hide Do, SendsOf, NewMarks;
    if steps == [] {
      marks := [];
      NoSends(id);
      assert s.trace + [] == s.trace;
    } else {
      var front, step := steps[..|steps| - 1], steps[|steps| - 1];
      var t := Run(s, front);
      marks := QuietAlong(s, front, id);
      StepIsEvents(t, step);
      CancelledAlong(t.h, StepEvents(t, step), id);
      hide StepEvents, Enabled;
      if Enabled(t, step) {
        DoTrace(t, step);
        CancelledNotSent(t, step, id);
        SendsJoin(marks, NewMarks(t, step), id);
        assert (s.trace + marks) + NewMarks(t, step) == s.trace + (marks + NewMarks(t, step));
        marks := marks + NewMarks(t, step);
      } else {
        Refused(t, step);
      }
    }
  }

  lemma CancelStep(s: System, id: string)
    requires Enabled(s, CancelTask(id))
    ensures var t := Do(s, CancelTask(id)); t.trace == s.trace && id in t.h.b.cancelled
  {
    hide Operate;
    BrokerStep(s, CancelTask(id));
  }

  /** After `cancel_task` no run sends the task to a worker again, whatever is reported or retried. */
  lemma {:induction false} CancelledNeverSent(s: System, id: string, steps: seq<Step>)
    requires Enabled(s, CancelTask(id))
    ensures var t := Run(Do(s, CancelTask(id)), steps);
            && |s.trace| <= |t.trace| && t.trace[..|s.trace|] == s.trace
            && forall k | |s.trace| <= k < |t.trace| && t.trace[k].Sent? :: t.trace[k].id != id
  {
    hide Run, Do;
    CancelStep(s, id);
    var t := Do(s, CancelTask(id));
    var marks := QuietAlong(t, steps, id);
    forall k | |s.trace| <= k < |Run(t, steps).trace| && Run(t, steps).trace[k].Sent?
      ensures Run(t, steps).trace[k].id != id
    {
      assert Run(t, steps).trace[k] == marks[k - |s.trace|];
    }
  }
}
