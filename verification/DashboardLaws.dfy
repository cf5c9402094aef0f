/** What a page that was there all along shows, told from the events alone: the status
    of every step and the summary. */
module DashboardLaws {
  import opened Protocol
  import opened OrchestratorSpec
  import opened OrchestratorRuns
  import opened OrchestratorLaws
  import opened HubGlue
  import opened Dashboard

  /** A failure of step `k` has been reported. */
  predicate Broke(trace: seq<Event>, k: int) {
    exists r: Role :: StepFailedEvent(k, r) in trace
  }

  /** Failed if a failure was reported, complete if it was completed, running otherwise. */
  function StatusBy(trace: seq<Event>, k: int): StepStatus {
    if Broke(trace, k) then StepBroken else if StepCompleted(k) in trace then StepOk else HubGlue.Running
  }

  predicate Truthful(steps: seq<StepProgress>, trace: seq<Event>) {
    forall i :: 0 <= i < |steps| ==> steps[i].step == i + 1 && steps[i].status == StatusBy(trace, i + 1)
  }

  /** What the trace has of completions and failures. */
  ghost predicate TraceHas(o: Core, trace: seq<Event>) {
    && (forall k :: StepCompleted(k) in trace <==> 1 <= k <= o.stepsCompleted)
    && (forall k, r :: StepFailedEvent(k, r) in trace ==> o.state == Failed && k == o.currentStep)
  }

  lemma FailureIsInCall(o: Core, c: Call)
    requires CoreInv(o)
    ensures forall k, r :: StepFailedEvent(k, r) in Apply(o, c).events <==>
              c.StepFailed? && Current(o, c.step) && k == c.step && r == c.role
    ensures c.StepFailed? && Current(o, c.step) ==> Apply(o, c).core.state == Failed
  {
    hide Apply;
    forall k, r
      ensures StepFailedEvent(k, r) in Apply(o, c).events <==>
              c.StepFailed? && Current(o, c.step) && k == c.step && r == c.role
    {
      FailuresInCall(o, c, k, r);
    }
    if c.StepFailed? && Current(o, c.step) {
      FailureFails(o, c);
    }
  }

  lemma FailureFails(o: Core, c: Call)
    requires c.StepFailed? && Current(o, c.step)
    ensures Apply(o, c).core.state == Failed
  {
  }

  lemma CompletionIsInCall(o: Core, c: Call, k: int)
    requires CoreInv(o)
    ensures StepCompleted(k) in Apply(o, c).events <==>
            Apply(o, c).core.stepsCompleted == o.stepsCompleted + 1 && k == o.stepsCompleted + 1
    ensures Apply(o, c).core.stepsCompleted in {o.stepsCompleted, o.stepsCompleted + 1}
  {
    hide FailedChecks, GetRollbackSteps;
    if c.StepComplete? {
      CompletionsOf(o, c, k);
    }
  }

  /** A failure stays where it was. */
  lemma FailedStays(o: Core, c: Call)
    requires o.state == Failed
    ensures Apply(o, c).events == [] && Apply(o, c).core.state == Failed
    ensures Apply(o, c).core.currentStep == o.currentStep && Apply(o, c).core.stepsCompleted == o.stepsCompleted
  {
  }

  lemma FailingKeepsStep(o: Core, c: Call)
    requires Apply(o, c).core.state == Failed
    ensures Apply(o, c).core.currentStep == o.currentStep
  {
    hide FailedChecks, GetRollbackSteps;
  }

  lemma TraceHasMore(o: Core, trace: seq<Event>, c: Call)
    requires CoreInv(o) && TraceHas(o, trace) && o.stepsCompleted >= 0
    ensures TraceHas(Apply(o, c).core, trace + Apply(o, c).events)
  {
    hide Apply, CoreInv;
    var p, events := Apply(o, c).core, Apply(o, c).events;
    FailureIsInCall(o, c);
    forall k
      ensures StepCompleted(k) in trace + events <==> 1 <= k <= p.stepsCompleted
    {
      CompletionIsInCall(o, c, k);
    }
    forall k, r | StepFailedEvent(k, r) in trace + events
      ensures p.state == Failed && k == p.currentStep
    {
      if StepFailedEvent(k, r) in trace {
        FailedStays(o, c);
      } else {
        FailingKeepsStep(o, c);
      }
    }
  }

  lemma CompletedAreCounted(o: Core)
    requires CoreInv(o)
    ensures o.stepsCompleted >= 0
  {
  }

  lemma {:induction false} RunTraceHas(createdAt: int, calls: seq<Call>)
    ensures var m := Run(NewMachine(createdAt), calls); TraceHas(m.core, m.trace) && CoreInv(m.core)
  {
    hide Apply, CoreInv, TraceHas;
    AlwaysFaithful(createdAt, calls);
    if calls == [] {
      NothingInFreshTrace(createdAt);
    } else {
      var before := calls[..|calls| - 1];
      RunTraceHas(createdAt, before);
      var m := Run(NewMachine(createdAt), before);
      CompletedAreCounted(m.core);
      TraceHasMore(m.core, m.trace, calls[|calls| - 1]);
    }
  }

  lemma NothingInFreshTrace(createdAt: int)
    ensures TraceHas(Fresh(createdAt), [])
  {
  }

  /** A call that fails the session changes the steps on the screen only if it reports
      the step in progress as failed, and then that step alone. */
  lemma FailureOnScreen(v: View, o: Core, c: Call)
    requires CoreInv(o) && o.state != Failed && Apply(o, c).core.state == Failed
    ensures Watch(v, Apply(o, c).events).steps ==
            if c.StepFailed? then UpdateStep(v.steps, StepProgress(o.currentStep, StepBroken)) else v.steps
  {
    hide Watch, UpdateStep, CoreInv;
    match c
    case Abort(reason) =>
      if o.state == Migrating && ShouldRollback(o.currentStep) {
        WatchRollBack(v, o, [], Plain(reason));
      } else {
        WatchFailWith(v, o, [], AbortedBecause(reason));
      }
      NothingSeen(v);
    case AgentDisconnected(r) =>
      WatchRollBack(v, o.(agents := o.agents.Set(r, false)), [], SourceLost(o.currentStep));
      NothingSeen(v);
    case PreflightResult(r, checks) =>
      var p := o.(preflight := o.preflight.Set(r, Some(checks)));
      WatchFailWith(v, p, [], PreflightFailed(FailedChecks(p.preflight.source.value + p.preflight.target.value)));
      NothingSeen(v);
    case StepFailed(step, r, error) =>
      var e := StepFailedEvent(step, r);
      WatchRollBack(v, o, [e], StepFailure(step, r, error));
      WatchFailWith(v, o, [e], StepFailure(step, r, error));
      BrokenSeen(v, e);
    case _ =>
  }

  lemma NothingSeen(v: View)
    ensures Watch(v, []) == v
  {
  }

  lemma BrokenSeen(v: View, e: Event)
    requires e.StepFailedEvent?
    ensures Watch(v, [e]).steps == UpdateStep(v.steps, StepProgress(e.step, StepBroken))
  {
    hide UpdateStep;
    WatchOne(v, e);
  }

  /** What a session that has not failed should show is what its events say. */
  lemma ProgressIsTruthful(o: Core, trace: seq<Event>)
    requires CoreInv(o) && o.state != Failed && TraceHas(o, trace)
    ensures Truthful(ShouldShow(o), trace)
  {
    forall i | 0 <= i < |ShouldShow(o)|
      ensures ShouldShow(o)[i].status == StatusBy(trace, i + 1)
    {
      assert !Broke(trace, i + 1);
    }
  }

  lemma FailureIsTruthful(o: Core, trace: seq<Event>, steps: seq<StepProgress>, c: Call)
    requires CoreInv(o) && o.state != Failed && Apply(o, c).core.state == Failed && TraceHas(o, trace)
    requires Truthful(steps, trace) && |steps| == o.currentStep
    ensures Truthful(if c.StepFailed? then UpdateStep(steps, StepProgress(o.currentStep, StepBroken)) else steps,
                     trace + Apply(o, c).events)
  {
    hide Apply, CoreInv, UpdateStep;
    var k, all := o.currentStep, trace + Apply(o, c).events;
    FailureIsInCall(o, c);
    TraceHasMoreOf(o, trace, c);
    FailedIsCurrent(o, c);
    if c.StepFailed? {
      FailingStepInRange(o, c);
      UpdateNumbered(steps, StepProgress(k, StepBroken));
      assert StepFailedEvent(k, c.role) in all;
    }
    forall i | 0 <= i < |steps| && !(c.StepFailed? && i == k - 1)
      ensures steps[i].status == StatusBy(all, i + 1)
    {
      assert !Broke(trace, i + 1);
      assert StepCompleted(i + 1) in all <==> StepCompleted(i + 1) in trace;
      assert !Broke(all, i + 1);
    }
  }

  lemma TraceHasMoreOf(o: Core, trace: seq<Event>, c: Call)
    requires CoreInv(o) && TraceHas(o, trace) && Apply(o, c).core.state == Failed && o.state != Failed
    ensures forall k :: StepCompleted(k) in trace + Apply(o, c).events <==> StepCompleted(k) in trace
  {
    hide Apply, CoreInv;
    forall k
      ensures StepCompleted(k) !in Apply(o, c).events
    {
      CompletionIsInCall(o, c, k);
      FailingCompletesNone(o, c);
    }
  }

  lemma FailingCompletesNone(o: Core, c: Call)
    requires o.state != Failed && Apply(o, c).core.state == Failed
    ensures Apply(o, c).core.stepsCompleted == o.stepsCompleted
  {
    hide FailedChecks, GetRollbackSteps;
  }

  lemma FailedIsCurrent(o: Core, c: Call)
    requires o.state != Failed && Apply(o, c).core.state == Failed
    ensures c.StepFailed? ==> Current(o, c.step)
  {
  }

  lemma FailingStepInRange(o: Core, c: Call)
    requires CoreInv(o) && c.StepFailed? && Current(o, c.step)
    ensures 1 <= o.currentStep
  {
  }

  /** Over every run: a page that was there all along shows step `k` failed exactly if a
      failure of it was reported, complete exactly if it was completed, and running
      otherwise; whether or not the session has failed. */
  lemma {:induction false} ShownIsTrue(createdAt: int, calls: seq<Call>)
    ensures var trace := Run(NewMachine(createdAt), calls).trace;
            Truthful(Always(trace).steps, trace) && |Always(trace).steps| == Run(NewMachine(createdAt), calls).core.currentStep
  {
    hide Apply, CoreInv, TraceHas, Truthful, ShouldShow, Numbered, Watch;
    var m := Run(NewMachine(createdAt), calls);
    AlwaysFaithful(createdAt, calls);
    RunTraceHas(createdAt, calls);
    FaithfulIsNumbered(Always(m.trace), m.core);
    if m.core.state != Failed {
      ProgressIsTruthful(m.core, m.trace);
    } else if calls == [] {
    } else {
      var before, c := calls[..|calls| - 1], calls[|calls| - 1];
      var p := Run(NewMachine(createdAt), before);
      ShownIsTrue(createdAt, before);
      RunTraceHas(createdAt, before);
      WatchConcat(FRESH_VIEW, p.trace, Apply(p.core, c).events);
      if p.core.state == Failed {
        FailedStays(p.core, c);
        assert m.trace == p.trace + [] == p.trace;
      } else {
        FailureOnScreen(Always(p.trace), p.core, c);
        FailureIsTruthful(p.core, p.trace, Always(p.trace).steps, c);
      }
    }
  }

  lemma SummarySeen(v: View, e: Event)
    ensures Watch(v, [e]).summary == if e.SessionComplete? then Some(e.summary) else v.summary
  {
    hide UpdateStep;
    WatchOne(v, e);
  }

  lemma ClosesLast(trace: seq<Event>, n: nat)
    requires ObserveAll(MONITOR_START, trace).Watching? && n < |trace| && Closing(trace[n])
    ensures n == |trace| - 1
  {
    AcceptedClosing(trace);
  }

  lemma CompletesLast(trace: seq<Event>)
    requires ObserveAll(MONITOR_START, trace).Watching? && trace != []
    ensures forall s :: SessionComplete(s) !in trace[..|trace| - 1]
  {
    hide ObserveAll;
    var before := trace[..|trace| - 1];
    forall s
      ensures SessionComplete(s) !in before
    {
      if SessionComplete(s) in before {
        var n :| 0 <= n < |before| && before[n] == SessionComplete(s);
        ClosesLast(trace, n);
      }
    }
  }

  /** And the summary it shows is the one the session was completed with, if any. */
  lemma {:induction false} SummaryShown(trace: seq<Event>)
    requires ObserveAll(MONITOR_START, trace).Watching?
    ensures Always(trace).summary.Some? ==> SessionComplete(Always(trace).summary.value) in trace
    ensures forall s :: SessionComplete(s) in trace ==> Always(trace).summary == Some(s)
  {
    hide Watch, Observe;
    if trace == [] {
      NothingSeen(FRESH_VIEW);
    } else {
      var before, e := trace[..|trace| - 1], trace[|trace| - 1];
      assert trace == before + [e];
      AcceptedEvent(ObserveAll(MONITOR_START, before), e);
      SummaryShown(before);
      WatchConcat(FRESH_VIEW, before, [e]);
      SummarySeen(Always(before), e);
      CompletesLast(trace);
    }
  }

  /** The hub's calls among what happens around a page. */
  function CallsIn(doings: seq<Doing>): seq<Call> {
    if doings == [] then []
    else
      match doings[|doings| - 1]
      case HubCall(c) => CallsIn(doings[..|doings| - 1]) + [c]
      case _ => CallsIn(doings[..|doings| - 1])
  }

  lemma {:induction false} PlayIsRun(createdAt: int, doings: seq<Doing>)
    ensures Play(Opening(createdAt), doings).hub == Run(NewMachine(createdAt), CallsIn(doings))
  {
    hide Apply, Watch, Snapshot;
    if doings != [] {
      var before := doings[..|doings| - 1];
      PlayIsRun(createdAt, before);
      if doings[|doings| - 1].HubCall? {
        var c := doings[|doings| - 1].call;
        assert (CallsIn(before) + [c])[..|CallsIn(before)|] == CallsIn(before);
      }
    }
  }

  /** So a page that last joined a session that had not failed shows every step for what
      it is, then and later, through failures and rollbacks. */
  lemma JoinedPageIsTrue(createdAt: int, doings: seq<Doing>)
    ensures var w := Play(Opening(createdAt), doings);
            w.viewer.connected && w.viewer.joinedIn != Some(Failed) ==>
              w.viewer.view.state == w.hub.core.state && Truthful(w.viewer.view.steps, w.hub.trace)
              && |w.viewer.view.steps| == w.hub.core.currentStep
  {
    hide Truthful, Play, Watch, ShouldShow, CoreInv, Run;
    LateJoinAgreement(createdAt, doings);
    PlayIsRun(createdAt, doings);
    ShownIsTrue(createdAt, CallsIn(doings));
  }
}
