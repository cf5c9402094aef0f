/** What the orchestrator emits, told from the calls alone: over every run from
    `create`, each event of a call is emitted exactly under a condition on the calls so
    far and on where the trace has got to. No law here mentions a field. */
module OrchestratorLaws {
  import opened Protocol
  import opened OrchestratorSpec
  import opened OrchestratorRuns

  // ---------- The past of a call ----------

  /** What call `c` emits after `calls`. */
  function Emitted(createdAt: int, calls: seq<Call>, c: Call): seq<Event> {
    Apply(Run(NewMachine(createdAt), calls).core, c).events
  }

  function TraceOf(createdAt: int, calls: seq<Call>): seq<Event> {
    Run(NewMachine(createdAt), calls).trace
  }

  /** The calls made since the last one that emitted `e`; all of them if none did. */
  function Since(createdAt: int, calls: seq<Call>, e: Event): seq<Call> {
    if calls == [] then []
    else
      var before, c := calls[..|calls| - 1], calls[|calls| - 1];
      if e in Emitted(createdAt, before, c) then [] else Since(createdAt, before, e) + [c]
  }

  /** The state the last change of state led to. */
  function Reached(trace: seq<Event>): MigrationState {
    if trace == [] then Idle
    else
      match trace[|trace| - 1]
      case StateChange(_, to) => to
      case _ => Reached(trace[..|trace| - 1])
  }

  /** The step dispatched last, 0 before the first. */
  function Dispatched(trace: seq<Event>): int {
    if trace == [] then 0
    else
      match trace[|trace| - 1]
      case ExecuteStep(_, n) => n
      case _ => Dispatched(trace[..|trace| - 1])
  }

  /** The last that was heard of agent `r` is that it connected. */
  predicate Connected(calls: seq<Call>, r: Role) {
    calls != []
    && var c := calls[|calls| - 1];
       if c == AgentConnected(r) then true
       else if c == AgentDisconnected(r) then false
       else Connected(calls[..|calls| - 1], r)
  }

  /** The checks agent `r` sent last. */
  function LatestChecks(calls: seq<Call>, r: Role): Option<seq<PreflightCheck>> {
    if calls == [] then None
    else
      match calls[|calls| - 1]
      case PreflightResult(q, checks) => if q == r then Some(checks) else LatestChecks(calls[..|calls| - 1], r)
      case _ => LatestChecks(calls[..|calls| - 1], r)
  }

  predicate AllPassed(checks: seq<PreflightCheck>) {
    forall i :: 0 <= i < |checks| ==> checks[i].ok
  }

  /** Agent `r` has acknowledged step `k`. */
  predicate Acked(calls: seq<Call>, k: int, r: Role) {
    exists i :: 0 <= i < |calls| && calls[i].StepComplete? && calls[i].step == k && calls[i].role == r
  }

  /** When the operator started the migration. */
  function StartedAt(createdAt: int, calls: seq<Call>): int {
    if calls == [] then createdAt
    else
      var before, c := calls[..|calls| - 1], calls[|calls| - 1];
      if c.StartMigration? && StateChange(AwaitingWindow, Migrating) in Emitted(createdAt, before, c) then c.now
      else StartedAt(createdAt, before)
  }

  const PAIRED := StateChange(Idle, Pairing)
  const CONFIRMED := StateChange(Pairing, Preflight)
  const CHECKED := StateChange(Preflight, AwaitingWindow)
  const OPENED := StateChange(AwaitingWindow, Migrating)

  // ---------- The fields say what the calls were ----------

  predicate ConnectedAsCalled(o: Core, calls: seq<Call>) {
    forall r: Role :: o.agents.Get(r) <==> Connected(calls, r)
  }

  predicate SasAsCalled(o: Core, since: seq<Call>) {
    o.state == Pairing ==> forall r: Role :: o.sas.Get(r) <==> SasConfirmed(r) in since
  }

  predicate ChecksAsCalled(o: Core, since: seq<Call>) {
    o.state == Preflight ==> forall r: Role :: o.preflight.Get(r) == LatestChecks(since, r)
  }

  predicate AcksAsCalled(o: Core, since: seq<Call>) {
    o.state == Migrating && o.currentStep in BILATERAL_STEPS ==>
      forall r: Role :: r in AcksAt(o, o.currentStep) <==> Acked(since, o.currentStep, r)
  }

  /** The dispatch of the step in progress. */
  function DispatchOf(k: int): Event {
    ExecuteStep(ExecutorOf(k), k)
  }

  ghost predicate Ledger(createdAt: int, calls: seq<Call>) {
    var o := Run(NewMachine(createdAt), calls).core;
    && ConnectedAsCalled(o, calls)
    && SasAsCalled(o, Since(createdAt, calls, PAIRED))
    && ChecksAsCalled(o, Since(createdAt, calls, CONFIRMED))
    && AcksAsCalled(o, Since(createdAt, calls, DispatchOf(o.currentStep)))
    && (o.state == Migrating ==> o.migrationStartedAt == Some(StartedAt(createdAt, calls)))
  }

  lemma SnocSplits(calls: seq<Call>, c: Call)
    ensures (calls + [c])[..|calls + [c]| - 1] == calls && (calls + [c])[|calls + [c]| - 1] == c
  {
  }

  /** `since` with one more call that emitted `events`. */
  function OneMore(since: seq<Call>, c: Call, e: Event, events: seq<Event>): seq<Call> {
    if e in events then [] else since + [c]
  }

  lemma SinceMore(createdAt: int, calls: seq<Call>, c: Call, e: Event)
    ensures Since(createdAt, calls + [c], e) == OneMore(Since(createdAt, calls, e), c, e, Emitted(createdAt, calls, c))
  {
    hide Emitted;
    SnocSplits(calls, c);
  }

  lemma ConnectedStep(o: Core, calls: seq<Call>, c: Call)
    requires ConnectedAsCalled(o, calls)
    ensures ConnectedAsCalled(Apply(o, c).core, calls + [c])
  {
    SnocSplits(calls, c);
    AgentsChange(o, c);
  }

  lemma AgentsChange(o: Core, c: Call)
    ensures Apply(o, c).core.agents == match c
                                       case AgentConnected(r) => o.agents.Set(r, true)
                                       case AgentDisconnected(r) => o.agents.Set(r, false)
                                       case _ => o.agents
  {
  }

  lemma SasStep(o: Core, since: seq<Call>, c: Call)
    requires CoreInv(o) && SasAsCalled(o, since)
    ensures SasAsCalled(Apply(o, c).core, OneMore(since, c, PAIRED, Apply(o, c).events))
  {
    var p := Apply(o, c).core;
    if p.state == Pairing {
      if o.state == Pairing {
        assert PAIRED !in Apply(o, c).events;
      } else {
        assert c.AgentConnected? && Apply(o, c).events == [PAIRED];
      }
    }
  }

  lemma ChecksStep(o: Core, since: seq<Call>, c: Call)
    requires CoreInv(o) && ChecksAsCalled(o, since)
    ensures ChecksAsCalled(Apply(o, c).core, OneMore(since, c, CONFIRMED, Apply(o, c).events))
  {
    var p := Apply(o, c).core;
    if p.state == Preflight {
      SnocSplits(since, c);
      if o.state == Preflight {
        assert CONFIRMED !in Apply(o, c).events;
      } else {
        assert c.SasConfirmed? && Apply(o, c).events == [CONFIRMED];
      }
    }
  }

  lemma AckedMore(since: seq<Call>, c: Call, k: int, r: Role)
    ensures Acked(since + [c], k, r) <==> Acked(since, k, r) || (c.StepComplete? && c.step == k && c.role == r)
    ensures !Acked([], k, r)
  {
    var more := since + [c];
    assert more[|since|] == c;
    assert forall i :: 0 <= i < |since| ==> more[i] == since[i];
  }

  lemma AcksStep(o: Core, since: seq<Call>, other: seq<Call>, c: Call)
    requires CoreInv(o) && AcksAsCalled(o, since)
    ensures var p, events := Apply(o, c).core, Apply(o, c).events;
            AcksAsCalled(p, if p.currentStep == o.currentStep then OneMore(since, c, DispatchOf(o.currentStep), events)
                            else OneMore(other, c, DispatchOf(p.currentStep), events))
  {
    hide Acked, Apply, AcksAt;
    var p, events := Apply(o, c).core, Apply(o, c).events;
    if p.state == Migrating && p.currentStep in BILATERAL_STEPS {
      if p.currentStep == o.currentStep {
        SameStepEvents(o, c);
        SameStepAcks(o, c);
        forall r: Role
          ensures r in AcksAt(p, p.currentStep) <==> Acked(since + [c], p.currentStep, r)
        {
          AckedMore(since, c, o.currentStep, r);
        }
      } else {
        NewStepHasNoAcks(o, c);
        forall r: Role
          ensures !Acked([], p.currentStep, r)
        {
          AckedMore([], c, p.currentStep, r);
        }
      }
    }
  }

  lemma SameStepAcks(o: Core, c: Call)
    requires CoreInv(o) && o.state == Migrating && Apply(o, c).core.state == Migrating
    requires o.currentStep in BILATERAL_STEPS && Apply(o, c).core.currentStep == o.currentStep
    ensures AcksAt(Apply(o, c).core, o.currentStep) ==
            AcksAt(o, o.currentStep) + if c.StepComplete? && c.step == o.currentStep then {c.role} else {}
  {
    if c.StepComplete? && c.step == o.currentStep {
      assert Current(o, c.step);
    } else {
      assert Apply(o, c).core.acks == o.acks;
    }
  }

  lemma SameStepEvents(o: Core, c: Call)
    requires CoreInv(o) && Apply(o, c).core.state == Migrating && Apply(o, c).core.currentStep == o.currentStep
    ensures o.state == Migrating && DispatchOf(o.currentStep) !in Apply(o, c).events
  {
  }

  lemma NewStepHasNoAcks(o: Core, c: Call)
    requires CoreInv(o) && Apply(o, c).core.currentStep != o.currentStep
    ensures var p := Apply(o, c).core; AcksAt(p, p.currentStep) == {} && DispatchOf(p.currentStep) in Apply(o, c).events
  {
    var p, events := Apply(o, c).core, Apply(o, c).events;
    assert events[1] == DispatchOf(p.currentStep);
  }

  lemma StartStep(o: Core, c: Call)
    requires CoreInv(o)
    ensures var p, events := Apply(o, c).core, Apply(o, c).events;
            && (OPENED in events <==> o.state == AwaitingWindow && c.StartMigration?)
            && (p.state == Migrating ==>
                  if OPENED in events then c.StartMigration? && p.migrationStartedAt == Some(c.now)
                  else o.state == Migrating && p.migrationStartedAt == o.migrationStartedAt)
  {
    hide IssueAll, GetRollbackSteps, FailedChecks;
    if c.StepFailed? || c.Abort? || c.AgentDisconnected? {
      NoOpening(o, c);
    }
  }

  lemma NoOpening(o: Core, c: Call)
    requires c.StepFailed? || c.Abort? || c.AgentDisconnected?
    ensures OPENED !in Apply(o, c).events
  {
  }

  lemma {:induction false} LedgerHolds(createdAt: int, calls: seq<Call>)
    ensures Ledger(createdAt, calls) && MachineInv(Run(NewMachine(createdAt), calls))
  {
    hide Apply, CoreInv, Since, ConnectedAsCalled, SasAsCalled, ChecksAsCalled, AcksAsCalled, Agrees;
    NewMachineInv(createdAt);
    RunKeepsInv(NewMachine(createdAt), calls);
    if calls == [] {
      FreshLedger(createdAt);
    } else {
      var before, c := calls[..|calls| - 1], calls[|calls| - 1];
      LedgerHolds(createdAt, before);
      var o := Run(NewMachine(createdAt), before).core;
      var p := Apply(o, c).core;
      assert calls == before + [c];
      ConnectedStep(o, before, c);
      SinceMore(createdAt, before, c, PAIRED);
      SasStep(o, Since(createdAt, before, PAIRED), c);
      SinceMore(createdAt, before, c, CONFIRMED);
      ChecksStep(o, Since(createdAt, before, CONFIRMED), c);
      SinceMore(createdAt, before, c, DispatchOf(p.currentStep));
      AcksStep(o, Since(createdAt, before, DispatchOf(o.currentStep)), Since(createdAt, before, DispatchOf(p.currentStep)), c);
      StartStep(o, c);
    }
  }

  lemma FreshLedger(createdAt: int)
    ensures Ledger(createdAt, [])
  {
  }

  // ---------- The trace says where the session is ----------

  lemma {:induction false} TraceLeads(trace: seq<Event>)
    requires ObserveAll(MONITOR_START, trace).Watching?
    ensures Reached(trace) == ObserveAll(MONITOR_START, trace).state
    ensures Dispatched(trace) == ObserveAll(MONITOR_START, trace).dispatched
  {
    if trace != [] {
      TraceLeads(trace[..|trace| - 1]);
    }
  }

  /** Where the session is, by its trace, and what the invariants say of it there. */
  lemma Standing(createdAt: int, calls: seq<Call>)
    ensures var o := Run(NewMachine(createdAt), calls).core;
            CoreInv(o) && Reached(TraceOf(createdAt, calls)) == o.state && Dispatched(TraceOf(createdAt, calls)) == o.currentStep
    ensures Ledger(createdAt, calls)
  {
    hide Ledger, CoreInv;
    LedgerHolds(createdAt, calls);
    TraceLeads(TraceOf(createdAt, calls));
  }

  // ---------- The laws ----------

  /** PAIRING begins exactly when an agent connects to an idle session and the last
      that was heard of either agent is that it connected. */
  lemma PairingNeedsBoth(createdAt: int, calls: seq<Call>, c: Call)
    ensures PAIRED in Emitted(createdAt, calls, c) <==>
            && Reached(TraceOf(createdAt, calls)) == Idle && c.AgentConnected?
            && Connected(calls + [c], Source) && Connected(calls + [c], Target)
  {
    hide Connected, TraceOf;
    Standing(createdAt, calls);
    var o := Run(NewMachine(createdAt), calls).core;
    ConnectedStep(o, calls, c);
    EntersPairing(o, c);
  }

  /** A change that is no failure is emitted exactly by the call that makes it. */
  lemma ChangeIsMove(o: Core, c: Call, from: MigrationState, to: MigrationState)
    requires from != to && from != Rollback && to !in {Rollback, Failed} && CoreInv(o)
    ensures StateChange(from, to) in Apply(o, c).events <==> o.state == from && Apply(o, c).core.state == to
  {
    hide FailedChecks, CoreInv, GetRollbackSteps;
    if c.StepComplete? {
      AcksMove(o, c, from, to);
    } else if c.Abort? || c.StepFailed? || c.AgentDisconnected? {
      FailuresMove(o, c, from, to);
    }
  }

  lemma AcksMove(o: Core, c: Call, from: MigrationState, to: MigrationState)
    requires from != to && c.StepComplete?
    ensures StateChange(from, to) in Apply(o, c).events <==> o.state == from && Apply(o, c).core.state == to
  {
    if Apply(o, c).core.state == Complete && o.state != Complete {
      assert Apply(o, c).events[1] == StateChange(o.state, Complete);
    }
  }

  lemma FailuresMove(o: Core, c: Call, from: MigrationState, to: MigrationState)
    requires from != to && from != Rollback && to !in {Rollback, Failed}
    requires c.Abort? || c.StepFailed? || c.AgentDisconnected?
    ensures StateChange(from, to) in Apply(o, c).events <==> o.state == from && Apply(o, c).core.state == to
  {
    hide GetRollbackSteps;
  }

  lemma EntersPairing(o: Core, c: Call)
    requires CoreInv(o)
    ensures PAIRED in Apply(o, c).events <==>
            o.state == Idle && c.AgentConnected? && Apply(o, c).core.agents == PerRole(true, true)
  {
    ChangeIsMove(o, c, Idle, Pairing);
  }

  /** PREFLIGHT begins exactly when an agent confirms the code in a session that is
      pairing and by then both have confirmed since it began to pair. */
  lemma PreflightNeedsBoth(createdAt: int, calls: seq<Call>, c: Call)
    ensures CONFIRMED in Emitted(createdAt, calls, c) <==>
            var since := Since(createdAt, calls, PAIRED) + [c];
            && Reached(TraceOf(createdAt, calls)) == Pairing && c.SasConfirmed?
            && SasConfirmed(Source) in since && SasConfirmed(Target) in since
  {
    hide TraceOf, Since, ConnectedAsCalled, ChecksAsCalled, AcksAsCalled;
    Standing(createdAt, calls);
    EntersPreflight(Run(NewMachine(createdAt), calls).core, Since(createdAt, calls, PAIRED), c);
  }

  lemma EntersPreflight(o: Core, since: seq<Call>, c: Call)
    requires CoreInv(o) && SasAsCalled(o, since)
    ensures CONFIRMED in Apply(o, c).events <==>
            o.state == Pairing && c.SasConfirmed? && SasConfirmed(Source) in since + [c] && SasConfirmed(Target) in since + [c]
  {
    hide IssueAll, FailedChecks;
    ChangeIsMove(o, c, Pairing, Preflight);
  }

  /** The window is awaited exactly when a result comes in preflight and by then the
      latest results of both agents since it began are all passed. */
  lemma WindowNeedsBothPassed(createdAt: int, calls: seq<Call>, c: Call)
    ensures CHECKED in Emitted(createdAt, calls, c) <==>
            var since := Since(createdAt, calls, CONFIRMED) + [c];
            && Reached(TraceOf(createdAt, calls)) == Preflight && c.PreflightResult?
            && LatestChecks(since, Source).Some? && AllPassed(LatestChecks(since, Source).value)
            && LatestChecks(since, Target).Some? && AllPassed(LatestChecks(since, Target).value)
  {
    hide TraceOf, Since, ConnectedAsCalled, SasAsCalled, AcksAsCalled, LatestChecks, AllPassed;
    Standing(createdAt, calls);
    var since := Since(createdAt, calls, CONFIRMED);
    EntersWindow(Run(NewMachine(createdAt), calls).core, since, c);
  }

  lemma LatestMore(since: seq<Call>, c: Call, r: Role)
    ensures LatestChecks(since + [c], r) ==
            if c.PreflightResult? && c.role == r then Some(c.checks) else LatestChecks(since, r)
  {
    SnocSplits(since, c);
  }

  /** The results as the orchestrator has them after call `c`. */
  function ChecksAfter(o: Core, c: Call): PerRole<Option<seq<PreflightCheck>>> {
    if c.PreflightResult? then o.preflight.Set(c.role, Some(c.checks)) else o.preflight
  }

  lemma AllPassedConcat(a: seq<PreflightCheck>, b: seq<PreflightCheck>)
    ensures FailedChecks(a + b) == [] <==> AllPassed(a) && AllPassed(b)
  {
    hide FailedChecks;
    assert forall i :: 0 <= i < |a| ==> (a + b)[i] == a[i];
    assert forall i :: 0 <= i < |b| ==> (a + b)[|a| + i] == b[i];
  }

  lemma EntersWindow(o: Core, since: seq<Call>, c: Call)
    requires CoreInv(o) && ChecksAsCalled(o, since)
    ensures CHECKED in Apply(o, c).events <==>
            && o.state == Preflight && c.PreflightResult?
            && LatestChecks(since + [c], Source).Some? && AllPassed(LatestChecks(since + [c], Source).value)
            && LatestChecks(since + [c], Target).Some? && AllPassed(LatestChecks(since + [c], Target).value)
  {
    hide IssueAll, FailedChecks, LatestChecks, AllPassed;
    var after := ChecksAfter(o, c);
    ChangeIsMove(o, c, Preflight, AwaitingWindow);
    LatestMore(since, c, Source);
    LatestMore(since, c, Target);
    if o.state == Preflight && c.PreflightResult? {
      assert LatestChecks(since + [c], Source) == after.source && LatestChecks(since + [c], Target) == after.target;
      if after.source.Some? && after.target.Some? {
        AllPassedConcat(after.source.value, after.target.value);
      }
    }
  }

  /** A failed preflight names what failed: when both agents' latest results are in and
      not all passed, the session fails with the failed checks, the source's first. */
  lemma PreflightFailsExactly(createdAt: int, calls: seq<Call>, c: Call, failed: seq<PreflightCheck>)
    ensures SessionFailed(PreflightFailed(failed)) in Emitted(createdAt, calls, c) <==>
            var since := Since(createdAt, calls, CONFIRMED) + [c];
            && Reached(TraceOf(createdAt, calls)) == Preflight && c.PreflightResult?
            && LatestChecks(since, Source).Some? && LatestChecks(since, Target).Some?
            && !(AllPassed(LatestChecks(since, Source).value) && AllPassed(LatestChecks(since, Target).value))
            && failed == FailedChecks(LatestChecks(since, Source).value) + FailedChecks(LatestChecks(since, Target).value)
  {
    hide TraceOf, Since, ConnectedAsCalled, SasAsCalled, AcksAsCalled, LatestChecks, AllPassed, FailedChecks;
    Standing(createdAt, calls);
    FailsPreflight(Run(NewMachine(createdAt), calls).core, Since(createdAt, calls, CONFIRMED), c, failed);
  }

  lemma FailsPreflight(o: Core, since: seq<Call>, c: Call, failed: seq<PreflightCheck>)
    requires CoreInv(o) && ChecksAsCalled(o, since)
    ensures SessionFailed(PreflightFailed(failed)) in Apply(o, c).events <==>
            && o.state == Preflight && c.PreflightResult?
            && LatestChecks(since + [c], Source).Some? && LatestChecks(since + [c], Target).Some?
            && !(AllPassed(LatestChecks(since + [c], Source).value) && AllPassed(LatestChecks(since + [c], Target).value))
            && failed == FailedChecks(LatestChecks(since + [c], Source).value)
                         + FailedChecks(LatestChecks(since + [c], Target).value)
  {
    hide IssueAll, FailedChecks, LatestChecks, AllPassed;
    LatestMore(since, c, Source);
    LatestMore(since, c, Target);
    var after := ChecksAfter(o, c);
    if o.state == Preflight && c.PreflightResult? {
      if after.source.Some? && after.target.Some? {
        AllPassedConcat(after.source.value, after.target.value);
        FailuresConcat(after.source.value, after.target.value);
      }
    } else {
      OtherReasons(o, c, failed);
    }
  }

  lemma OtherReasons(o: Core, c: Call, failed: seq<PreflightCheck>)
    requires o.state != Preflight || !c.PreflightResult?
    ensures SessionFailed(PreflightFailed(failed)) !in Apply(o, c).events
  {
  }

  /** A session goes back to IDLE exactly when an agent is lost while it pairs or
      checks; what was confirmed then is forgotten, as `PreflightNeedsBoth` says. */
  lemma IdleAgainExactly(createdAt: int, calls: seq<Call>, c: Call, from: MigrationState)
    requires from != Idle && from != Rollback
    ensures StateChange(from, Idle) in Emitted(createdAt, calls, c) <==>
            Reached(TraceOf(createdAt, calls)) == from && from in {Pairing, Preflight} && c.AgentDisconnected?
  {
    hide TraceOf, Ledger, FailedChecks;
    Standing(createdAt, calls);
    ChangeIsMove(Run(NewMachine(createdAt), calls).core, c, from, Idle);
  }

  /** Step `k` is dispatched exactly when the operator starts a session that awaits its
      window, for step 1, and when the step before it is completed, for the others;
      and it is dispatched to the agent the table names. */
  lemma DispatchedExactly(createdAt: int, calls: seq<Call>, c: Call, r: Role, k: int)
    ensures ExecuteStep(r, k) in Emitted(createdAt, calls, c) <==>
            && 1 <= k <= TOTAL_STEPS && r == (if 6 <= k <= 8 then Target else Source)
            && if k == 1 then Reached(TraceOf(createdAt, calls)) == AwaitingWindow && c.StartMigration?
               else StepCompleted(k - 1) in Emitted(createdAt, calls, c)
  {
    hide TraceOf, Ledger;
    Standing(createdAt, calls);
    DispatchesInCall(Run(NewMachine(createdAt), calls).core, c, r, k);
  }

  lemma DispatchesInCall(o: Core, c: Call, r: Role, k: int)
    requires CoreInv(o)
    ensures var events := Apply(o, c).events;
            ExecuteStep(r, k) in events <==>
            && 1 <= k <= TOTAL_STEPS && r == (if 6 <= k <= 8 then Target else Source)
            && if k == 1 then o.state == AwaitingWindow && c.StartMigration? else StepCompleted(k - 1) in events
  {
    hide FailedChecks;
    match c
    case StartMigration(_) =>
      if o.state == AwaitingWindow {
        assert Apply(o, c).events[1] == ExecuteStep(Source, 1);
      }
    case StepComplete(step, _, now) =>
      if Apply(o, c).events != [] {
        var events := Advance(o, now).events;
        assert Apply(o, c).events == events && events[0] == StepCompleted(o.currentStep);
        assert o.currentStep < TOTAL_STEPS ==> events[1] == ExecuteStep(ExecutorOf(o.currentStep + 1), o.currentStep + 1);
      }
    case _ => NoDispatch(o, c, r, k);
  }

  lemma NoDispatch(o: Core, c: Call, r: Role, k: int)
    requires !c.StartMigration? && !c.StepComplete?
    ensures ExecuteStep(r, k) !in Apply(o, c).events && StepCompleted(k - 1) !in Apply(o, c).events
  {
    hide FailedChecks, GetRollbackSteps;
  }

  /** Step `k` counts as completed exactly when it is the step in progress, the call
      reports it done and, for a bilateral step, both agents have reported it since it
      was dispatched. */
  lemma CompletedExactly(createdAt: int, calls: seq<Call>, c: Call, k: int)
    ensures StepCompleted(k) in Emitted(createdAt, calls, c) <==>
            var since := Since(createdAt, calls, ExecuteStep(if 6 <= k <= 8 then Target else Source, k)) + [c];
            && Reached(TraceOf(createdAt, calls)) == Migrating && Dispatched(TraceOf(createdAt, calls)) == k
            && c.StepComplete? && c.step == k
            && (k in {4, 5} ==> Acked(since, k, Source) && Acked(since, k, Target))
  {
    hide TraceOf, Since, ConnectedAsCalled, SasAsCalled, ChecksAsCalled, Acked;
    Standing(createdAt, calls);
    var o := Run(NewMachine(createdAt), calls).core;
    CompletesInCall(o, Since(createdAt, calls, DispatchOf(o.currentStep)), c, k);
  }

  lemma CompletesInCall(o: Core, since: seq<Call>, c: Call, k: int)
    requires CoreInv(o) && AcksAsCalled(o, since)
    ensures StepCompleted(k) in Apply(o, c).events <==>
            && o.state == Migrating && o.currentStep == k && c.StepComplete? && c.step == k
            && (k in {4, 5} ==> Acked(since + [c], k, Source) && Acked(since + [c], k, Target))
  {
    hide Acked, FailedChecks;
    AckedMore(since, c, k, Source);
    AckedMore(since, c, k, Target);
    if c.StepComplete? {
      if Current(o, c.step) && c.step in BILATERAL_STEPS {
        var got := AcksAt(o, c.step) + {c.role};
        AckedMore(since, c, c.step, Source);
        AckedMore(since, c, c.step, Target);
        assert Source in got <==> Acked(since + [c], c.step, Source);
        assert Target in got <==> Acked(since + [c], c.step, Target);
      }
      CompletionsOf(o, c, k);
    } else {
      assert StepCompleted(k) !in Apply(o, c).events;
    }
  }

  lemma CompletionsOf(o: Core, c: Call, k: int)
    requires c.StepComplete?
    ensures StepCompleted(k) in Apply(o, c).events <==>
            && Current(o, c.step) && k == c.step
            && (k in BILATERAL_STEPS ==> Source in AcksAt(o, k) + {c.role} && Target in AcksAt(o, k) + {c.role})
  {
    if Apply(o, c).events != [] {
      assert Apply(o, c).events[0] == StepCompleted(o.currentStep);
    }
  }

  /** A failure of step `k` is reported exactly when it is the step in progress and an
      agent reports that it failed; and in the name of that agent. */
  lemma FailedStepExactly(createdAt: int, calls: seq<Call>, c: Call, k: int, r: Role)
    ensures StepFailedEvent(k, r) in Emitted(createdAt, calls, c) <==>
            && Reached(TraceOf(createdAt, calls)) == Migrating && Dispatched(TraceOf(createdAt, calls)) == k
            && c.StepFailed? && c.step == k && c.role == r
  {
    hide TraceOf, Ledger, CoreInv;
    Standing(createdAt, calls);
    FailuresInCall(Run(NewMachine(createdAt), calls).core, c, k, r);
  }

  lemma FailuresInCall(o: Core, c: Call, k: int, r: Role)
    ensures StepFailedEvent(k, r) in Apply(o, c).events <==>
            o.state == Migrating && o.currentStep == k && c.StepFailed? && c.step == k && c.role == r
  {
    hide FailedChecks, GetRollbackSteps;
    if c.StepFailed? && Current(o, c.step) {
      assert Apply(o, c).events[0] == StepFailedEvent(c.step, c.role);
    }
  }

  /** The alert is raised exactly when the target is lost from step 5 on. */
  lemma AlertExactly(createdAt: int, calls: seq<Call>, c: Call, k: int)
    ensures CriticalAlert(k) in Emitted(createdAt, calls, c) <==>
            && Reached(TraceOf(createdAt, calls)) == Migrating && Dispatched(TraceOf(createdAt, calls)) == k >= 5
            && c == AgentDisconnected(Target)
  {
    hide TraceOf, Ledger, CoreInv;
    Standing(createdAt, calls);
    AlertsInCall(Run(NewMachine(createdAt), calls).core, c, k);
  }

  lemma AlertsInCall(o: Core, c: Call, k: int)
    ensures CriticalAlert(k) in Apply(o, c).events <==>
            o.state == Migrating && o.currentStep == k >= 5 && c == AgentDisconnected(Target)
  {
    hide FailedChecks, GetRollbackSteps;
    if o.state == Migrating && o.currentStep >= 5 && c == AgentDisconnected(Target) {
      assert Apply(o, c).events == [CriticalAlert(o.currentStep)];
    }
  }

  /** Why the session failed, if not in preflight: who aborted it and whether anything
      had to be rolled back, where the source was lost, or which step failed on whom
      with what error. */
  lemma FailsExactly(createdAt: int, calls: seq<Call>, c: Call, reason: Reason)
    requires !reason.PreflightFailed?
    ensures SessionFailed(reason) in Emitted(createdAt, calls, c) <==>
            var state, k := Reached(TraceOf(createdAt, calls)), Dispatched(TraceOf(createdAt, calls));
            match c
            case Abort(text) =>
              state !in {Complete, Failed}
              && reason == if state == Migrating && k >= 2 then Plain(text) else AbortedBecause(text)
            case AgentDisconnected(r) => state == Migrating && r == Source && k < 5 && reason == SourceLost(k)
            case StepFailed(step, r, error) => state == Migrating && step == k && reason == StepFailure(k, r, error)
            case _ => false
  {
    hide TraceOf, Ledger, CoreInv;
    Standing(createdAt, calls);
    ReasonsInCall(Run(NewMachine(createdAt), calls).core, c, reason);
  }

  lemma ReasonsInCall(o: Core, c: Call, reason: Reason)
    requires !reason.PreflightFailed?
    ensures SessionFailed(reason) in Apply(o, c).events <==>
            match c
            case Abort(text) =>
              o.state !in {Complete, Failed}
              && reason == if o.state == Migrating && o.currentStep >= 2 then Plain(text) else AbortedBecause(text)
            case AgentDisconnected(r) =>
              o.state == Migrating && r == Source && o.currentStep < 5 && reason == SourceLost(o.currentStep)
            case StepFailed(step, r, error) =>
              o.state == Migrating && step == o.currentStep && reason == StepFailure(o.currentStep, r, error)
            case _ => false
  {
    hide FailedChecks, GetRollbackSteps;
    var events := Apply(o, c).events;
    LastIsReason(o, c);
  }

  /** A reason stands at the end or nowhere. */
  lemma LastIsReason(o: Core, c: Call)
    ensures var events := Apply(o, c).events;
            forall reason :: SessionFailed(reason) in events <==>
              events != [] && events[|events| - 1] == SessionFailed(reason)
  {
    hide FailedChecks, GetRollbackSteps;
  }

  /** The summary is sent exactly when step 9 is completed, and it is true: nine steps,
      timed from the operator's start to this call. */
  lemma SummaryIsTrue(createdAt: int, calls: seq<Call>, c: Call, summary: Summary)
    ensures SessionComplete(summary) in Emitted(createdAt, calls, c) <==>
            && StepCompleted(9) in Emitted(createdAt, calls, c) && c.StepComplete?
            && summary == Summary(StartedAt(createdAt, calls), c.now, c.now - StartedAt(createdAt, calls), 9, Complete)
  {
    hide TraceOf, StartedAt, Since, ConnectedAsCalled, SasAsCalled, ChecksAsCalled, AcksAsCalled;
    Standing(createdAt, calls);
    SummaryInCall(Run(NewMachine(createdAt), calls).core, c, summary, StartedAt(createdAt, calls));
  }

  lemma SummaryInCall(o: Core, c: Call, summary: Summary, began: int)
    requires CoreInv(o) && (o.state == Migrating ==> o.migrationStartedAt == Some(began))
    ensures SessionComplete(summary) in Apply(o, c).events <==>
            && StepCompleted(9) in Apply(o, c).events && c.StepComplete?
            && summary == Summary(began, c.now, c.now - began, 9, Complete)
  {
    hide FailedChecks, GetRollbackSteps;
    if c.StepComplete? && Apply(o, c).events != [] {
      var events := Advance(o, c.now).events;
      assert Apply(o, c).events == events && events[0] == StepCompleted(o.currentStep);
      assert o.currentStep == 9 ==> |events| == 3 && events[2] == SessionComplete(Summary(began, c.now, c.now - began, 9, Complete));
    }
  }

  // ---------- The state diagram ----------

  /** Some orchestrator in a state that can be makes this change in one call. */
  ghost predicate Taken(from: MigrationState, to: MigrationState) {
    exists o, c :: CoreInv(o) && StateChange(from, to) in Apply(o, c).events
  }

  /** An orchestrator in the given state, both agents there, at step `k` if migrating. */
  function Sample(state: MigrationState, k: int): Core {
    var both := state in {Pairing, Preflight, AwaitingWindow, Migrating};
    Core(state, PerRole(both, true), PerRole(state == Preflight, both),
         PerRole(None, if state == Preflight then Some([]) else None),
         if state == Migrating then k else 0, if state == Migrating then k - 1 else 0, true, 0,
         if state == Migrating then Some(0) else None, map[])
  }

  /** The call that takes the sample from its state to `to`. */
  function Mover(from: MigrationState, to: MigrationState): Call {
    if to == Pairing then AgentConnected(Source)
    else if to == Idle then AgentDisconnected(Source)
    else if to == Preflight then SasConfirmed(Source)
    else if to == AwaitingWindow then PreflightResult(Source, [])
    else if to == Migrating then StartMigration(0)
    else if to == Complete then StepComplete(9, Source, 0)
    else if to == Rollback || from == Rollback then StepFailed(2, Source, "")
    else Abort("")
  }

  /** The diagram allows a change exactly if some call makes it: no call is stopped by
      it, and it has no edge to spare. */
  lemma DiagramIsExact(from: MigrationState, to: MigrationState)
    ensures to in AllowedTransitions(from) <==> Taken(from, to)
  {
    hide CoreInv;
    if to in AllowedTransitions(from) {
      var k := if to == Complete then 9 else if to == Rollback || from == Rollback then 2 else 1;
      var o := Sample(if from == Rollback then Migrating else from, k);
      SampleMoves(from, to, k);
      assert CoreInv(o) && StateChange(from, to) in Apply(o, Mover(from, to)).events;
    }
    if Taken(from, to) {
      var o, c :| CoreInv(o) && StateChange(from, to) in Apply(o, c).events;
      OnlyAllowed(o, c, from, to);
    }
  }

  lemma SampleMoves(from: MigrationState, to: MigrationState, k: int)
    requires to in AllowedTransitions(from)
    requires k == if to == Complete then 9 else if to == Rollback || from == Rollback then 2 else 1
    ensures var o := Sample(if from == Rollback then Migrating else from, k);
            CoreInv(o) && StateChange(from, to) in Apply(o, Mover(from, to)).events
  {
    var o := Sample(if from == Rollback then Migrating else from, k);
    var events := Apply(o, Mover(from, to)).events;
    if to == Complete {
      assert events[1] == StateChange(Migrating, Complete);
    } else if to == Rollback {
      assert events[1] == StateChange(Migrating, Rollback);
    } else if from == Rollback {
      assert events[|events| - 2] == StateChange(Rollback, Failed);
    } else {
      assert events[0] == StateChange(from, to);
    }
  }

  lemma OnlyAllowed(o: Core, c: Call, from: MigrationState, to: MigrationState)
    requires CoreInv(o) && StateChange(from, to) in Apply(o, c).events
    ensures to in AllowedTransitions(from)
  {
    hide FailedChecks, GetRollbackSteps;
    if c.Abort? || c.StepFailed? || c.AgentDisconnected? {
      FailuresAllowed(o, c, from, to);
    }
  }

  lemma FailuresAllowed(o: Core, c: Call, from: MigrationState, to: MigrationState)
    requires CoreInv(o) && StateChange(from, to) in Apply(o, c).events
    requires c.Abort? || c.StepFailed? || c.AgentDisconnected?
    ensures to in AllowedTransitions(from)
  {
    hide FailedChecks, GetRollbackSteps;
    NeverRollingBack(o);
    hide CoreInv;
  }

  lemma NeverRollingBack(o: Core)
    requires CoreInv(o)
    ensures o.state != Rollback
  {
  }
}
