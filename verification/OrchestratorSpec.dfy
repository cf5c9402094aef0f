/** What one call of the hub's MigrationOrchestrator does to its fields and which
    events it emits, as a function. The class in Orchestrator.dfy is proved to
    compute exactly this; the theorems about whole runs are stated here. */
module OrchestratorSpec {
  import opened Protocol

  datatype PreflightCheck = PreflightCheck(name: string, ok: bool, detail: Option<string>)

  /** The structure of the reason texts. */
  datatype Reason =
    | Plain(text: string)
    | AbortedBecause(text: string)
    | PreflightFailed(failed: seq<PreflightCheck>)
    | StepFailure(step: int, role: Role, error: string)
    | SourceLost(step: int)

  datatype Summary = Summary(
    startedAt: int,
    finishedAt: int,
    durationMs: int,
    stepsCompleted: int,
    finalState: MigrationState)

  datatype Event =
    | StateChange(from: MigrationState, to: MigrationState)
    | ExecuteStep(executor: Role, step: int)
    | StepCompleted(step: int)
    | StepFailedEvent(step: int, role: Role)
    | RollbackIssued(rollbackStep: RollbackStep)
    | SessionComplete(summary: Summary)
    | SessionFailed(reason: Reason)
    | CriticalAlert(step: int)

  datatype CallError = AlreadyStarted | InvalidTransition(from: MigrationState, to: MigrationState)

  /** The public methods. `now` is the clock reading taken inside the call. */
  datatype Call =
    | Start
    | Abort(reason: string)
    | AgentConnected(role: Role)
    | AgentDisconnected(role: Role)
    | SasConfirmed(role: Role)
    | PreflightResult(role: Role, checks: seq<PreflightCheck>)
    | StartMigration(now: int)
    | StepComplete(step: int, role: Role, now: int)
    | StepFailed(step: int, role: Role, error: string)

  /** The orchestrator's fields. */
  datatype Core = Core(
    state: MigrationState,
    agents: PerRole<bool>,
    sas: PerRole<bool>,
    preflight: PerRole<Option<seq<PreflightCheck>>>,
    currentStep: int,
    stepsCompleted: int,
    started: bool,
    createdAt: int,
    migrationStartedAt: Option<int>,
    acks: map<int, set<Role>>)

  datatype Outcome = Outcome(core: Core, events: seq<Event>, error: Option<CallError>)

  function Fresh(createdAt: int): Core {
    Core(Idle, PerRole(false, false), PerRole(false, false), PerRole(None, None), 0, 0, false, createdAt, None, map[])
  }

  function Unmoved(o: Core): Outcome {
    Outcome(o, [], None)
  }

  function Enter(o: Core, to: MigrationState): Outcome {
    Outcome(o.(state := to), [StateChange(o.state, to)], None)
  }

  function FailWith(o: Core, events: seq<Event>, reason: Reason): Outcome {
    Outcome(o.(state := Failed), events + [StateChange(o.state, Failed), SessionFailed(reason)], None)
  }

  function IssueAll(steps: seq<RollbackStep>): seq<Event> {
    seq(|steps|, i requires 0 <= i < |steps| => RollbackIssued(steps[i]))
  }

  /** Rollback runs to FAILED within one call; `events` were emitted before it. */
  function RollBack(o: Core, events: seq<Event>, reason: Reason): Outcome {
    Outcome(o.(state := Failed),
            events + [StateChange(o.state, Rollback)] + IssueAll(GetRollbackSteps(o.currentStep))
            + [StateChange(Rollback, Failed), SessionFailed(reason)],
            None)
  }

  function OnAbort(o: Core, reason: string): Outcome {
    if IsTerminal(o.state) then Unmoved(o)
    else if o.state == Migrating && ShouldRollback(o.currentStep) then RollBack(o, [], Plain(reason))
    else FailWith(o, [], AbortedBecause(reason))
  }

  function OnAgentConnected(o: Core, r: Role): Outcome {
    var p := o.(agents := o.agents.Set(r, true));
    if o.state == Idle && p.agents == PerRole(true, true) then Enter(p, Pairing) else Unmoved(p)
  }

  function OnAgentDisconnected(o: Core, r: Role): Outcome {
    var p := o.(agents := o.agents.Set(r, false));
    if o.state == Pairing || o.state == Preflight then
      Enter(p.(sas := PerRole(false, false), preflight := PerRole(None, None)), Idle)
    else if o.state == Migrating && r == Source && o.currentStep < 5 then
      RollBack(p, [], SourceLost(o.currentStep))
    else if o.state == Migrating && r == Target && o.currentStep >= 5 then
      Outcome(p, [CriticalAlert(o.currentStep)], None)
    else
      Unmoved(p)
  }

  function OnSasConfirmed(o: Core, r: Role): Outcome {
    if o.state != Pairing then Unmoved(o)
    else
      var p := o.(sas := o.sas.Set(r, true));
      if p.sas == PerRole(true, true) then Enter(p, Preflight) else Unmoved(p)
  }

  function FailedChecks(checks: seq<PreflightCheck>): (failed: seq<PreflightCheck>)
    ensures failed == [] <==> forall i :: 0 <= i < |checks| ==> checks[i].ok
  {
    if checks == [] then []
    else if checks[0].ok then FailedChecks(checks[1..])
    else [checks[0]] + FailedChecks(checks[1..])
  }

  function OnPreflightResult(o: Core, r: Role, checks: seq<PreflightCheck>): Outcome {
    if o.state != Preflight then Unmoved(o)
    else
      var p := o.(preflight := o.preflight.Set(r, Some(checks)));
      if p.preflight.source.None? || p.preflight.target.None? then Unmoved(p)
      else
        var failed := FailedChecks(p.preflight.source.value + p.preflight.target.value);
        if failed != [] then FailWith(p, [], PreflightFailed(failed))
        else Enter(p, AwaitingWindow)
  }

  function OnStartMigration(o: Core, now: int): Outcome {
    if o.state != AwaitingWindow then Outcome(o, [], Some(InvalidTransition(o.state, Migrating)))
    else
      Outcome(o.(state := Migrating, migrationStartedAt := Some(now), currentStep := 1),
              [StateChange(AwaitingWindow, Migrating), ExecuteStep(ExecutorOf(1), 1)],
              None)
  }

  function AcksAt(o: Core, step: int): set<Role> {
    if step in o.acks then o.acks[step] else {}
  }

  /** A result counts only while MIGRATING and only for the step in progress. */
  predicate Current(o: Core, step: int) {
    o.state == Migrating && step == o.currentStep
  }

  /** The current step is over: dispatch the next one or finish. */
  function Advance(o: Core, now: int): Outcome {
    var p := o.(stepsCompleted := o.stepsCompleted + 1);
    if o.currentStep == TOTAL_STEPS then
      var startedAt := if o.migrationStartedAt.Some? then o.migrationStartedAt.value else o.createdAt;
      Outcome(p.(state := Complete),
              [StepCompleted(o.currentStep), StateChange(o.state, Complete),
               SessionComplete(Summary(startedAt, now, now - startedAt, p.stepsCompleted, Complete))],
              None)
    else
      Outcome(p.(currentStep := o.currentStep + 1),
              [StepCompleted(o.currentStep), ExecuteStep(ExecutorOf(o.currentStep + 1), o.currentStep + 1)],
              None)
  }

  function OnStepComplete(o: Core, step: int, r: Role, now: int): Outcome {
    if !Current(o, step) then Unmoved(o)
    else if step !in BILATERAL_STEPS then Advance(o, now)
    else
      var got := AcksAt(o, step) + {r};
      if Source in got && Target in got then Advance(o.(acks := o.acks - {step}), now)
      else Unmoved(o.(acks := o.acks[step := got]))
  }

  function OnStepFailed(o: Core, step: int, r: Role, error: string): Outcome {
    if !Current(o, step) then Unmoved(o)
    else if ShouldRollback(step) then
      RollBack(o, [StepFailedEvent(step, r)], StepFailure(step, r, error))
    else
      FailWith(o, [StepFailedEvent(step, r)], StepFailure(step, r, error))
  }

  function Apply(o: Core, c: Call): Outcome {
    match c
    case Start =>
      if o.started then Outcome(o, [], Some(AlreadyStarted)) else Unmoved(o.(started := true))
    case Abort(reason) => OnAbort(o, reason)
    case AgentConnected(r) => OnAgentConnected(o, r)
    case AgentDisconnected(r) => OnAgentDisconnected(o, r)
    case SasConfirmed(r) => OnSasConfirmed(o, r)
    case PreflightResult(r, checks) => OnPreflightResult(o, r, checks)
    case StartMigration(now) => OnStartMigration(o, now)
    case StepComplete(step, r, now) => OnStepComplete(o, step, r, now)
    case StepFailed(step, r, error) => OnStepFailed(o, step, r, error)
  }

  // ---------- The invariant ----------

  /** What holds in each state between calls. ROLLBACK is never one of them. */
  predicate CoreInv(o: Core) {
    && (o.state == Idle ==> o.agents != PerRole(true, true) && o.sas == PerRole(false, false))
    && (o.state == Pairing ==> o.agents == PerRole(true, true) && o.sas != PerRole(true, true))
    && (o.state == Preflight ==>
          o.agents == PerRole(true, true) && o.sas == PerRole(true, true)
          && (o.preflight.source.None? || o.preflight.target.None?))
    && (o.state in {Idle, Pairing} ==> o.preflight == PerRole(None, None))
    && (o.state in {Idle, Pairing, Preflight, AwaitingWindow} ==>
          o.currentStep == 0 && o.stepsCompleted == 0 && o.acks == map[] && o.migrationStartedAt == None)
    && (o.state == Migrating ==>
          1 <= o.currentStep <= TOTAL_STEPS && o.stepsCompleted == o.currentStep - 1
          && o.migrationStartedAt.Some? && PendingOnly(o))
    && o.state != Rollback
    && (o.state == Complete ==> o.currentStep == TOTAL_STEPS == o.stepsCompleted && o.acks == map[])
    && (o.state == Failed ==>
          0 <= o.currentStep <= TOTAL_STEPS && 0 <= o.stepsCompleted == (if o.currentStep == 0 then 0 else o.currentStep - 1))
  }

  /** Pending acks belong to the bilateral step in progress and come from one agent. */
  predicate PendingOnly(o: Core) {
    o.acks == map[]
    || (o.currentStep in BILATERAL_STEPS && exists r :: o.acks == map[o.currentStep := {r}])
  }

  // ---------- A reference automaton for traces ----------

  /** Reads a trace one event at a time and rejects the first one that is out of
      place. It knows nothing of the orchestrator's fields. */
  datatype Monitor =
    | Rejecting
    | Watching(state: MigrationState, dispatched: int, completed: int, rollbacks: int, closed: bool)

  const MONITOR_START := Watching(Idle, 0, 0, 0, false)

  function Observe(m: Monitor, e: Event): Monitor {
    if m.Rejecting? || m.closed then Rejecting
    else if Expected(m, e) then
      match e
      case StateChange(_, to) => m.(state := to)
      case ExecuteStep(_, n) => m.(dispatched := n)
      case StepCompleted(n) => m.(completed := n)
      case StepFailedEvent(_, _) => m
      case RollbackIssued(_) => m.(rollbacks := m.rollbacks + 1)
      case SessionComplete(_) => m.(closed := true)
      case SessionFailed(_) => m.(closed := true)
      case CriticalAlert(_) => m
    else Rejecting
  }

  predicate Expected(m: Monitor, e: Event)
    requires m.Watching?
  {
    match e
    case StateChange(from, to) =>
      && from == m.state && to in AllowedTransitions(from)
      && (to == Complete ==> m.completed == TOTAL_STEPS)
      && (from == Rollback ==> m.rollbacks == if ShouldRollback(m.dispatched) then |ROLLBACK_SEQUENCE| else 0)
    case ExecuteStep(r, n) =>
      m.state == Migrating && m.completed == m.dispatched && n == m.dispatched + 1 <= TOTAL_STEPS && r == ExecutorOf(n)
    case StepCompleted(n) =>
      m.state == Migrating && n == m.dispatched == m.completed + 1
    case StepFailedEvent(n, r) =>
      m.state == Migrating && n == m.dispatched == m.completed + 1
    case RollbackIssued(s) =>
      m.state == Rollback && 0 <= m.rollbacks < |ROLLBACK_SEQUENCE| && s == ROLLBACK_SEQUENCE[m.rollbacks]
    case SessionComplete(sum) =>
      m.state == Complete && sum.stepsCompleted == TOTAL_STEPS && sum.finalState == Complete
      && sum.durationMs == sum.finishedAt - sum.startedAt
    case SessionFailed(_) =>
      m.state == Failed
    case CriticalAlert(n) =>
      m.state == Migrating && n == m.dispatched == m.completed + 1 && n >= 5
  }

  function ObserveAll(m: Monitor, trace: seq<Event>): Monitor {
    if trace == [] then m else Observe(ObserveAll(m, trace[..|trace| - 1]), trace[|trace| - 1])
  }

  // ---------- Runs ----------

  /** The orchestrator together with everything it has emitted. */
  datatype Machine = Machine(core: Core, trace: seq<Event>)

  function Step(m: Machine, c: Call): Machine {
    var out := Apply(m.core, c);
    Machine(out.core, m.trace + out.events)
  }

  function Run(m: Machine, calls: seq<Call>): Machine {
    if calls == [] then m else Step(Run(m, calls[..|calls| - 1]), calls[|calls| - 1])
  }

  function NewMachine(createdAt: int): Machine {
    Machine(Fresh(createdAt), [])
  }

  /** The fields agree with what the trace says happened. */
  predicate Agrees(o: Core, m: Monitor) {
    && m.Watching?
    && m.state == o.state
    && m.dispatched == o.currentStep
    && m.completed == o.stepsCompleted
    && m.closed == IsTerminal(o.state)
    && m.rollbacks in {0, |ROLLBACK_SEQUENCE|}
    && (o.state != Failed ==> m.rollbacks == 0)
  }

  predicate MachineInv(m: Machine) {
    CoreInv(m.core) && Agrees(m.core, ObserveAll(MONITOR_START, m.trace))
  }

  // ---------- Every call keeps the invariant ----------

  lemma {:induction false} ObserveConcat(m: Monitor, a: seq<Event>, b: seq<Event>)
    ensures ObserveAll(m, a + b) == ObserveAll(ObserveAll(m, a), b)
  {
    if b == [] {
      assert a + b == a;
    } else {
      var last := |b| - 1;
      assert (a + b)[..|a + b| - 1] == a + b[..last];
      ObserveConcat(m, a, b[..last]);
    }
  }

  lemma ObserveOne(m: Monitor, e: Event)
    ensures ObserveAll(m, [e]) == Observe(m, e)
  {
    assert [e][..0] == [];
  }

  lemma ObserveTwo(m: Monitor, e: Event, f: Event)
    ensures ObserveAll(m, [e, f]) == Observe(Observe(m, e), f)
  {
    assert [e, f][..1] == [e];
    ObserveOne(m, e);
  }

  lemma ObserveThree(m: Monitor, e: Event, f: Event, g: Event)
    ensures ObserveAll(m, [e, f, g]) == Observe(Observe(Observe(m, e), f), g)
  {
    assert [e, f, g][..2] == [e, f];
    ObserveTwo(m, e, f);
  }

  /** Started in ROLLBACK, the whole table is accepted. */
  lemma ObserveTable(m: Monitor)
    requires m.Watching? && !m.closed && m.state == Rollback && m.rollbacks == 0
    ensures ObserveAll(m, IssueAll(ROLLBACK_SEQUENCE)) == m.(rollbacks := 4)
  {
    var all := IssueAll(ROLLBACK_SEQUENCE);
    var two := [RollbackIssued(ROLLBACK_SEQUENCE[0]), RollbackIssued(ROLLBACK_SEQUENCE[1])];
    var rest := [RollbackIssued(ROLLBACK_SEQUENCE[2]), RollbackIssued(ROLLBACK_SEQUENCE[3])];
    assert all == two + rest;
    ObserveConcat(m, two, rest);
    ObserveTwo(m, two[0], two[1]);
    ObserveTwo(m.(rollbacks := 2), rest[0], rest[1]);
  }

  /** A rollback, whatever preceded it in the call, is accepted and closes the trace. */
  lemma ObserveRollBack(o: Core, m: Monitor, events: seq<Event>, reason: Reason)
    requires o.state == Migrating && Agrees(o, ObserveAll(m, events))
    ensures Agrees(o.(state := Failed), ObserveAll(m, RollBack(o, events, reason).events))
  {
    hide ObserveAll;
    var enter := [StateChange(o.state, Rollback)];
    var table := IssueAll(GetRollbackSteps(o.currentStep));
    var leave := [StateChange(Rollback, Failed), SessionFailed(reason)];
    var m1 := ObserveAll(m, events);
    var m2 := m1.(state := Rollback);
    ObserveConcat(m, events + enter + table, leave);
    ObserveConcat(m, events + enter, table);
    ObserveConcat(m, events, enter);
    ObserveOne(m1, enter[0]);
    if ShouldRollback(o.currentStep) {
      ObserveTable(m2);
      ObserveTwo(m2.(rollbacks := 4), leave[0], leave[1]);
    } else {
      ObserveNone(m2);
      assert table == [];
      ObserveTwo(m2, leave[0], leave[1]);
    }
  }

  lemma ObserveNone(m: Monitor)
    ensures ObserveAll(m, []) == m
  {
  }

  lemma ObserveFailWith(o: Core, m: Monitor, events: seq<Event>, reason: Reason)
    requires o.state in {Idle, Pairing, Preflight, AwaitingWindow, Migrating}
    requires Agrees(o, ObserveAll(m, events))
    ensures Agrees(o.(state := Failed), ObserveAll(m, FailWith(o, events, reason).events))
  {
    var leave := [StateChange(o.state, Failed), SessionFailed(reason)];
    ObserveConcat(m, events, leave);
    ObserveTwo(ObserveAll(m, events), leave[0], leave[1]);
  }

  /** Every call keeps the per-state invariant of the fields. */
  lemma ApplyKeepsCore(o: Core, c: Call)
    requires CoreInv(o)
    ensures CoreInv(Apply(o, c).core)
  {
    hide FailedChecks, IssueAll, GetRollbackSteps, OnStepComplete;
    match c
    case StepComplete(step, r, now) => StepCompleteKeepsCore(o, step, r, now);
    case _ =>
  }

  lemma StepCompleteKeepsCore(o: Core, step: int, r: Role, now: int)
    requires CoreInv(o)
    ensures CoreInv(OnStepComplete(o, step, r, now).core)
  {
    if Current(o, step) && step in BILATERAL_STEPS {
      if o.acks == map[] {
        assert AcksAt(o, step) + {r} == {r};
        assert o.acks[step := {r}] == map[step := {r}];
      } else {
        var q :| o.acks == map[o.currentStep := {q}];
        assert o.acks - {step} == map[];
        if q == r {
          assert {q} + {r} == {r};
          assert o.acks[step := {r}] == map[step := {r}];
        } else {
          assert Source in {q} + {r} && Target in {q} + {r};
        }
      }
    }
  }

  lemma ObserveApply(o: Core, c: Call, m: Monitor)
    requires CoreInv(o) && Agrees(o, m)
    ensures Agrees(Apply(o, c).core, ObserveAll(m, Apply(o, c).events))
  {
    hide OnAgentDisconnected, OnPreflightResult, OnStepComplete, OnStepFailed;
    match c
    case Start =>
    case Abort(reason) =>
      if IsTerminal(o.state) {
      } else if o.state == Migrating && ShouldRollback(o.currentStep) {
        ObserveRollBack(o, m, [], Plain(reason));
      } else {
        ObserveFailWith(o, m, [], AbortedBecause(reason));
      }
    case AgentConnected(r) =>
      ObserveOne(m, StateChange(Idle, Pairing));
    case AgentDisconnected(r) =>
      ObserveDisconnect(o, r, m);
    case SasConfirmed(r) =>
      ObserveOne(m, StateChange(Pairing, Preflight));
    case PreflightResult(r, checks) =>
      ObservePreflight(o, r, checks, m);
    case StartMigration(now) =>
      ObserveTwo(m, StateChange(AwaitingWindow, Migrating), ExecuteStep(ExecutorOf(1), 1));
    case StepComplete(step, r, now) =>
      ObserveStepComplete(o, step, r, now, m);
    case StepFailed(step, r, error) =>
      ObserveStepFailed(o, step, r, error, m);
  }

  lemma ObserveDisconnect(o: Core, r: Role, m: Monitor)
    requires CoreInv(o) && Agrees(o, m)
    ensures var out := OnAgentDisconnected(o, r); Agrees(out.core, ObserveAll(m, out.events))
  {
    var p := o.(agents := o.agents.Set(r, false));
    ObserveOne(m, StateChange(o.state, Idle));
    ObserveOne(m, CriticalAlert(o.currentStep));
    if o.state == Migrating {
      ObserveRollBack(p, m, [], SourceLost(o.currentStep));
    }
  }

  lemma ObservePreflight(o: Core, r: Role, checks: seq<PreflightCheck>, m: Monitor)
    requires CoreInv(o) && Agrees(o, m)
    ensures var out := OnPreflightResult(o, r, checks); Agrees(out.core, ObserveAll(m, out.events))
  {
    ObserveOne(m, StateChange(Preflight, AwaitingWindow));
    if o.state == Preflight {
      var p := o.(preflight := o.preflight.Set(r, Some(checks)));
      if p.preflight.source.Some? && p.preflight.target.Some? {
        ObserveFailWith(p, m, [], PreflightFailed(FailedChecks(p.preflight.source.value + p.preflight.target.value)));
      }
    }
  }

  lemma ObserveStepFailed(o: Core, step: int, r: Role, error: string, m: Monitor)
    requires CoreInv(o) && Agrees(o, m)
    ensures var out := OnStepFailed(o, step, r, error); Agrees(out.core, ObserveAll(m, out.events))
  {
    if Current(o, step) {
      ObserveOne(m, StepFailedEvent(step, r));
      if ShouldRollback(step) {
        ObserveRollBack(o, m, [StepFailedEvent(step, r)], StepFailure(step, r, error));
      } else {
        ObserveFailWith(o, m, [StepFailedEvent(step, r)], StepFailure(step, r, error));
      }
    }
  }

  lemma ObserveStepComplete(o: Core, step: int, r: Role, now: int, m: Monitor)
    requires CoreInv(o) && Agrees(o, m)
    ensures var out := OnStepComplete(o, step, r, now);
            Agrees(out.core, ObserveAll(m, out.events))
  {
    var out := OnStepComplete(o, step, r, now);
    if |out.events| == 2 {
      ObserveTwo(m, out.events[0], out.events[1]);
      assert out.events == [out.events[0], out.events[1]];
    } else if |out.events| == 3 {
      ObserveThree(m, out.events[0], out.events[1], out.events[2]);
      assert out.events == [out.events[0], out.events[1], out.events[2]];
    }
  }

  /** Every public call keeps the invariant of the fields and of the trace. */
  lemma StepKeepsInv(m: Machine, c: Call)
    requires MachineInv(m)
    ensures MachineInv(Step(m, c))
  {
    ApplyKeepsCore(m.core, c);
    ObserveConcat(MONITOR_START, m.trace, Apply(m.core, c).events);
    ObserveApply(m.core, c, ObserveAll(MONITOR_START, m.trace));
  }

  /** Over every sequence of public calls the per-state invariant holds and the
      trace is one the reference automaton accepts, in agreement with the fields. */
  lemma {:induction false} RunKeepsInv(m: Machine, calls: seq<Call>)
    requires MachineInv(m)
    ensures MachineInv(Run(m, calls))
  {
    if calls != [] {
      RunKeepsInv(m, calls[..|calls| - 1]);
      StepKeepsInv(Run(m, calls[..|calls| - 1]), calls[|calls| - 1]);
    }
  }

  lemma NewMachineInv(createdAt: int)
    ensures MachineInv(NewMachine(createdAt))
  {
  }
}
