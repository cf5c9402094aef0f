/** The hub's MigrationOrchestrator with its own fields. A call that throws returns
    the error; the events it emits are appended to `emitted`. */
module Orchestrator {
  import opened Protocol
  import opened OrchestratorSpec

  lemma FourParts(before: seq<Event>, a: seq<Event>, b: seq<Event>, c: Event, d: Event)
    ensures before + a + b + [c] + [d] == before + ([] + a + b + [c, d])
  {
  }

  lemma StepInRange(m: Machine)
    requires MachineInv(m)
    ensures m.core.state == Migrating ==> 1 <= m.core.currentStep <= TOTAL_STEPS
  {
  }

  /** A failure's event is followed by what the failure alone emits. */
  lemma FailureEventFirst(o: Core, e: Event, reason: Reason)
    ensures RollBack(o, [e], reason) == RollBack(o, [], reason).(events := [e] + RollBack(o, [], reason).events)
    ensures FailWith(o, [e], reason) == FailWith(o, [], reason).(events := [e] + FailWith(o, [], reason).events)
  {
    hide IssueAll;
    assert RollBack(o, [e], reason).events == [e] + RollBack(o, [], reason).events;
  }

  class MigrationOrchestrator {
    var state: MigrationState
    var agents: PerRole<bool>
    var sas: PerRole<bool>
    var preflight: PerRole<Option<seq<PreflightCheck>>>
    var currentStep: int
    var stepsCompleted: int
    var started: bool
    var migrationStartedAt: Option<int>
    var bilateralAcks: map<int, set<Role>>
    var emitted: seq<Event>
    const startedAt: int

    function View(): Machine
      reads this
    {
      Machine(Core(state, agents, sas, preflight, currentStep, stepsCompleted, started, startedAt,
                   migrationStartedAt, bilateralAcks),
              emitted)
    }

    ghost predicate Valid()
      reads this
    {
      MachineInv(View())
    }

    constructor (now: int)
      ensures Valid() && View() == NewMachine(now)
    {
      state := Idle;
      agents := PerRole(false, false);
      sas := PerRole(false, false);
      preflight := PerRole(None, None);
      currentStep := 0;
      stepsCompleted := 0;
      started := false;
      migrationStartedAt := None;
      bilateralAcks := map[];
      emitted := [];
      startedAt := now;
    }

    method Emit(e: Event)
      modifies this`emitted
      ensures emitted == old(emitted) + [e]
    {
      emitted := emitted + [e];
    }

    /** The guarded transition: a self-loop is a no-op, an edge outside the diagram throws. */
    method Transition(to: MigrationState) returns (thrown: Option<CallError>)
      modifies this`state, this`emitted
      ensures thrown.Some? <==> to != old(state) && to !in AllowedTransitions(old(state))
      ensures thrown.Some? ==> thrown.value == InvalidTransition(old(state), to)
      ensures state == if thrown.None? then to else old(state)
      ensures emitted ==
              old(emitted) + if thrown.None? && to != old(state) then [StateChange(old(state), to)] else []
    {
      var from := state;
      if from == to {
        return None;
      }
      if to !in AllowedTransitions(from) {
        return Some(InvalidTransition(from, to));
      }
      state := to;
      Emit(StateChange(from, to));
      return None;
    }

    method BeginRollback(reason: Reason) returns (thrown: Option<CallError>)
      requires state == Migrating
      modifies this`state, this`emitted
      ensures thrown == None
      ensures View() == var out := RollBack(old(View()).core, [], reason);
                        Machine(out.core, old(emitted) + out.events)
    {
      hide FindStep;
      thrown := Transition(Rollback);
      if thrown.Some? { return; }
      var steps := GetRollbackSteps(currentStep);
      ghost var entered := emitted;
      for i := 0 to |steps|
        invariant state == Rollback
        invariant emitted == entered + IssueAll(steps)[..i]
      {
        Emit(RollbackIssued(steps[i]));
        assert IssueAll(steps)[..i + 1] == IssueAll(steps)[..i] + [RollbackIssued(steps[i])];
      }
      assert IssueAll(steps)[..|steps|] == IssueAll(steps);
      thrown := Transition(Failed);
      if thrown.Some? { return; }
      Emit(SessionFailed(reason));
      FourParts(old(emitted), [StateChange(Migrating, Rollback)], IssueAll(steps),
                StateChange(Rollback, Failed), SessionFailed(reason));
    }

    method FinishSession(now: int) returns (thrown: Option<CallError>)
      requires state == Migrating
      modifies this`state, this`emitted
      ensures thrown == None && state == Complete
      ensures var began := if migrationStartedAt.Some? then migrationStartedAt.value else startedAt;
              emitted == old(emitted) + [StateChange(Migrating, Complete),
                                         SessionComplete(Summary(began, now, now - began, stepsCompleted, Complete))]
    {
      var finishedAt := now;
      var began := if migrationStartedAt.Some? then migrationStartedAt.value else startedAt;
      thrown := Transition(Complete);
      if thrown.Some? { return; }
      Emit(SessionComplete(Summary(began, finishedAt, finishedAt - began, stepsCompleted, Complete)));
    }

    /** Leave for FAILED and report why, the common tail of the failing branches. */
    method Fail(reason: Reason) returns (thrown: Option<CallError>)
      requires state in {Idle, Pairing, Preflight, AwaitingWindow, Migrating}
      modifies this`state, this`emitted
      ensures thrown == None
      ensures View() == var out := FailWith(old(View()).core, [], reason);
                        Machine(out.core, old(emitted) + out.events)
    {
      thrown := Transition(Failed);
      if thrown.Some? { return; }
      Emit(SessionFailed(reason));
    }

    method Start() returns (thrown: Option<CallError>)
      requires Valid()
      modifies this
      ensures Valid() && View() == Step(old(View()), OrchestratorSpec.Start)
      ensures thrown.Some? <==> old(started)
    {
      StepKeepsInv(View(), OrchestratorSpec.Start);
      if started {
        return Some(AlreadyStarted);
      }
      started := true;
      return None;
    }

    method Abort(reason: string) returns (thrown: Option<CallError>)
      requires Valid()
      modifies this
      ensures Valid() && View() == Step(old(View()), OrchestratorSpec.Abort(reason))
      ensures thrown == None
    {
      StepKeepsInv(View(), OrchestratorSpec.Abort(reason));
      if state == Complete || state == Failed {
        return None;
      }
      if state == Migrating && ShouldRollback(currentStep) {
        thrown := BeginRollback(Plain(reason));
      } else {
        thrown := Fail(AbortedBecause(reason));
      }
    }

    method OnAgentConnected(role: Role) returns (thrown: Option<CallError>)
      requires Valid()
      modifies this
      ensures Valid() && View() == Step(old(View()), AgentConnected(role))
      ensures thrown == None
    {
      hide MachineInv;
      StepKeepsInv(View(), AgentConnected(role));
      assert emitted == old(emitted) + [];
      agents := agents.Set(role, true);
      if state == Idle && agents.source && agents.target {
        thrown := Transition(Pairing);
      } else {
        thrown := None;
      }
    }

    method OnAgentDisconnected(role: Role) returns (thrown: Option<CallError>)
      requires Valid()
      modifies this
      ensures Valid() && View() == Step(old(View()), AgentDisconnected(role))
      ensures thrown == None
    {
      hide MachineInv, RollBack;
      ghost var out := OrchestratorSpec.OnAgentDisconnected(View().core, role);
      StepKeepsInv(View(), AgentDisconnected(role));
      agents := agents.Set(role, false);
      if state == Pairing || state == Preflight {
        sas := PerRole(false, false);
        preflight := PerRole(None, None);
        thrown := Transition(Idle);
        assert View() == Machine(out.core, old(emitted) + out.events);
        return;
      }
      if state == Migrating {
        if role == Source && currentStep < 5 {
          thrown := BeginRollback(SourceLost(currentStep));
          assert View() == Machine(out.core, old(emitted) + out.events);
          return;
        }
        if role == Target && currentStep >= 5 {
          Emit(CriticalAlert(currentStep));
          assert View() == Machine(out.core, old(emitted) + out.events);
          return None;
        }
      }
      thrown := None;
      assert View() == Machine(out.core, old(emitted) + out.events);
    }

    method OnSasConfirmed(role: Role) returns (thrown: Option<CallError>)
      requires Valid()
      modifies this
      ensures Valid() && View() == Step(old(View()), SasConfirmed(role))
      ensures thrown == None
    {
      StepKeepsInv(View(), SasConfirmed(role));
      if state != Pairing {
        return None;
      }
      sas := sas.Set(role, true);
      if sas.source && sas.target {
        thrown := Transition(Preflight);
      } else {
        thrown := None;
      }
    }

    method OnPreflightResult(role: Role, checks: seq<PreflightCheck>) returns (thrown: Option<CallError>)
      requires Valid()
      modifies this
      ensures Valid() && View() == Step(old(View()), PreflightResult(role, checks))
      ensures thrown == None
    {
      hide MachineInv;
      assert emitted == old(emitted) + [];
      StepKeepsInv(View(), PreflightResult(role, checks));
      if state != Preflight {
        return None;
      }
      preflight := preflight.Set(role, Some(checks));
      if preflight.source.None? || preflight.target.None? {
        return None;
      }
      var failed := FailedChecks(preflight.source.value + preflight.target.value);
      if |failed| > 0 {
        thrown := Fail(PreflightFailed(failed));
        return;
      }
      thrown := Transition(AwaitingWindow);
    }

    /** The only call that throws after `Start`, and only outside AWAITING_WINDOW. */
    method StartMigration(now: int) returns (thrown: Option<CallError>)
      requires Valid()
      modifies this
      ensures Valid() && View() == Step(old(View()), OrchestratorSpec.StartMigration(now))
      ensures thrown.Some? <==> old(state) != AwaitingWindow
      ensures thrown.Some? ==> View() == old(View()) && thrown.value == InvalidTransition(old(state), Migrating)
    {
      hide FindStep, ObserveAll;
      StepKeepsInv(View(), OrchestratorSpec.StartMigration(now));
      if state != AwaitingWindow {
        assert emitted + [] == emitted;
        return Some(InvalidTransition(state, Migrating));
      }
      thrown := Transition(Migrating);
      if thrown.Some? { return; }
      migrationStartedAt := Some(now);
      currentStep := 1;
      LookupSteps(1);
      Emit(ExecuteStep(GetStep(1).value.executor, 1));
      assert emitted == old(emitted) + [StateChange(AwaitingWindow, Migrating), ExecuteStep(ExecutorOf(1), 1)];
    }

    /** Record one agent's ack of a bilateral step; once both are in, forget them. */
    method RecordAck(step: int, role: Role) returns (both: bool)
      modifies this`bilateralAcks
      ensures var got := old(AcksAt(View().core, step)) + {role};
              && (both <==> Source in got && Target in got)
              && bilateralAcks == if both then old(bilateralAcks) - {step} else old(bilateralAcks)[step := got]
    {
      if step !in bilateralAcks {
        bilateralAcks := bilateralAcks[step := {}];
      }
      bilateralAcks := bilateralAcks[step := bilateralAcks[step] + {role}];
      if !(Source in bilateralAcks[step] && Target in bilateralAcks[step]) {
        return false;
      }
      bilateralAcks := bilateralAcks - {step};
      return true;
    }

    /** What follows the last ack of a step: the next step, or the end. */
    method StepOver(step: int, now: int) returns (thrown: Option<CallError>)
      requires state == Migrating && step == currentStep && 1 <= step <= TOTAL_STEPS
      modifies this`stepsCompleted, this`currentStep, this`state, this`emitted
      ensures thrown == None
      ensures var out := Advance(old(View().core), now); View() == Machine(out.core, old(emitted) + out.events)
    {
      hide FindStep, NextStep;
      LookupSteps(step);
      ghost var out := Advance(View().core, now);
      stepsCompleted := stepsCompleted + 1;
      Emit(StepCompleted(step));
      var next := NextStep(step);
      if next.None? {
        thrown := FinishSession(now);
        assert emitted == old(emitted) + out.events;
        return;
      }
      currentStep := next.value.number;
      Emit(ExecuteStep(next.value.executor, next.value.number));
      assert emitted == old(emitted) + out.events;
      return None;
    }

    method OnStepComplete(step: int, role: Role, now: int) returns (thrown: Option<CallError>)
      requires Valid()
      modifies this
      ensures Valid() && View() == Step(old(View()), StepComplete(step, role, now))
      ensures thrown == None
    {
      hide Advance, MachineInv;
      StepInRange(View());
      StepKeepsInv(View(), StepComplete(step, role, now));
      assert emitted == old(emitted) + [];
      if state != Migrating || step != currentStep {
        return None;
      }
      if step in BILATERAL_STEPS {
        var both := RecordAck(step, role);
        if !both {
          return None;
        }
      }
      thrown := StepOver(step, now);
    }

    method OnStepFailed(step: int, role: Role, error: string) returns (thrown: Option<CallError>)
      requires Valid()
      modifies this
      ensures Valid() && View() == Step(old(View()), StepFailed(step, role, error))
      ensures thrown == None
    {
      hide MachineInv, RollBack, FailWith;
      StepKeepsInv(View(), StepFailed(step, role, error));
      assert emitted == old(emitted) + [];
      FailureEventFirst(View().core, StepFailedEvent(step, role), StepFailure(step, role, error));
      if state != Migrating || step != currentStep {
        return None;
      }
      Emit(StepFailedEvent(step, role));
      var reason := StepFailure(step, role, error);
      if ShouldRollback(step) {
        thrown := BeginRollback(reason);
        assert emitted == old(emitted) + RollBack(old(View()).core, [StepFailedEvent(step, role)], reason).events;
      } else {
        thrown := Fail(reason);
        assert emitted == old(emitted) + FailWith(old(View()).core, [StepFailedEvent(step, role)], reason).events;
      }
    }
  }
}
