/** What each message does to a session, said outright: what either agent is sent, what
    the pages are told, what the row says afterwards and whether the session is over.
    And the composed system handles a report as the session manager does. */
module HubLaws {
  import opened Protocol
  import opened OrchestratorSpec
  import opened OrchestratorRuns
  import opened HubGlue
  import opened Orchestrator
  import opened Sessions
  import opened System
  import opened SystemWitness

  /** What a stretch of events comes to. */
  datatype Effects = Effects(toSource: seq<HubMsg>, toTarget: seq<HubMsg>, toPages: seq<DashMsg>, row: Row, over: bool)

  function EffectsOf(row: Row, events: seq<Event>): Effects {
    Effects(AllMessagesFor(Source, events), AllMessagesFor(Target, events), Broadcasts(events), WriteRows(row, events),
            AnyClosing(events))
  }

  lemma NoEffects(row: Row)
    ensures EffectsOf(row, []) == Effects([], [], [], row, false)
  {
  }

  lemma EffectsMore(row: Row, a: seq<Event>, e: Event)
    ensures var before := EffectsOf(row, a);
            EffectsOf(row, a + [e]) ==
            Effects(before.toSource + MessagesFor(Source, e), before.toTarget + MessagesFor(Target, e),
                    before.toPages + Broadcast(e), WriteRow(before.row, e), before.over || Closing(e))
  {
    hide MessagesFor, Broadcast, WriteRow, Closing;
    var all := a + [e];
    assert all[..|all| - 1] == a && all[|all| - 1] == e;
    ClosingMore(a, e);
  }

  lemma ClosingMore(a: seq<Event>, e: Event)
    ensures AnyClosing(a + [e]) <==> AnyClosing(a) || Closing(e)
  {
    hide Closing;
    var all := a + [e];
    assert all[|a|] == e && forall i :: 0 <= i < |a| ==> all[i] == a[i];
    if AnyClosing(a) {
      var i :| 0 <= i < |a| && Closing(a[i]);
      assert Closing(all[i]);
    }
  }

  lemma EffectsOfOne(row: Row, e: Event)
    ensures EffectsOf(row, [e]) ==
            Effects(MessagesFor(Source, e), MessagesFor(Target, e), Broadcast(e), WriteRow(row, e), Closing(e))
  {
    hide MessagesFor, Broadcast, WriteRow, Closing;
    NoEffects(row);
    EffectsMore(row, [], e);
    assert [] + [e] == [e];
  }

  lemma EffectsOfTwo(row: Row, e: Event, f: Event)
    ensures EffectsOf(row, [e, f]) ==
            Effects(MessagesFor(Source, e) + MessagesFor(Source, f), MessagesFor(Target, e) + MessagesFor(Target, f),
                    Broadcast(e) + Broadcast(f), WriteRow(WriteRow(row, e), f), Closing(e) || Closing(f))
  {
    hide MessagesFor, Broadcast, WriteRow, Closing;
    EffectsOfOne(row, e);
    EffectsMore(row, [e], f);
    assert [e] + [f] == [e, f];
  }

  /** A failure before anything was handed over: the page is told, nobody else. */
  lemma FailEffects(row: Row, o: Core, reason: Reason)
    ensures EffectsOf(row, FailWith(o, [], reason).events) ==
            Effects([], [], [StateMsg(Failed, o.state)], row.(state := Failed), true)
  {
    hide EffectsOf;
    EffectsOfTwo(row, StateChange(o.state, Failed), SessionFailed(reason));
    assert FailWith(o, [], reason).events == [StateChange(o.state, Failed), SessionFailed(reason)];
  }

  /** A rollback: each agent its instructions, the pages the two changes of state. */
  lemma RollbackEffects(row: Row, o: Core, reason: Reason)
    requires o.state == Migrating
    ensures var undo := o.currentStep >= 2;
            EffectsOf(row, RollBack(o, [], reason).events) ==
            Effects(if undo then SOURCE_ROLLBACK else [], if undo then TARGET_ROLLBACK else [],
                    [StateMsg(Rollback, Migrating), StateMsg(Failed, Rollback)], row.(state := Failed), true)
  {
    hide AllMessagesFor, Broadcasts, WriteRows, AnyClosing, RollBack;
    RollbackMessagesOf(o, reason, Source);
    RollbackMessagesOf(o, reason, Target);
    RollbackNews(row, o, reason);
  }

  lemma RollbackMessagesOf(o: Core, reason: Reason, r: Role)
    requires o.state == Migrating
    ensures AllMessagesFor(r, RollBack(o, [], reason).events) == if o.currentStep >= 2 then RollbackMessages(r) else []
  {
    hide AllMessagesFor;
    if ShouldRollback(o.currentStep) {
      RollbackSends(o, r, reason);
    } else {
      var enter, leave := [StateChange(Migrating, Rollback)], [StateChange(Rollback, Failed), SessionFailed(reason)];
      assert RollBack(o, [], reason).events == enter + leave;
      MessagesConcat(r, enter, leave);
      OneEventSends(r, enter[0]);
      TwoEventsSend(r, leave[0], leave[1]);
    }
  }

  lemma RollbackNews(row: Row, o: Core, reason: Reason)
    requires o.state == Migrating
    ensures var events := RollBack(o, [], reason).events;
            && Broadcasts(events) == [StateMsg(Rollback, Migrating), StateMsg(Failed, Rollback)]
            && WriteRows(row, events) == row.(state := Failed) && AnyClosing(events)
  {
    hide AllMessagesFor, Broadcasts, WriteRows, IssueAll, GetRollbackSteps;
    var enter, leave := [StateChange(Migrating, Rollback)], [StateChange(Rollback, Failed), SessionFailed(reason)];
    var table := IssueAll(GetRollbackSteps(o.currentStep));
    var events := RollBack(o, [], reason).events;
    assert events == enter + table + leave;
    assert Closing(events[|events| - 1]);
    Dashboard.BroadcastsConcat(enter + table, leave);
    Dashboard.BroadcastsConcat(enter, table);
    WriteRowsConcat(row, enter + table, leave);
    WriteRowsConcat(row, enter, table);
    TableIsTable(GetRollbackSteps(o.currentStep));
    TableIsNoNews(row.(state := Rollback), table);
    EntersAndLeaves(row, reason);
  }

  lemma EntersAndLeaves(row: Row, reason: Reason)
    ensures Broadcasts([StateChange(Migrating, Rollback)]) == [StateMsg(Rollback, Migrating)]
    ensures WriteRows(row, [StateChange(Migrating, Rollback)]) == row.(state := Rollback)
    ensures var leave := [StateChange(Rollback, Failed), SessionFailed(reason)];
            Broadcasts(leave) == [StateMsg(Failed, Rollback)]
            && WriteRows(row.(state := Rollback), leave) == row.(state := Failed)
  {
    hide AllMessagesFor, Broadcasts, WriteRows, AnyClosing;
    EffectsOfOne(row, StateChange(Migrating, Rollback));
    EffectsOfTwo(row.(state := Rollback), StateChange(Rollback, Failed), SessionFailed(reason));
  }

  lemma TableIsTable(steps: seq<RollbackStep>)
    ensures forall i :: 0 <= i < |IssueAll(steps)| ==> IssueAll(steps)[i].RollbackIssued?
  {
  }

  lemma {:induction false} TableIsNoNews(row: Row, table: seq<Event>)
    requires forall i :: 0 <= i < |table| ==> table[i].RollbackIssued?
    ensures Broadcasts(table) == [] && WriteRows(row, table) == row
  {
    if table != [] {
      TableIsNoNews(row, table[..|table| - 1]);
    }
  }

  // ---------- The agents' messages ----------

  /** What a message of agent `role` comes to, in a session whose orchestrator is `o`. */
  function Told(row: Row, o: Core, role: Role, msg: AgentReport, now: int): Effects {
    EffectsOf(row, EventsOf(Some(Machine(o, [])), AgentCall(role, msg, now)))
  }

  /** A step of the target or the source that failed: the session is FAILED, the pages
      see the step failed, and from step 2 on both agents are told to undo. A report of
      any other step is ignored. */
  lemma BrokenStepOutcome(row: Row, o: Core, role: Role, step: int, error: string, now: int)
    requires CoreInv(o)
    ensures Told(row, o, role, StepBroke(step, error), now) ==
            if o.state != Migrating || step != o.currentStep then Effects([], [], [], row, false)
            else if step == 1 then
              Effects([], [], [ProgressMsg(1, StepBroken), StateMsg(Failed, Migrating)], row.(state := Failed), true)
            else
              Effects(SOURCE_ROLLBACK, TARGET_ROLLBACK,
                      [ProgressMsg(step, StepBroken), StateMsg(Rollback, Migrating), StateMsg(Failed, Rollback)],
                      row.(state := Failed), true)
  {
    hide EffectsOf, RollBack, FailWith;
    NoEffects(row);
    if Current(o, step) {
      var e, reason := StepFailedEvent(step, role), StepFailure(step, role, error);
      FailureEventFirst(o, e, reason);
      if ShouldRollback(step) {
        RollbackEffects(row, o, reason);
        EffectsAfter(row, e, RollBack(o, [], reason).events);
      } else {
        FailEffects(row, o, reason);
        EffectsAfter(row, e, FailWith(o, [], reason).events);
      }
    }
  }

  /** Effects behind an event that neither writes the row nor closes the session. */
  lemma {:induction false} EffectsAfter(row: Row, e: Event, events: seq<Event>)
    requires WriteRow(row, e) == row && !Closing(e)
    ensures var rest := EffectsOf(row, events);
            EffectsOf(row, [e] + events) ==
            rest.(toSource := MessagesFor(Source, e) + rest.toSource, toTarget := MessagesFor(Target, e) + rest.toTarget,
                  toPages := Broadcast(e) + rest.toPages)
  {
    hide MessagesFor, Broadcast, WriteRow, Closing, EffectsOf;
    if events == [] {
      NoEffects(row);
      EffectsOfOne(row, e);
      assert [e] + events == [e];
    } else {
      var before, last := events[..|events| - 1], events[|events| - 1];
      EffectsAfter(row, e, before);
      EffectsMore(row, before, last);
      EffectsMore(row, [e] + before, last);
      assert before + [last] == events && [e] + before + [last] == [e] + events;
    }
  }

  /** A step that was reported done: ignored unless it is the step in progress and, for
      a bilateral step, the other agent has reported it; then the next step is sent to
      exactly the agents assigned to it, or after step 9 the session is complete. */
  lemma DoneStepOutcome(row: Row, o: Core, role: Role, step: int, now: int)
    requires CoreInv(o)
    ensures var effects := Told(row, o, role, Sessions.StepDone(step), now);
            if o.state != Migrating || step != o.currentStep || (step in {4, 5} && Peer(role) !in AcksAt(o, step)) then
              effects == Effects([], [], [], row, false)
            else if step < 9 then
              effects == Effects(if step + 1 in {1, 2, 3, 4, 5, 9} then [Execute(step + 1)] else [],
                                 if step + 1 in {4, 5, 6, 7, 8} then [Execute(step + 1)] else [],
                                 [ProgressMsg(step, StepOk), ProgressMsg(step + 1, Running)], row, false)
            else
              && effects.toSource == effects.toTarget == [] && effects.row == Row(Complete, true) && effects.over
              && |effects.toPages| == 3 && effects.toPages[2].CompleteMsg?
              && effects.toPages[..2] == [ProgressMsg(9, StepOk), StateMsg(Complete, Migrating)]
  {
    hide EffectsOf;
    NoEffects(row);
    if Current(o, step) {
      assert AcksAt(o, step) + {role} == {role} + AcksAt(o, step);
      if step !in BILATERAL_STEPS || Peer(role) in AcksAt(o, step) {
        AdvanceEffects(row, o, now);
      }
    }
  }

  lemma AdvanceEffects(row: Row, o: Core, now: int)
    requires o.state == Migrating && 1 <= o.currentStep <= 9
    ensures var effects, step := EffectsOf(row, Advance(o, now).events), o.currentStep;
            if step < 9 then
              effects == Effects(if step + 1 in {1, 2, 3, 4, 5, 9} then [Execute(step + 1)] else [],
                                 if step + 1 in {4, 5, 6, 7, 8} then [Execute(step + 1)] else [],
                                 [ProgressMsg(step, StepOk), ProgressMsg(step + 1, Running)], row, false)
            else
              && effects.toSource == effects.toTarget == [] && effects.row == Row(Complete, true) && effects.over
              && |effects.toPages| == 3 && effects.toPages[2].CompleteMsg?
              && effects.toPages[..2] == [ProgressMsg(9, StepOk), StateMsg(Complete, Migrating)]
  {
    hide EffectsOf;
    var k, events := o.currentStep, Advance(o, now).events;
    if k < 9 {
      EffectsOfTwo(row, StepCompleted(k), ExecuteStep(ExecutorOf(k + 1), k + 1));
    } else {
      EffectsOfTwo(row, StepCompleted(k), StateChange(Migrating, Complete));
      EffectsMore(row, [StepCompleted(k), StateChange(Migrating, Complete)], events[2]);
      assert [StepCompleted(k), StateChange(Migrating, Complete)] + [events[2]] == events;
    }
  }

  /** A hello: the session pairs once both agents are there; nobody is sent anything. */
  lemma HelloOutcome(row: Row, o: Core, role: Role, now: int)
    requires CoreInv(o)
    ensures Told(row, o, role, Hello, now) ==
            if o.state == Idle && o.agents.Get(Peer(role)) then
              Effects([], [], [StateMsg(Pairing, Idle)], row.(state := Pairing), false)
            else Effects([], [], [], row, false)
    ensures Apply(o, AgentConnected(role)).core.agents == o.agents.Set(role, true)
  {
    hide EffectsOf;
    NoEffects(row);
    EffectsOfOne(row, StateChange(Idle, Pairing));
  }

  /** A confirmed code: with the other agent's, both are asked to run their checks. */
  lemma SasOutcome(row: Row, o: Core, role: Role, now: int)
    requires CoreInv(o)
    ensures Told(row, o, role, SasOk, now) ==
            if o.state == Pairing && o.sas.Get(Peer(role)) then
              Effects([RunPreflight], [RunPreflight], [StateMsg(Preflight, Pairing)], row.(state := Preflight), false)
            else Effects([], [], [], row, false)
  {
    hide EffectsOf;
    NoEffects(row);
    EffectsOfOne(row, StateChange(Pairing, Preflight));
  }

  /** A list of checks: with the other agent's, the window is awaited if everything
      passed, and the session is FAILED otherwise. */
  lemma PreflightedOutcome(row: Row, o: Core, role: Role, checks: seq<PreflightCheck>, now: int)
    requires CoreInv(o)
    ensures Told(row, o, role, Preflighted(checks), now) ==
            if o.state != Preflight || o.preflight.Get(Peer(role)).None? then Effects([], [], [], row, false)
            else if forall x :: x in checks + o.preflight.Get(Peer(role)).value ==> x.ok then
              Effects([], [], [StateMsg(AwaitingWindow, Preflight)], row.(state := AwaitingWindow), false)
            else Effects([], [], [StateMsg(Failed, Preflight)], row.(state := Failed), true)
  {
    hide EffectsOf, FailedChecks, FailWith;
    NoEffects(row);
    EffectsOfOne(row, StateChange(Preflight, AwaitingWindow));
    if o.state == Preflight && o.preflight.Get(Peer(role)).Some? {
      var p := o.(preflight := o.preflight.Set(role, Some(checks)));
      var all := p.preflight.source.value + p.preflight.target.value;
      assert forall x :: x in all <==> x in checks + o.preflight.Get(Peer(role)).value;
      NoneFailed(all);
      FailEffects(row, p, PreflightFailed(FailedChecks(all)));
    }
  }

  lemma NoneFailed(all: seq<PreflightCheck>)
    ensures FailedChecks(all) == [] <==> forall x :: x in all ==> x.ok
  {
    hide FailedChecks;
  }

  /** A lost agent: back to IDLE while pairing or checking, a rollback if the source is
      lost before step 5, an alert if the target is lost from then on. */
  lemma LostOutcome(row: Row, o: Core, role: Role)
    requires CoreInv(o)
    ensures EffectsOf(row, Apply(o, AgentDisconnected(role)).events) ==
            if o.state in {Pairing, Preflight} then Effects([], [], [StateMsg(Idle, o.state)], row.(state := Idle), false)
            else if o.state == Migrating && role == Source && o.currentStep < 5 then
              Effects(if o.currentStep >= 2 then SOURCE_ROLLBACK else [], if o.currentStep >= 2 then TARGET_ROLLBACK else [],
                      [StateMsg(Rollback, Migrating), StateMsg(Failed, Rollback)], row.(state := Failed), true)
            else if o.state == Migrating && role == Target && o.currentStep >= 5 then
              Effects([], [], [AlertMsg(o.currentStep)], row, false)
            else Effects([], [], [], row, false)
    ensures Apply(o, AgentDisconnected(role)).core.agents == o.agents.Set(role, false)
  {
    hide EffectsOf, RollBack;
    var p := o.(agents := o.agents.Set(role, false));
    NoEffects(row);
    EffectsOfOne(row, StateChange(o.state, Idle));
    EffectsOfOne(row, CriticalAlert(o.currentStep));
    if o.state == Migrating {
      RollbackEffects(row, p, SourceLost(o.currentStep));
    }
    LosesAgent(o, role);
  }

  lemma LosesAgent(o: Core, role: Role)
    ensures Apply(o, AgentDisconnected(role)).core.agents == o.agents.Set(role, false)
  {
  }

  // ---------- The dashboards' messages ----------

  /** What a page's request comes to. */
  function Asked(row: Row, o: Core, msg: DashboardRequest, now: int): Effects {
    EffectsOf(row, EventsOf(Some(Machine(o, [])), DashboardCall(msg, now)))
  }

  /** A start: step 1 for the source, if the window is awaited. */
  lemma StartOutcome(row: Row, o: Core, now: int)
    ensures Asked(row, o, StartRequest, now) ==
            if o.state == AwaitingWindow then
              Effects([Execute(1)], [], [StateMsg(Migrating, AwaitingWindow), ProgressMsg(1, Running)],
                      row.(state := Migrating), false)
            else Effects([], [], [], row, false)
  {
    hide EffectsOf;
    NoEffects(row);
    EffectsOfTwo(row, StateChange(AwaitingWindow, Migrating), ExecuteStep(Source, 1));
  }

  /** An abort: FAILED wherever the session is, with a rollback from step 2 on, unless
      it is over; a click on the codes does nothing. */
  lemma AbortOutcome(row: Row, o: Core, now: int)
    ensures Asked(row, o, AbortRequest, now) ==
            if o.state in {Complete, Failed} then Effects([], [], [], row, false)
            else if o.state == Migrating && o.currentStep >= 2 then
              Effects(SOURCE_ROLLBACK, TARGET_ROLLBACK, [StateMsg(Rollback, Migrating), StateMsg(Failed, Rollback)],
                      row.(state := Failed), true)
            else Effects([], [], [StateMsg(Failed, o.state)], row.(state := Failed), true)
    ensures Asked(row, o, ConfirmSasRequest, now) == Effects([], [], [], row, false)
  {
    hide EffectsOf, RollBack, FailWith;
    NoEffects(row);
    FailEffects(row, o, AbortedBecause("dashboard_abort"));
    if o.state == Migrating && o.currentStep >= 2 {
      RollbackEffects(row, o, Plain("dashboard_abort"));
    }
  }

  // ---------- The composed system's hub is this one ----------

  /** The report in an agent's message. */
  function ReportIn(m: AgentMsg): AgentReport {
    match m
    case Done(k) => Sessions.StepDone(k)
    case Broke(k, e) => StepBroke(k, e)
    case _ => Unrelated
  }

  /** The call the manager makes on the oldest message is the one the hub handles. */
  lemma SameCall(s: Sys, r: Role, now: int)
    requires At(s, r).toHub != [] && (At(s, r).toHub[0].Done? || At(s, r).toHub[0].Broke?)
    ensures var c := AgentCall(r, ReportIn(At(s, r).toHub[0]), now);
            c.Some? && HubHandles(s, r, now) == HubStep(Put(s, r, At(s, r).(toHub := At(s, r).toHub[1..])), c.value)
  {
    hide HubStep;
  }

  /** What a call of the composed system does, said of the manager's functions. */
  lemma CallsAlike(s: Sys, c: Call, q: Role)
    ensures var m, t := Machine(s.core, []), HubStep(s, c);
            && t.core == Step(m, c).core
            && At(t, q).toAgent == At(s, q).toAgent + (if At(s, q).open then AllMessagesFor(q, EventsOf(Some(m), Some(c))) else [])
  {
    hide Apply, AllMessagesFor, AnyClosing;
    assert At(s, q).toAgent + [] == At(s, q).toAgent;
  }

  /** Handling a report in the composed system is the session manager's call on it: the
      same new orchestrator, and to each open channel exactly what the call sends. */
  lemma ReportsAlike(s: Sys, r: Role, now: int, q: Role)
    requires At(s, r).toHub != [] && (At(s, r).toHub[0].Done? || At(s, r).toHub[0].Broke?)
    ensures var m, c := Machine(s.core, []), AgentCall(r, ReportIn(At(s, r).toHub[0]), now);
            var t := HubHandles(s, r, now);
            && c.Some? && t.core == Step(m, c.value).core
            && At(t, q).toAgent == At(s, q).toAgent + (if At(s, q).open then AllMessagesFor(q, EventsOf(Some(m), c)) else [])
  {
    hide HubStep, HubHandles, EventsOf, AllMessagesFor, Step;
    SameCall(s, r, now);
    var popped := Put(s, r, At(s, r).(toHub := At(s, r).toHub[1..]));
    CallsAlike(popped, AgentCall(r, ReportIn(At(s, r).toHub[0]), now).value, q);
  }

  /** And a payload goes to the other agent alone, as it came. */
  lemma PayloadsAlike(s: Sys, r: Role, now: int)
    requires At(s, r).toHub != [] && At(s, r).toHub[0].Payload?
    ensures var t, peer := HubHandles(s, r, now), At(s, Peer(r));
            && t.core == s.core && At(t, r).toAgent == At(s, r).toAgent
            && At(t, Peer(r)).toAgent == peer.toAgent + (if peer.open then [Relay(At(s, r).toHub[0].sealed)] else [])
  {
    assert At(s, Peer(r)).toAgent + [] == At(s, Peer(r)).toAgent;
  }
}
