/** What the hub does with each orchestrator event: the messages it sends to each
    agent, what it broadcasts to dashboards, and what it writes to the session row. */
module HubGlue {
  import opened Protocol
  import opened OrchestratorSpec
  import opened Envelope

  datatype HubMsg =
    | RunPreflight
    | Execute(step: int)
    | RollbackFlag
    | ExecuteRollback(name: RollbackName)
    | Relay(sealed: Sealed)
    | PeerConnected(peerPublicKey: string)
    | SessionCancelled

  datatype AgentMsg =
    | Done(step: int)
    | Broke(step: int, error: string)
    | Payload(sealed: Sealed)
    | RollbackDone(name: RollbackName, ok: bool)

  datatype StepStatus = Running | StepOk | StepBroken

  datatype LogLevel = Info | Warn | Error

  datatype LogLine = LogLine(agent: Role, level: LogLevel, message: string, ts: int)

  datatype DashMsg =
    | StateMsg(state: MigrationState, prevState: MigrationState)
    | AgentsMsg(connected: PerRole<bool>)
    | ProgressMsg(step: int, status: StepStatus)
    | SasMsg(codes: PerRole<string>, matches: bool)
    | SasAlert
    | LogMsg(line: LogLine)
    | CompleteMsg(summary: Summary)
    | AlertMsg(step: int)

  /** The messages one event sends to agent `r`, in order. */
  function MessagesFor(r: Role, e: Event): seq<HubMsg> {
    match e
    case StateChange(_, to) => if to == Preflight then [RunPreflight] else []
    case ExecuteStep(executor, step) =>
      if step in BILATERAL_STEPS || r == executor then [Execute(step)] else []
    case RollbackIssued(s) =>
      if s.executor == r then [RollbackFlag, ExecuteRollback(s.name)] else [RollbackFlag]
    case _ => []
  }

  function AllMessagesFor(r: Role, events: seq<Event>): seq<HubMsg> {
    if events == [] then []
    else AllMessagesFor(r, events[..|events| - 1]) + MessagesFor(r, events[|events| - 1])
  }

  /** The broadcast one event causes, if any. */
  function Broadcast(e: Event): seq<DashMsg> {
    match e
    case StateChange(from, to) => [StateMsg(to, from)]
    case ExecuteStep(_, step) => [ProgressMsg(step, Running)]
    case StepCompleted(step) => [ProgressMsg(step, StepOk)]
    case StepFailedEvent(step, _) => [ProgressMsg(step, StepBroken)]
    case RollbackIssued(_) => []
    case SessionComplete(summary) => [CompleteMsg(summary)]
    case SessionFailed(_) => []
    case CriticalAlert(step) => [AlertMsg(step)]
  }

  function Broadcasts(events: seq<Event>): seq<DashMsg> {
    if events == [] then []
    else Broadcasts(events[..|events| - 1]) + Broadcast(events[|events| - 1])
  }

  /** The columns of the session row that events write. */
  datatype Row = Row(state: MigrationState, completed: bool)

  function WriteRow(row: Row, e: Event): Row {
    match e
    case StateChange(_, to) => row.(state := to)
    case SessionComplete(_) => Row(Complete, true)
    case SessionFailed(_) => row.(state := Failed)
    case _ => row
  }

  function WriteRows(row: Row, events: seq<Event>): Row {
    if events == [] then row
    else WriteRow(WriteRows(row, events[..|events| - 1]), events[|events| - 1])
  }

  // ---------- What the agents' channels carry ----------

  /** The steps a stretch of hub messages tells the agent to execute. */
  function Executes(ms: seq<HubMsg>): seq<int> {
    if ms == [] then []
    else
      var before := Executes(ms[..|ms| - 1]);
      if ms[|ms| - 1].Execute? then before + [ms[|ms| - 1].step] else before
  }

  function Relays(ms: seq<HubMsg>): seq<Sealed> {
    if ms == [] then []
    else
      var before := Relays(ms[..|ms| - 1]);
      if ms[|ms| - 1].Relay? then before + [ms[|ms| - 1].sealed] else before
  }

  predicate NoRollbackIn(ms: seq<HubMsg>) {
    forall i :: 0 <= i < |ms| ==> !ms[i].ExecuteRollback?
  }

  /** The step reports in a stretch of agent messages. */
  function Reports(ms: seq<AgentMsg>): seq<int> {
    if ms == [] then []
    else
      var before := Reports(ms[..|ms| - 1]);
      match ms[|ms| - 1]
      case Done(n) => before + [n]
      case Broke(n, _) => before + [n]
      case _ => before
  }

  function Payloads(ms: seq<AgentMsg>): seq<Sealed> {
    if ms == [] then []
    else
      var before := Payloads(ms[..|ms| - 1]);
      if ms[|ms| - 1].Payload? then before + [ms[|ms| - 1].sealed] else before
  }

  lemma {:induction false} DownConcat(a: seq<HubMsg>, b: seq<HubMsg>)
    ensures Executes(a + b) == Executes(a) + Executes(b)
    ensures Relays(a + b) == Relays(a) + Relays(b)
  {
    if b == [] {
      assert a + b == a;
    } else {
      assert (a + b)[..|a + b| - 1] == a + b[..|b| - 1];
      DownConcat(a, b[..|b| - 1]);
    }
  }

  lemma {:induction false} UpConcat(a: seq<AgentMsg>, b: seq<AgentMsg>)
    ensures Reports(a + b) == Reports(a) + Reports(b)
    ensures Payloads(a + b) == Payloads(a) + Payloads(b)
  {
    if b == [] {
      assert a + b == a;
    } else {
      assert (a + b)[..|a + b| - 1] == a + b[..|b| - 1];
      UpConcat(a, b[..|b| - 1]);
    }
  }

  lemma DownOne(m: HubMsg)
    ensures Executes([m]) == if m.Execute? then [m.step] else []
    ensures Relays([m]) == if m.Relay? then [m.sealed] else []
  {
    assert [m][..0] == [];
  }

  lemma UpOne(m: AgentMsg)
    ensures Reports([m]) == if m.Done? || m.Broke? then [m.step] else []
    ensures Payloads([m]) == if m.Payload? then [m.sealed] else []
  {
    assert [m][..0] == [];
  }

  /** Taking the first message off a channel. */
  lemma DownPop(ms: seq<HubMsg>)
    requires ms != []
    ensures Executes(ms) == (if ms[0].Execute? then [ms[0].step] else []) + Executes(ms[1..])
    ensures Relays(ms) == (if ms[0].Relay? then [ms[0].sealed] else []) + Relays(ms[1..])
  {
    assert ms == [ms[0]] + ms[1..];
    DownConcat([ms[0]], ms[1..]);
    DownOne(ms[0]);
  }

  lemma UpPop(ms: seq<AgentMsg>)
    requires ms != []
    ensures Reports(ms) == (if ms[0].Done? || ms[0].Broke? then [ms[0].step] else []) + Reports(ms[1..])
    ensures Payloads(ms) == (if ms[0].Payload? then [ms[0].sealed] else []) + Payloads(ms[1..])
  {
    assert ms == [ms[0]] + ms[1..];
    UpConcat([ms[0]], ms[1..]);
    UpOne(ms[0]);
  }

  // ---------- What one orchestrator call sends ----------

  /** No relay is ever sent on the orchestrator's account; nothing is executed unless
      an execute event says so, nothing rolled back unless a rollback event does. */
  lemma {:induction false} MessagesMirrorEvents(r: Role, events: seq<Event>)
    ensures Relays(AllMessagesFor(r, events)) == []
    ensures (forall i :: 0 <= i < |events| ==> !events[i].ExecuteStep?) ==> Executes(AllMessagesFor(r, events)) == []
    ensures (forall i :: 0 <= i < |events| ==> !events[i].RollbackIssued?) ==> NoRollbackIn(AllMessagesFor(r, events))
  {
    if events != [] {
      var before, last := events[..|events| - 1], events[|events| - 1];
      MessagesMirrorEvents(r, before);
      DownConcat(AllMessagesFor(r, before), MessagesFor(r, last));
      MessagesOfOne(r, last);
    }
  }

  lemma MessagesOfOne(r: Role, e: Event)
    ensures Relays(MessagesFor(r, e)) == []
    ensures !e.ExecuteStep? ==> Executes(MessagesFor(r, e)) == []
    ensures !e.RollbackIssued? ==> NoRollbackIn(MessagesFor(r, e))
  {
    DownOne(RunPreflight);
    match e
    case ExecuteStep(_, n) => DownOne(Execute(n));
    case RollbackIssued(s) =>
      DownConcat([RollbackFlag], [ExecuteRollback(s.name)]);
      DownOne(RollbackFlag);
      DownOne(ExecuteRollback(s.name));
      assert [RollbackFlag, ExecuteRollback(s.name)] == [RollbackFlag] + [ExecuteRollback(s.name)];
    case _ =>
  }

  /** Did this call go through ROLLBACK? */
  predicate RollsBack(o: Core, c: Call) {
    StateChange(Migrating, Rollback) in Apply(o, c).events
  }

  /** The step number moves by at most one, up, and exactly then the new step is
      sent, to the agents assigned to it and to nobody else. */
  lemma CallDispatches(o: Core, c: Call, r: Role)
    requires CoreInv(o)
    ensures var p := Apply(o, c).core;
            var sent := AllMessagesFor(r, Apply(o, c).events);
            && (p.currentStep == o.currentStep || p.currentStep == o.currentStep + 1)
            && Executes(sent) == (if p.currentStep != o.currentStep && Assigned(r, p.currentStep) then [p.currentStep] else [])
            && Relays(sent) == []
            && (!RollsBack(o, c) ==> NoRollbackIn(sent))
  {
    hide Apply, CoreInv, AllMessagesFor, Executes, Relays;
    var out := Apply(o, c);
    if out.core.currentStep != o.currentStep {
      NewStepIsSecondEvent(o, c);
      TwoEventsSend(r, out.events[0], out.events[1]);
      assert AllMessagesFor(r, out.events) == MessagesFor(r, out.events[1]);
      ExecuteIsSentToAssigned(r, out.core.currentStep);
    } else {
      MessagesMirrorEvents(r, out.events);
      StaysWithoutExecute(o, c);
      if !RollsBack(o, c) {
        NoRollbackWithoutTransition(o, c);
      }
    }
  }

  lemma NewStepIsSecondEvent(o: Core, c: Call)
    requires CoreInv(o) && Apply(o, c).core.currentStep != o.currentStep
    ensures var n := Apply(o, c).core.currentStep;
            var events := Apply(o, c).events;
            && n == o.currentStep + 1
            && 1 <= n <= TOTAL_STEPS
            && events == [events[0], ExecuteStep(ExecutorOf(n), n)]
            && (events[0].StepCompleted? || events[0] == StateChange(AwaitingWindow, Migrating))
  {
  }

  lemma ExecuteIsSentToAssigned(r: Role, n: int)
    requires 1 <= n <= TOTAL_STEPS
    ensures var sent := MessagesFor(r, ExecuteStep(ExecutorOf(n), n));
            && Executes(sent) == (if Assigned(r, n) then [n] else [])
            && Relays(sent) == [] && NoRollbackIn(sent)
  {
    DownOne(Execute(n));
  }

  lemma {:induction false} MessagesConcat(r: Role, a: seq<Event>, b: seq<Event>)
    ensures AllMessagesFor(r, a + b) == AllMessagesFor(r, a) + AllMessagesFor(r, b)
  {
    hide MessagesFor;
    if b == [] {
      assert a + b == a;
    } else {
      assert (a + b)[..|a + b| - 1] == a + b[..|b| - 1];
      MessagesConcat(r, a, b[..|b| - 1]);
    }
  }

  lemma OneEventSends(r: Role, e: Event)
    ensures AllMessagesFor(r, [e]) == MessagesFor(r, e)
  {
    assert [e][..0] == [];
  }

  lemma TwoEventsSend(r: Role, e: Event, f: Event)
    ensures AllMessagesFor(r, [e, f]) == MessagesFor(r, e) + MessagesFor(r, f)
  {
    assert [e, f][..1] == [e] && [e][..0] == [];
    assert AllMessagesFor(r, [e]) == [] + MessagesFor(r, e);
  }

  lemma StaysWithoutExecute(o: Core, c: Call)
    requires CoreInv(o) && Apply(o, c).core.currentStep == o.currentStep
    ensures forall i :: 0 <= i < |Apply(o, c).events| ==> !Apply(o, c).events[i].ExecuteStep?
  {
  }

  lemma NoRollbackWithoutTransition(o: Core, c: Call)
    requires !RollsBack(o, c)
    ensures forall i :: 0 <= i < |Apply(o, c).events| ==> !Apply(o, c).events[i].RollbackIssued?
  {
    if o.state == Migrating {
      match c
      case Abort(reason) => RollBackEntersRollback(o, [], Plain(reason));
      case AgentDisconnected(r) =>
        RollBackEntersRollback(o.(agents := o.agents.Set(r, false)), [], SourceLost(o.currentStep));
      case StepFailed(step, r, error) =>
        RollBackEntersRollback(o, [StepFailedEvent(step, r)], StepFailure(step, r, error));
      case _ =>
    }
  }

  lemma RollBackEntersRollback(o: Core, events: seq<Event>, reason: Reason)
    requires o.state == Migrating
    ensures StateChange(Migrating, Rollback) in RollBack(o, events, reason).events
  {
    var all := RollBack(o, events, reason).events;
    assert all[|events|] == StateChange(Migrating, Rollback);
  }

  /** A call that rolls back leaves the session FAILED at the step it was at. */
  lemma RollbackFails(o: Core, c: Call)
    requires CoreInv(o) && RollsBack(o, c)
    ensures o.state == Migrating && Apply(o, c).core.state == Failed
    ensures Apply(o, c).core.currentStep == o.currentStep && Apply(o, c).core.stepsCompleted == o.stepsCompleted
    ensures Apply(o, c).core.acks == o.acks
  {
  }
}
