/** What dashboards show: the store's reducers, the snapshot sent on joining, and
    the agreement between a late joiner and one that was there from the start. */
module Dashboard {
  import opened Protocol
  import opened OrchestratorSpec
  import opened HubGlue

  // ---------- The store ----------

  datatype StepProgress = StepProgress(step: int, status: StepStatus)

  /** The part of the store that hub messages about the session write. */
  datatype View = View(state: MigrationState, steps: seq<StepProgress>, summary: Option<Summary>)

  const FRESH_VIEW := View(Idle, [], None)

  function FindIndex(steps: seq<StepProgress>, n: int): (i: int)
    ensures -1 <= i < |steps|
    ensures i >= 0 ==> steps[i].step == n
    ensures forall j :: 0 <= j < (if i < 0 then |steps| else i) ==> steps[j].step != n
  {
    if steps == [] then -1
    else if steps[0].step == n then 0
    else
      var i := FindIndex(steps[1..], n);
      if i < 0 then -1 else i + 1
  }

  /** Replace the entry of that step in place, or append one. */
  function UpdateStep(steps: seq<StepProgress>, p: StepProgress): seq<StepProgress> {
    var i := FindIndex(steps, p.step);
    if i == -1 then steps + [p] else steps[i := p]
  }

  /** The step's first entry is replaced where it stands, or the entry is appended;
      everything else stays as it was. */
  lemma UpdateStepMeans(steps: seq<StepProgress>, p: StepProgress)
    ensures var after := UpdateStep(steps, p);
            if forall i :: 0 <= i < |steps| ==> steps[i].step != p.step then after == steps + [p]
            else exists i :: 0 <= i < |steps| && steps[i].step == p.step && (forall j :: 0 <= j < i ==> steps[j].step != p.step)
                             && after[i] == p && |after| == |steps|
                             && forall j :: 0 <= j < |steps| && j != i ==> after[j] == steps[j]
  {
    hide FindIndex;
    var i := FindIndex(steps, p.step);
    if i >= 0 {
      assert steps[i].step == p.step && UpdateStep(steps, p)[i] == p;
    }
  }

  function Receive(v: View, m: DashMsg): View {
    match m
    case StateMsg(state, _) => v.(state := state)
    case ProgressMsg(step, status) => v.(steps := UpdateStep(v.steps, StepProgress(step, status)))
    case CompleteMsg(summary) => v.(summary := Some(summary), state := Complete)
    case AgentsMsg(_) => v
    case SasMsg(_, _) => v
    case SasAlert => v
    case LogMsg(_) => v
    case AlertMsg(_) => v
  }

  function ReceiveAll(v: View, ms: seq<DashMsg>): View {
    if ms == [] then v else Receive(ReceiveAll(v, ms[..|ms| - 1]), ms[|ms| - 1])
  }

  /** The store that the socket's messages are wired to. */
  class SessionStore {
    var state: MigrationState
    var steps: seq<StepProgress>
    var summary: Option<Summary>

    function Shown(): View
      reads this
    {
      View(state, steps, summary)
    }

    constructor ()
      ensures Shown() == FRESH_VIEW
    {
      state, steps, summary := Idle, [], None;
    }

    method OnMessage(m: DashMsg)
      modifies this
      ensures Shown() == Receive(old(Shown()), m)
    {
      match m
      case StateMsg(to, _) => state := to;
      case ProgressMsg(step, status) =>
        var i := 0;
        while i < |steps| && steps[i].step != step
          invariant 0 <= i <= |steps|
          invariant forall j :: 0 <= j < i ==> steps[j].step != step
        {
          i := i + 1;
        }
        var p := StepProgress(step, status);
        if i == |steps| {
          steps := steps + [p];
        } else {
          steps := steps[i := p];
        }
      case CompleteMsg(s) =>
        summary := Some(s);
        state := Complete;
      case _ =>
    }
  }

  // ---------- The snapshot ----------

  /** The step messages of the snapshot for a stretch of the step table. */
  function StepSnapshot(table: seq<MigrationStep>, state: MigrationState, currentStep: int): seq<DashMsg> {
    if table == [] then []
    else
      var before := StepSnapshot(table[..|table| - 1], state, currentStep);
      var n := table[|table| - 1].number;
      if state == Complete || (state == Migrating && n < currentStep) then before + [ProgressMsg(n, StepOk)]
      else if state == Migrating && n == currentStep then before + [ProgressMsg(n, HubGlue.Running)]
      else before
  }

  /** A row of the audit log; `agent` is None for the hub's own. */
  datatype AuditEntry = AuditEntry(agent: Option<Role>, level: LogLevel, message: string, ts: int)

  const REPLAYED := 200

  /** The last rows of the session's log, oldest first. */
  function Recent(audit: seq<AuditEntry>): seq<AuditEntry> {
    if |audit| <= REPLAYED then audit else audit[|audit| - REPLAYED..]
  }

  /** The agents' lines of a stretch of the log; the hub's own are skipped. */
  function LogReplay(audit: seq<AuditEntry>): seq<DashMsg> {
    if audit == [] then []
    else
      var before, last := LogReplay(audit[..|audit| - 1]), audit[|audit| - 1];
      if last.agent.None? then before else before + [LogMsg(LogLine(last.agent.value, last.level, last.message, last.ts))]
  }

  /** What a joining page is shown besides the session's progress: whose socket is
      open, and the session's audit log. */
  datatype Backdrop = Backdrop(connected: PerRole<bool>, audit: seq<AuditEntry>)

  function Snapshot(state: MigrationState, currentStep: int, scene: Backdrop): seq<DashMsg> {
    [StateMsg(state, state), AgentsMsg(scene.connected)]
    + StepSnapshot(MIGRATION_STEPS, state, currentStep)
    + LogReplay(Recent(scene.audit))
  }

  /** The loops that send the progress of the steps. */
  method SendSteps(state: MigrationState, currentStep: int) returns (sent: seq<DashMsg>)
    ensures sent == StepSnapshot(MIGRATION_STEPS, state, currentStep)
  {
    sent := [];
    if state == Complete {
      for i := 0 to |MIGRATION_STEPS|
        invariant sent == StepSnapshot(MIGRATION_STEPS[..i], state, currentStep)
      {
        sent := sent + [ProgressMsg(MIGRATION_STEPS[i].number, StepOk)];
        assert MIGRATION_STEPS[..i + 1][..i] == MIGRATION_STEPS[..i];
      }
    } else if state == Migrating {
      for i := 0 to |MIGRATION_STEPS|
        invariant sent == StepSnapshot(MIGRATION_STEPS[..i], state, currentStep)
      {
        assert MIGRATION_STEPS[..i + 1][..i] == MIGRATION_STEPS[..i];
        var n := MIGRATION_STEPS[i].number;
        if n <= currentStep {
          sent := sent + [ProgressMsg(n, if n < currentStep then StepOk else HubGlue.Running)];
        }
      }
    } else {
      NoStepsOtherwise(MIGRATION_STEPS, state, currentStep);
    }
    assert MIGRATION_STEPS[..|MIGRATION_STEPS|] == MIGRATION_STEPS;
  }

  /** The loop that replays the log. */
  method SendLog(audit: seq<AuditEntry>) returns (sent: seq<DashMsg>)
    ensures sent == LogReplay(Recent(audit))
  {
    sent := [];
    var recent := Recent(audit);
    for i := 0 to |recent|
      invariant sent == LogReplay(recent[..i])
    {
      assert recent[..i + 1][..i] == recent[..i];
      if recent[i].agent.None? {
        continue;
      }
      sent := sent + [LogMsg(LogLine(recent[i].agent.value, recent[i].level, recent[i].message, recent[i].ts))];
    }
    assert recent[..|recent|] == recent;
  }

  method SendSnapshot(state: MigrationState, currentStep: int, scene: Backdrop) returns (sent: seq<DashMsg>)
    ensures sent == Snapshot(state, currentStep, scene)
  {
    hide StepSnapshot, LogReplay;
    sent := [StateMsg(state, state)];
    sent := sent + [AgentsMsg(scene.connected)];
    var steps := SendSteps(state, currentStep);
    var log := SendLog(scene.audit);
    sent := sent + steps + log;
  }

  /** First the state, then whose socket is open; of the log the newest 200 rows. */
  lemma SnapshotBegins(state: MigrationState, currentStep: int, scene: Backdrop)
    ensures var all := Snapshot(state, currentStep, scene);
            && |all| >= 2 && all[0] == StateMsg(state, state) && all[1] == AgentsMsg(scene.connected)
    ensures exists older :: scene.audit == older + Recent(scene.audit)
    ensures |Recent(scene.audit)| == if |scene.audit| < 200 then |scene.audit| else 200
  {
    hide StepSnapshot, LogReplay;
    NewestRows(scene.audit);
    hide Recent;
    var head := [StateMsg(state, state), AgentsMsg(scene.connected)];
    var steps, log := StepSnapshot(MIGRATION_STEPS, state, currentStep), LogReplay(Recent(scene.audit));
    assert head + steps + log == head + (steps + log);
  }

  lemma NewestRows(audit: seq<AuditEntry>)
    ensures exists older :: audit == older + Recent(audit)
    ensures |Recent(audit)| == if |audit| < 200 then |audit| else 200
  {
    assert audit == audit[..|audit| - |Recent(audit)|] + Recent(audit);
  }

  /** Row by row and in order, an agent's row is replayed as it was logged and the hub's
      own are not. */
  lemma {:induction false} ReplayMeans(a: seq<AuditEntry>, e: AuditEntry, b: seq<AuditEntry>)
    ensures LogReplay([]) == []
    ensures LogReplay(a + [e] + b) ==
            LogReplay(a)
            + (match e.agent
               case None => []
               case Some(r) => [LogMsg(LogLine(r, e.level, e.message, e.ts))])
            + LogReplay(b)
  {
    if b == [] {
      assert a + [e] + b == a + [e] && (a + [e])[..|a|] == a;
    } else {
      var all, before := a + [e] + b, b[..|b| - 1];
      ReplayMeans(a, e, before);
      assert all[..|all| - 1] == a + [e] + before && all[|all| - 1] == b[|b| - 1];
    }
  }

  lemma {:induction false} ReplayShowsNothing(v: View, audit: seq<AuditEntry>)
    ensures ReceiveAll(v, LogReplay(audit)) == v
  {
    if audit != [] {
      ReplayShowsNothing(v, audit[..|audit| - 1]);
      if audit[|audit| - 1].agent.Some? {
        var e := audit[|audit| - 1];
        ReceiveOneMore(v, LogReplay(audit[..|audit| - 1]), LogMsg(LogLine(e.agent.value, e.level, e.message, e.ts)));
      }
    }
  }

  lemma StateAndBadges(v: View, state: MigrationState, connected: PerRole<bool>)
    ensures Receive(v, StateMsg(state, state)) == v.(state := state)
    ensures Receive(v, AgentsMsg(connected)) == v
  {
  }

  /** Of the snapshot only the state and the steps reach the part of the screen that
      shows the session. */
  lemma SnapshotShows(v: View, state: MigrationState, currentStep: int, scene: Backdrop)
    ensures ReceiveAll(v, Snapshot(state, currentStep, scene))
         == ReceiveAll(v.(state := state), StepSnapshot(MIGRATION_STEPS, state, currentStep))
  {
    hide StepSnapshot, LogReplay, ReceiveAll, Receive, Recent;
    var first, steps := [StateMsg(state, state)], StepSnapshot(MIGRATION_STEPS, state, currentStep);
    var badges := [AgentsMsg(scene.connected)];
    assert first + badges == [StateMsg(state, state), AgentsMsg(scene.connected)];
    StateAndBadges(v, state, scene.connected);
    ReceiveConcat(v, first + badges + steps, LogReplay(Recent(scene.audit)));
    ReceiveConcat(v, first + badges, steps);
    ReceiveConcat(v, first, badges);
    ReceiveOne(v, first[0]);
    ReceiveOne(v.(state := state), badges[0]);
    StateAndBadges(v.(state := state), state, scene.connected);
    ReplayShowsNothing(ReceiveAll(v.(state := state), steps), Recent(scene.audit));
  }

  lemma {:induction false} NoStepsOtherwise(table: seq<MigrationStep>, state: MigrationState, currentStep: int)
    requires state != Complete && state != Migrating
    ensures StepSnapshot(table, state, currentStep) == []
  {
    if table != [] {
      NoStepsOtherwise(table[..|table| - 1], state, currentStep);
    }
  }

  // ---------- What should be shown ----------

  /** Steps 1 to `done` complete, and the one after it running if `busy`. */
  function Progressed(done: nat, busy: bool): seq<StepProgress> {
    seq(if busy then done + 1 else done, i => StepProgress(i + 1, if i < done then StepOk else HubGlue.Running))
  }

  function ShouldShow(o: Core): seq<StepProgress>
    requires CoreInv(o)
  {
    if o.state == Migrating then Progressed(o.currentStep - 1, true)
    else if o.state == Complete then Progressed(TOTAL_STEPS, false)
    else []
  }

  /** The entries are numbered 1, 2, 3, ... */
  predicate Numbered(steps: seq<StepProgress>) {
    forall i :: 0 <= i < |steps| ==> steps[i].step == i + 1
  }

  lemma UpdateNumbered(steps: seq<StepProgress>, p: StepProgress)
    requires Numbered(steps) && 1 <= p.step <= |steps| + 1
    ensures Numbered(UpdateStep(steps, p))
    ensures UpdateStep(steps, p) == if p.step <= |steps| then steps[p.step - 1 := p] else steps + [p]
  {
    var i := FindIndex(steps, p.step);
    if p.step <= |steps| {
      assert steps[p.step - 1].step == p.step;
      assert i >= 0 && steps[i].step == i + 1;
    }
  }

  /** The status the snapshot gives step `n`. */
  function StatusIn(state: MigrationState, currentStep: int, n: int): StepStatus {
    if state == Migrating && n == currentStep then HubGlue.Running else StepOk
  }

  /** The entries after the first `k` snapshot messages: those fixed, the rest kept. */
  predicate Fixed(before: seq<StepProgress>, after: seq<StepProgress>, k: nat, state: MigrationState, currentStep: int) {
    && Numbered(after)
    && |after| == (if |before| < k then k else |before|)
    && (forall i :: 0 <= i < k ==> after[i].status == StatusIn(state, currentStep, i + 1))
    && (forall i :: k <= i < |before| ==> after[i] == before[i])
  }

  lemma OneMoreFixed(before: seq<StepProgress>, after: seq<StepProgress>, k: nat, state: MigrationState, currentStep: int)
    requires Fixed(before, after, k, state, currentStep)
    ensures Fixed(before, UpdateStep(after, StepProgress(k + 1, StatusIn(state, currentStep, k + 1))), k + 1, state, currentStep)
  {
    hide UpdateStep;
    UpdateNumbered(after, StepProgress(k + 1, StatusIn(state, currentStep, k + 1)));
  }

  lemma SnapshotOfOneMore(k: nat, state: MigrationState, currentStep: int)
    requires k < TOTAL_STEPS
    requires state == Complete || (state == Migrating && k + 1 <= currentStep)
    ensures StepSnapshot(MIGRATION_STEPS[..k + 1], state, currentStep)
         == StepSnapshot(MIGRATION_STEPS[..k], state, currentStep) + [ProgressMsg(k + 1, StatusIn(state, currentStep, k + 1))]
  {
    var table := MIGRATION_STEPS[..k + 1];
    assert table[..k] == MIGRATION_STEPS[..k];
    assert table[k].number == k + 1;
  }

  /** The snapshot, folded over whatever an earlier connection left on the screen,
      fixes the first entries and keeps the rest. */
  lemma {:induction false} SnapshotFolds(v: View, k: nat, state: MigrationState, currentStep: int)
    requires Numbered(v.steps) && k <= TOTAL_STEPS
    requires state == Complete || (state == Migrating && k <= currentStep)
    ensures var w := ReceiveAll(v, StepSnapshot(MIGRATION_STEPS[..k], state, currentStep));
            w == v.(steps := w.steps) && Fixed(v.steps, w.steps, k, state, currentStep)
  {
    if k == 0 {
      assert MIGRATION_STEPS[..0] == [];
    } else {
      hide *;
      SnapshotFolds(v, k - 1, state, currentStep);
      SnapshotOfOneMore(k - 1, state, currentStep);
      var before := StepSnapshot(MIGRATION_STEPS[..k - 1], state, currentStep);
      var w := ReceiveAll(v, before);
      var m := ProgressMsg(k, StatusIn(state, currentStep, k));
      ReceiveOneMore(v, before, m);
      ReceivesStep(w, k, m.status);
      OneMoreFixed(v.steps, w.steps, k - 1, state, currentStep);
    }
  }

  lemma ReceiveOneMore(v: View, ms: seq<DashMsg>, m: DashMsg)
    ensures ReceiveAll(v, ms + [m]) == Receive(ReceiveAll(v, ms), m)
  {
    hide Receive;
    assert (ms + [m])[..|ms|] == ms;
  }

  lemma ReceivesStep(v: View, n: int, status: StepStatus)
    ensures Receive(v, ProgressMsg(n, status)) == v.(steps := UpdateStep(v.steps, StepProgress(n, status)))
  {
    hide UpdateStep;
  }

  /** Later entries of the table are still pending and add nothing. */
  lemma {:induction false} PendingAddNothing(k: nat, currentStep: nat)
    requires currentStep <= k <= TOTAL_STEPS
    ensures StepSnapshot(MIGRATION_STEPS[..k], Migrating, currentStep)
         == StepSnapshot(MIGRATION_STEPS[..currentStep], Migrating, currentStep)
  {
    if k > currentStep {
      PendingAddNothing(k - 1, currentStep);
      assert MIGRATION_STEPS[..k][..k - 1] == MIGRATION_STEPS[..k - 1];
      assert MIGRATION_STEPS[..k][k - 1].number == k;
    }
  }

  lemma {:induction false} ReceiveConcat(v: View, a: seq<DashMsg>, b: seq<DashMsg>)
    ensures ReceiveAll(v, a + b) == ReceiveAll(ReceiveAll(v, a), b)
  {
    hide Receive;
    if b == [] {
      assert a + b == a;
    } else {
      assert (a + b)[..|a + b| - 1] == a + b[..|b| - 1];
      ReceiveConcat(v, a, b[..|b| - 1]);
    }
  }

  lemma ReceiveOne(v: View, m: DashMsg)
    ensures ReceiveAll(v, [m]) == Receive(v, m)
  {
    assert [m][..0] == [];
  }

  /** A dashboard that joins while the session has not failed shows exactly what it
      should, whatever earlier part of the run was already on its screen. */
  lemma JoiningShows(v: View, o: Core, scene: Backdrop)
    requires CoreInv(o) && o.state != Failed && Numbered(v.steps) && |v.steps| <= |ShouldShow(o)|
    ensures ReceiveAll(v, Snapshot(o.state, o.currentStep, scene)) == View(o.state, ShouldShow(o), v.summary)
  {
    hide Receive, StepSnapshot, Snapshot;
    var rest := StepSnapshot(MIGRATION_STEPS, o.state, o.currentStep);
    var u := v.(state := o.state);
    SnapshotShows(v, o.state, o.currentStep, scene);
    assert MIGRATION_STEPS[..TOTAL_STEPS] == MIGRATION_STEPS;
    if o.state == Complete {
      SnapshotFolds(u, TOTAL_STEPS, o.state, o.currentStep);
      assert ReceiveAll(u, rest).steps == ShouldShow(o);
    } else if o.state == Migrating {
      PendingAddNothing(TOTAL_STEPS, o.currentStep);
      SnapshotFolds(u, o.currentStep, o.state, o.currentStep);
      assert ReceiveAll(u, rest).steps == ShouldShow(o);
    } else {
      NoStepsOtherwise(MIGRATION_STEPS, o.state, o.currentStep);
    }
  }

  /** Joining after a failure brings the state and nothing about the steps. */
  lemma JoiningFailed(v: View, currentStep: int, scene: Backdrop)
    ensures ReceiveAll(v, Snapshot(Failed, currentStep, scene)) == v.(state := Failed)
  {
    hide Snapshot;
    SnapshotShows(v, Failed, currentStep, scene);
    NoStepsOtherwise(MIGRATION_STEPS, Failed, currentStep);
  }

  // ---------- What the live broadcasts show ----------

  lemma {:induction false} BroadcastsConcat(a: seq<Event>, b: seq<Event>)
    ensures Broadcasts(a + b) == Broadcasts(a) + Broadcasts(b)
  {
    hide Broadcast;
    if b == [] {
      assert a + b == a;
    } else {
      assert (a + b)[..|a + b| - 1] == a + b[..|b| - 1];
      BroadcastsConcat(a, b[..|b| - 1]);
    }
  }

  /** The events as the screen sees them. */
  function Watch(v: View, events: seq<Event>): View {
    ReceiveAll(v, Broadcasts(events))
  }

  lemma WatchConcat(v: View, a: seq<Event>, b: seq<Event>)
    ensures Watch(v, a + b) == Watch(Watch(v, a), b)
  {
    BroadcastsConcat(a, b);
    ReceiveConcat(v, Broadcasts(a), Broadcasts(b));
  }

  lemma WatchOne(v: View, e: Event)
    ensures Watch(v, [e]) == ReceiveAll(v, Broadcast(e))
    ensures Broadcast(e) == [] ==> Watch(v, [e]) == v
    ensures Broadcast(e) != [] ==> Watch(v, [e]) == Receive(v, Broadcast(e)[0])
  {
    assert [e][..0] == [];
    assert Broadcasts([e]) == [] + Broadcast(e);
    if Broadcast(e) != [] {
      ReceiveOne(v, Broadcast(e)[0]);
      assert Broadcast(e) == [Broadcast(e)[0]];
    }
  }

  lemma WatchTwo(v: View, e: Event, f: Event)
    ensures Watch(v, [e, f]) == Watch(Watch(v, [e]), [f])
  {
    assert [e, f] == [e] + [f];
    WatchConcat(v, [e], [f]);
  }

  lemma {:induction false} WatchRollbacks(v: View, events: seq<Event>)
    requires forall i :: 0 <= i < |events| ==> events[i].RollbackIssued?
    ensures Watch(v, events) == v
  {
    if events != [] {
      var before, last := events[..|events| - 1], events[|events| - 1];
      WatchRollbacks(v, before);
      assert events == before + [last];
      WatchConcat(v, before, [last]);
      WatchOne(v, last);
    }
  }

  /** A rollback shows as a failure and leaves the steps as they were. */
  lemma WatchRollBack(v: View, o: Core, events: seq<Event>, reason: Reason)
    ensures Watch(v, RollBack(o, events, reason).events) == Watch(v, events).(state := Failed)
  {
    hide Watch;
    var enter := [StateChange(o.state, Rollback)];
    var table := IssueAll(GetRollbackSteps(o.currentStep));
    var leave := [StateChange(Rollback, Failed), SessionFailed(reason)];
    var u := Watch(v, events);
    assert RollBack(o, events, reason).events == events + enter + table + leave;
    WatchConcat(v, events + enter + table, leave);
    WatchConcat(v, events + enter, table);
    WatchConcat(v, events, enter);
    WatchOne(u, enter[0]);
    WatchRollbacks(u.(state := Rollback), table);
    WatchTwo(u.(state := Rollback), leave[0], leave[1]);
    WatchOne(u.(state := Rollback), leave[0]);
    WatchOne(u.(state := Failed), leave[1]);
  }

  lemma WatchFailWith(v: View, o: Core, events: seq<Event>, reason: Reason)
    ensures Watch(v, FailWith(o, events, reason).events) == Watch(v, events).(state := Failed)
  {
    hide Watch;
    var leave := [StateChange(o.state, Failed), SessionFailed(reason)];
    var u := Watch(v, events);
    WatchConcat(v, events, leave);
    WatchTwo(u, leave[0], leave[1]);
    WatchOne(u, leave[0]);
    WatchOne(u.(state := Failed), leave[1]);
  }

  /** The screen of a dashboard that has missed nothing. */
  ghost predicate Faithful(v: View, o: Core) {
    && CoreInv(o)
    && v.state == o.state
    && (if o.state == Failed then Numbered(v.steps) && |v.steps| == o.currentStep else v.steps == ShouldShow(o))
    && (v.summary.Some? <==> o.state == Complete)
  }

  lemma FaithfulIsNumbered(v: View, o: Core)
    requires Faithful(v, o)
    ensures Numbered(v.steps) && |v.steps| == o.currentStep
  {
  }

  /** Failing from any state leaves a faithful screen faithful. */
  lemma FailsFaithfully(v: View, o: Core, p: Core, w: View)
    requires Faithful(v, o) && o.state != Complete && CoreInv(p)
    requires p.state == Failed && p.currentStep == o.currentStep
    requires w.state == Failed && w.summary == v.summary && Numbered(w.steps) && |w.steps| == |v.steps|
    ensures Faithful(w, p)
  {
    FaithfulIsNumbered(v, o);
  }

  /** Live broadcasts keep a faithful screen faithful, call after call. */
  lemma CallShows(v: View, o: Core, c: Call)
    requires Faithful(v, o)
    ensures Faithful(Watch(v, Apply(o, c).events), Apply(o, c).core)
  {
    hide Watch, UpdateStep, CoreInv, ShouldShow, Numbered;
    ApplyKeepsCore(o, c);
    match c
    case Start => NothingShown(v, o, c);
    case Abort(reason) =>
      if IsTerminal(o.state) {
        NothingShown(v, o, c);
      } else if o.state == Migrating && ShouldRollback(o.currentStep) {
        WatchRollBack(v, o, [], Plain(reason));
        FailureShows(v, o, c);
      } else {
        WatchFailWith(v, o, [], AbortedBecause(reason));
        FailureShows(v, o, c);
      }
    case AgentConnected(r) => EarlyCallShows(v, o, c);
    case AgentDisconnected(r) =>
      if o.state == Migrating && r == Source && o.currentStep < 5 {
        WatchRollBack(v, o.(agents := o.agents.Set(r, false)), [], SourceLost(o.currentStep));
        FailureShows(v, o, c);
      } else if o.state == Migrating && r == Target && o.currentStep >= 5 {
        WatchOne(v, CriticalAlert(o.currentStep));
        SameScreen(v, o, Apply(o, c).core);
      } else {
        EarlyCallShows(v, o, c);
      }
    case SasConfirmed(r) => EarlyCallShows(v, o, c);
    case PreflightResult(r, checks) =>
      if o.state == Preflight && Apply(o, c).core.state == Failed {
        var p := o.(preflight := o.preflight.Set(r, Some(checks)));
        WatchFailWith(v, p, [], PreflightFailed(FailedChecks(p.preflight.source.value + p.preflight.target.value)));
        FailureShows(v, o, c);
      } else {
        EarlyCallShows(v, o, c);
      }
    case StartMigration(now) =>
      if o.state == AwaitingWindow {
        StartShows(v, o, now);
      } else {
        NothingShown(v, o, c);
      }
    case StepComplete(step, r, now) =>
      if Apply(o, c).events == [] {
        NothingShown(v, o, c);
      } else {
        AdvanceShows(v, o, c);
      }
    case StepFailed(step, r, error) =>
      if Current(o, step) {
        StepFailureShows(v, o, c);
      } else {
        NothingShown(v, o, c);
      }
  }

  lemma SameScreen(v: View, o: Core, p: Core)
    requires Faithful(v, o) && CoreInv(p) && p.state == o.state && p.currentStep == o.currentStep
    ensures Faithful(v, p)
  {
  }

  lemma NothingShown(v: View, o: Core, c: Call)
    requires Faithful(v, o) && Apply(o, c).events == []
    ensures Faithful(Watch(v, []), Apply(o, c).core)
  {
    ApplyKeepsCore(o, c);
    SilentKeepsProgress(o, c);
    SameScreen(v, o, Apply(o, c).core);
  }

  lemma SilentKeepsProgress(o: Core, c: Call)
    requires CoreInv(o) && Apply(o, c).events == []
    ensures Apply(o, c).core.state == o.state && Apply(o, c).core.currentStep == o.currentStep
  {
  }

  /** Before the migration starts: nothing, or one change between states without steps. */
  lemma EarlyCallShows(v: View, o: Core, c: Call)
    requires Faithful(v, o)
    requires var out := Apply(o, c);
             out.events == []
             || (out.events == [StateChange(o.state, out.core.state)]
                 && o.state in {Idle, Pairing, Preflight} && out.core.state in {Idle, Pairing, Preflight, AwaitingWindow})
    ensures Faithful(Watch(v, Apply(o, c).events), Apply(o, c).core)
  {
    hide Apply, Watch, UpdateStep;
    ApplyKeepsCore(o, c);
    if Apply(o, c).events == [] {
      NothingShown(v, o, c);
    } else {
      WatchOne(v, StateChange(o.state, Apply(o, c).core.state));
    }
  }

  lemma FailureShows(v: View, o: Core, c: Call)
    requires Faithful(v, o) && o.state != Complete
    requires var out := Apply(o, c);
             out.core.state == Failed && out.core.currentStep == o.currentStep
             && Watch(v, out.events) == Watch(v, []).(state := Failed)
    ensures Faithful(Watch(v, Apply(o, c).events), Apply(o, c).core)
  {
    hide Apply, UpdateStep, CoreInv;
    ApplyKeepsCore(o, c);
    FaithfulIsNumbered(v, o);
    FailsFaithfully(v, o, Apply(o, c).core, Watch(v, Apply(o, c).events));
  }

  lemma StartShows(v: View, o: Core, now: int)
    requires Faithful(v, o) && o.state == AwaitingWindow
    ensures var out := Apply(o, StartMigration(now)); Faithful(Watch(v, out.events), out.core)
  {
    hide Watch, UpdateStep;
    var e, f := StateChange(AwaitingWindow, Migrating), ExecuteStep(ExecutorOf(1), 1);
    ApplyKeepsCore(o, StartMigration(now));
    WatchTwo(v, e, f);
    WatchOne(v, e);
    WatchOne(v.(state := Migrating), f);
    UpdateNumbered([], StepProgress(1, HubGlue.Running));
    assert [StepProgress(1, HubGlue.Running)] == Progressed(0, true);
  }

  lemma CompletedThenRunning(k: nat)
    requires 1 <= k
    ensures UpdateStep(Progressed(k - 1, true), StepProgress(k, StepOk)) == Progressed(k, false)
    ensures UpdateStep(Progressed(k, false), StepProgress(k + 1, HubGlue.Running)) == Progressed(k, true)
  {
    UpdateNumbered(Progressed(k - 1, true), StepProgress(k, StepOk));
    UpdateNumbered(Progressed(k, false), StepProgress(k + 1, HubGlue.Running));
  }

  lemma AdvanceShows(v: View, o: Core, c: Call)
    requires Faithful(v, o) && c.StepComplete? && Apply(o, c).events != []
    ensures Faithful(Watch(v, Apply(o, c).events), Apply(o, c).core)
  {
    hide Watch, UpdateStep, PendingOnly;
    var k := o.currentStep;
    var out := Apply(o, c);
    ApplyKeepsCore(o, c);
    CompletedThenRunning(k);
    var u := v.(steps := Progressed(k, false));
    WatchOne(v, StepCompleted(k));
    if k == TOTAL_STEPS {
      var done := out.events[2];
      assert out.events == [StepCompleted(k)] + [StateChange(Migrating, Complete), done];
      WatchConcat(v, [StepCompleted(k)], [StateChange(Migrating, Complete), done]);
      WatchTwo(u, StateChange(Migrating, Complete), done);
      WatchOne(u, StateChange(Migrating, Complete));
      WatchOne(u.(state := Complete), done);
    } else {
      WatchTwo(v, StepCompleted(k), ExecuteStep(ExecutorOf(k + 1), k + 1));
      WatchOne(u, ExecuteStep(ExecutorOf(k + 1), k + 1));
    }
  }

  lemma StepFailureShows(v: View, o: Core, c: Call)
    requires Faithful(v, o) && c.StepFailed? && Current(o, c.step)
    ensures Faithful(Watch(v, Apply(o, c).events), Apply(o, c).core)
  {
    hide Watch, UpdateStep, CoreInv;
    var k := o.currentStep;
    var e := StepFailedEvent(k, c.role);
    ApplyKeepsCore(o, c);
    FaithfulIsNumbered(v, o);
    MigratingStepInRange(o);
    WatchOne(v, e);
    UpdateNumbered(v.steps, StepProgress(k, StepBroken));
    var u := Watch(v, [e]);
    if ShouldRollback(k) {
      WatchRollBack(v, o, [e], StepFailure(k, c.role, c.error));
    } else {
      WatchFailWith(v, o, [e], StepFailure(k, c.role, c.error));
    }
    FailsFaithfully(v, o, Apply(o, c).core, u.(state := Failed));
  }

  lemma MigratingStepInRange(o: Core)
    requires CoreInv(o) && o.state == Migrating
    ensures 1 <= o.currentStep <= TOTAL_STEPS
  {
  }

  // ---------- Joining, leaving, and what was missed ----------

  /** The session row after everything emitted since `create`. */
  function RowOf(trace: seq<Event>): Row {
    WriteRows(Row(Idle, false), trace)
  }

  /** The screen of a dashboard connected from the start. */
  function Always(trace: seq<Event>): View {
    Watch(FRESH_VIEW, trace)
  }

  /** The row's state is the orchestrator's, and the row is marked completed exactly
      when the session completed. */
  lemma {:induction false} RowFollowsTrace(trace: seq<Event>)
    requires ObserveAll(MONITOR_START, trace).Watching?
    ensures var m := ObserveAll(MONITOR_START, trace);
            RowOf(trace).state == m.state && (RowOf(trace).completed <==> m.closed && m.state == Complete)
  {
    if trace != [] {
      RowFollowsTrace(trace[..|trace| - 1]);
    }
  }

  /** A dashboard page: whether its socket is open, what state the session was in
      when it last joined, and its store, which survives a lost connection. */
  datatype Viewer = Viewer(connected: bool, joinedIn: Option<MigrationState>, view: View)

  datatype World = World(hub: Machine, viewer: Viewer)

  datatype Doing = HubCall(call: Call) | Join(scene: Backdrop) | Leave | Reload

  function Do(w: World, d: Doing): World {
    match d
    case HubCall(c) =>
      var events := Apply(w.hub.core, c).events;
      World(Step(w.hub, c),
            if w.viewer.connected then w.viewer.(view := Watch(w.viewer.view, events)) else w.viewer)
    case Join(scene) =>
      var state := RowOf(w.hub.trace).state;
      w.(viewer := Viewer(true, Some(state), ReceiveAll(w.viewer.view, Snapshot(state, w.hub.core.currentStep, scene))))
    case Leave => w.(viewer := w.viewer.(connected := false))
    case Reload => w.(viewer := Viewer(false, None, FRESH_VIEW))
  }

  function Play(w: World, doings: seq<Doing>): World {
    if doings == [] then w else Do(Play(w, doings[..|doings| - 1]), doings[|doings| - 1])
  }

  function Opening(createdAt: int): World {
    World(NewMachine(createdAt), Viewer(false, None, FRESH_VIEW))
  }

  /** Same state and same steps. */
  predicate Alike(a: View, b: View) {
    a.state == b.state && a.steps == b.steps
  }

  ghost predicate WorldInv(w: World) {
    var all := Always(w.hub.trace);
    && MachineInv(w.hub)
    && Faithful(all, w.hub.core)
    && Numbered(w.viewer.view.steps)
    && |w.viewer.view.steps| <= |all.steps|
    && (w.viewer.view.summary.Some? ==> w.hub.core.state == Complete)
    && (w.viewer.connected ==> w.viewer.joinedIn.Some?)
    && (w.viewer.connected && IsTerminal(w.viewer.joinedIn.value) ==> w.hub.core.state == w.viewer.joinedIn.value)
    && (w.viewer.connected && w.viewer.joinedIn.value != Failed ==>
          Alike(w.viewer.view, all) && (w.viewer.joinedIn.value != Complete ==> w.viewer.view == all))
  }

  /** A finished or failed session shows nothing new. */
  lemma OverIsQuiet(o: Core, c: Call)
    requires IsTerminal(o.state)
    ensures Apply(o, c).events == [] && Apply(o, c).core.state == o.state
  {
  }

  lemma StepsNeverFall(o: Core, c: Call)
    requires CoreInv(o)
    ensures Apply(o, c).core.currentStep >= o.currentStep
  {
  }

  lemma HubCallKeepsWorld(w: World, c: Call)
    requires WorldInv(w)
    ensures WorldInv(Do(w, HubCall(c)))
  {
    hide Apply, MachineInv, Watch, CoreInv, ShouldShow, Numbered;
    var o, events := w.hub.core, Apply(w.hub.core, c).events;
    var before, after := Always(w.hub.trace), Always(w.hub.trace + events);
    StepKeepsInv(w.hub, c);
    WatchConcat(FRESH_VIEW, w.hub.trace, events);
    CallShows(before, o, c);
    FaithfulIsNumbered(before, o);
    FaithfulIsNumbered(after, Apply(o, c).core);
    StepsNeverFall(o, c);
    if IsTerminal(o.state) {
      OverIsQuiet(o, c);
      WatchNothing(w.viewer.view);
      WatchNothing(before);
    }
  }

  lemma WatchNothing(v: View)
    ensures Watch(v, []) == v
  {
  }

  lemma JoinKeepsWorld(w: World, scene: Backdrop)
    requires WorldInv(w)
    ensures WorldInv(Do(w, Join(scene)))
  {
    hide MachineInv, Watch, CoreInv, ShouldShow, Numbered, Snapshot;
    var o, v := w.hub.core, w.viewer.view;
    TraceAgrees(w.hub);
    FaithfulIsNumbered(Always(w.hub.trace), o);
    if o.state == Failed {
      JoiningFailed(v, o.currentStep, scene);
    } else {
      JoiningShows(v, o, scene);
    }
  }

  lemma TraceAgrees(m: Machine)
    requires MachineInv(m)
    ensures RowOf(m.trace).state == m.core.state
    ensures RowOf(m.trace).completed <==> m.core.state == Complete
  {
    RowFollowsTrace(m.trace);
  }

  lemma {:induction false} PlayKeepsWorld(createdAt: int, doings: seq<Doing>)
    ensures WorldInv(Play(Opening(createdAt), doings))
  {
    hide MachineInv, Faithful, WorldInv, Do, Numbered;
    if doings == [] {
      OpeningInv(createdAt);
    } else {
      var before, d := doings[..|doings| - 1], doings[|doings| - 1];
      PlayKeepsWorld(createdAt, before);
      var w := Play(Opening(createdAt), before);
      match d
      case HubCall(c) => HubCallKeepsWorld(w, c);
      case Join(scene) => JoinKeepsWorld(w, scene);
      case Leave => LeaveKeepsWorld(w);
      case Reload => LeaveKeepsWorld(w);
    }
  }

  lemma LeaveKeepsWorld(w: World)
    requires WorldInv(w)
    ensures WorldInv(Do(w, Leave)) && WorldInv(Do(w, Reload))
  {
  }

  lemma OpeningInv(createdAt: int)
    ensures WorldInv(Opening(createdAt))
  {
    NewMachineInv(createdAt);
  }

  /** Over every run, with the page joining, leaving and reloading whenever it likes:
      connected and last joined while the session was not FAILED, it holds the state
      and the step list of a page that was connected all along; last joined before
      the session was over, it holds everything that one does. And what that one
      holds is the session's state and the orchestrator's progress. */
  lemma LateJoinAgreement(createdAt: int, doings: seq<Doing>)
    ensures var w := Play(Opening(createdAt), doings);
            var all := Always(w.hub.trace);
            && (w.viewer.connected ==> w.viewer.joinedIn.Some?)
            && (w.viewer.connected && w.viewer.joinedIn.value != Failed ==> Alike(w.viewer.view, all))
            && (w.viewer.connected && !IsTerminal(w.viewer.joinedIn.value) ==> w.viewer.view == all)
            && RowOf(w.hub.trace).state == all.state == w.hub.core.state
            && |all.steps| == w.hub.core.currentStep
            && CoreInv(w.hub.core) && (all.state != Failed ==> all.steps == ShouldShow(w.hub.core))
  {
    hide MachineInv, Watch, CoreInv, ShouldShow, Numbered, Do;
    PlayKeepsWorld(createdAt, doings);
    var w := Play(Opening(createdAt), doings);
    TraceAgrees(w.hub);
    FaithfulIsNumbered(Always(w.hub.trace), w.hub.core);
  }

  /** A fresh page that joins a FAILED session agrees with one connected all along
      exactly when no step had been dispatched; otherwise it shows no steps at all. */
  lemma FailedJoinExactly(createdAt: int, calls: seq<Call>, scene: Backdrop)
    requires Run(NewMachine(createdAt), calls).core.state == Failed
    ensures var m := Run(NewMachine(createdAt), calls);
            var joined := ReceiveAll(FRESH_VIEW, Snapshot(RowOf(m.trace).state, m.core.currentStep, scene));
            && joined == FRESH_VIEW.(state := Failed)
            && (Alike(joined, Always(m.trace)) <==> m.core.currentStep == 0)
  {
    hide MachineInv, Watch, CoreInv, ShouldShow, Numbered;
    var m := Run(NewMachine(createdAt), calls);
    AlwaysFaithful(createdAt, calls);
    TraceAgrees(m);
    FaithfulIsNumbered(Always(m.trace), m.core);
    JoiningFailed(FRESH_VIEW, m.core.currentStep, scene);
  }

  /** A page that joins a COMPLETE session has the steps but not the summary. */
  lemma CompleteJoinLacksSummary(createdAt: int, calls: seq<Call>, scene: Backdrop)
    requires Run(NewMachine(createdAt), calls).core.state == Complete
    ensures var m := Run(NewMachine(createdAt), calls);
            var joined := ReceiveAll(FRESH_VIEW, Snapshot(RowOf(m.trace).state, m.core.currentStep, scene));
            && joined == View(Complete, Progressed(TOTAL_STEPS, false), None)
            && Alike(joined, Always(m.trace)) && Always(m.trace).summary.Some?
  {
    hide MachineInv, Watch, Snapshot;
    var m := Run(NewMachine(createdAt), calls);
    AlwaysFaithful(createdAt, calls);
    TraceAgrees(m);
    JoiningShows(FRESH_VIEW, m.core, scene);
  }

  lemma {:induction false} AlwaysFaithful(createdAt: int, calls: seq<Call>)
    ensures var m := Run(NewMachine(createdAt), calls); MachineInv(m) && Faithful(Always(m.trace), m.core)
  {
    hide Watch, Apply, Faithful, MachineInv;
    if calls == [] {
      OpeningInv(createdAt);
    } else {
      var before, c := calls[..|calls| - 1], calls[|calls| - 1];
      AlwaysFaithful(createdAt, before);
      var m := Run(NewMachine(createdAt), before);
      StepKeepsInv(m, c);
      CallShows(Always(m.trace), m.core, c);
      WatchConcat(FRESH_VIEW, m.trace, Apply(m.core, c).events);
    }
  }
}
