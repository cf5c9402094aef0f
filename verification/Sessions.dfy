/** The session manager: one orchestrator, one room and one database row per session,
    and the listeners that turn orchestrator events into messages and row writes. */
module Sessions {
  import opened Protocol
  import opened OrchestratorSpec
  import opened OrchestratorRuns
  import opened HubGlue
  import opened Orchestrator
  import opened Dashboard
  import opened Rooms

  /** The agent messages that reach the manager. */
  datatype AgentReport =
    | Hello
    | SasOk
    | Preflighted(checks: seq<PreflightCheck>)
    | StepDone(step: int)
    | StepBroke(step: int, error: string)
    | Announced(sas: string)
    | Unrelated

  datatype DashboardRequest = StartRequest | AbortRequest | ConfirmSasRequest

  /** The orchestrator call an agent message stands for. */
  function AgentCall(role: Role, msg: AgentReport, now: int): Option<Call> {
    match msg
    case Hello => Some(AgentConnected(role))
    case SasOk => Some(SasConfirmed(role))
    case Preflighted(checks) => Some(PreflightResult(role, checks))
    case StepDone(step) => Some(StepComplete(step, role, now))
    case StepBroke(step, error) => Some(StepFailed(step, role, error))
    case Announced(_) => None
    case Unrelated => None
  }

  function DashboardCall(msg: DashboardRequest, now: int): Option<Call> {
    match msg
    case StartRequest => Some(StartMigration(now))
    case AbortRequest => Some(Abort("dashboard_abort"))
    case ConfirmSasRequest => None
  }

  // ---------- The short authentication string ----------

  /** The codes the agents announced, an empty one standing for none, and whether the
      dashboards have been told. */
  datatype SasEntry = SasEntry(codes: PerRole<string>, told: bool)

  const NO_SAS := SasEntry(PerRole("", ""), false)

  predicate BothIn(codes: PerRole<string>) {
    codes.source != "" && codes.target != ""
  }

  /** What the dashboards are told of a pair of codes. */
  function SasNews(codes: PerRole<string>): seq<DashMsg> {
    var matches := codes.source == codes.target;
    [SasMsg(codes, matches)] + if matches then [] else [SasAlert]
  }

  /** The entry after an announcement, and the broadcasts it causes. */
  function Announce(e: SasEntry, role: Role, sas: string): (SasEntry, seq<DashMsg>) {
    if e.told then (e, [])
    else
      var codes := e.codes.Set(role, sas);
      if BothIn(codes) then (SasEntry(codes, true), SasNews(codes)) else (SasEntry(codes, false), [])
  }

  datatype Announcement = Announcement(role: Role, sas: string)

  function AnnounceAll(said: seq<Announcement>): (SasEntry, seq<DashMsg>) {
    if said == [] then (NO_SAS, [])
    else
      var (e, before) := AnnounceAll(said[..|said| - 1]);
      var last := said[|said| - 1];
      var (after, news) := Announce(e, last.role, last.sas);
      (after, before + news)
  }

  /** The code each agent announced last. */
  function Latest(said: seq<Announcement>, r: Role): string {
    if said == [] then ""
    else if said[|said| - 1].role == r then said[|said| - 1].sas
    else Latest(said[..|said| - 1], r)
  }

  function LatestCodes(said: seq<Announcement>): PerRole<string> {
    PerRole(Latest(said, Source), Latest(said, Target))
  }

  /** `k` announcements are the first that leave both agents with a code. */
  ghost predicate FirstPair(said: seq<Announcement>, k: int) {
    && 0 <= k <= |said| && BothIn(LatestCodes(said[..k]))
    && (forall i :: 0 <= i < k ==> !BothIn(LatestCodes(said[..i])))
  }

  /** The pages are told both codes and that they match exactly if they are equal; if
      they are not, an alert follows. */
  predicate TellsTruly(codes: PerRole<string>, news: seq<DashMsg>) {
    && news != [] && news[0].SasMsg? && news[0].codes == codes
    && (news[0].matches <==> codes.source == codes.target)
    && news[1..] == (if codes.source == codes.target then [] else [SasAlert])
  }

  lemma {:induction false} NoPairYet(said: seq<Announcement>, k: nat)
    requires k <= |said| && forall i :: !FirstPair(said, i)
    ensures forall i :: 0 <= i <= k ==> !BothIn(LatestCodes(said[..i]))
  {
    hide LatestCodes, BothIn;
    if k > 0 {
      NoPairYet(said, k - 1);
    }
    assert !FirstPair(said, k);
  }

  /** The dashboards are told of the first pair of codes and of nothing after it: an
      agent that comes back with another code is compared with no one. */
  lemma {:induction false} OnlyFirstPairIsShown(said: seq<Announcement>)
    ensures var (e, news) := AnnounceAll(said);
            && (e.told <==> exists k :: FirstPair(said, k))
            && (e.told ==> exists k :: FirstPair(said, k) && e.codes == LatestCodes(said[..k]) && TellsTruly(e.codes, news))
            && (!e.told ==> e.codes == LatestCodes(said) && news == [])
  {
    assert said[..|said|] == said;
    if said == [] {
      assert forall k :: !FirstPair(said, k);
    } else {
      var before := said[..|said| - 1];
      OnlyFirstPairIsShown(before);
      assert forall k :: 0 <= k <= |before| ==> before[..k] == said[..k];
      assert forall k :: 0 <= k <= |before| ==> (FirstPair(before, k) <==> FirstPair(said, k));
      if AnnounceAll(before).0.told {
        var k :| FirstPair(before, k) && AnnounceAll(before).0.codes == LatestCodes(before[..k]);
        assert FirstPair(said, k);
      } else {
        NoPairYet(before, |before|);
        if BothIn(LatestCodes(said)) {
          assert FirstPair(said, |said|);
        }
      }
    }
  }

  /** What `events` add to a room's sockets: to each agent its messages, to each
      dashboard the broadcasts. */
  ghost function Fanout(b: Outbox, events: seq<Event>): Outbox {
    BroadcastAll(SendTo(SendTo(b, Source, AllMessagesFor(Source, events)), Target, AllMessagesFor(Target, events)),
                 Broadcasts(events))
  }

  lemma SendTwice(b: Outbox, r: Role, x: seq<HubMsg>, y: seq<HubMsg>)
    ensures SendTo(SendTo(b, r, x), r, y) == SendTo(b, r, x + y)
    ensures SendTo(b, r, []) == b
  {
    if b.agents.Get(r).Some? {
      var link := b.agents.Get(r).value;
      assert link.sent + x + y == link.sent + (x + y) && link.sent + [] == link.sent;
    }
  }

  lemma SendsCommute(b: Outbox, x: seq<HubMsg>, y: seq<HubMsg>, ms: seq<DashMsg>)
    ensures SendTo(SendTo(b, Source, x), Target, y) == SendTo(SendTo(b, Target, y), Source, x)
    ensures SendTo(BroadcastAll(b, ms), Source, x) == BroadcastAll(SendTo(b, Source, x), ms)
    ensures SendTo(BroadcastAll(b, ms), Target, y) == BroadcastAll(SendTo(b, Target, y), ms)
  {
  }

  lemma BroadcastTwice(b: Outbox, x: seq<DashMsg>, y: seq<DashMsg>)
    ensures BroadcastAll(BroadcastAll(b, x), y) == BroadcastAll(b, x + y)
    ensures BroadcastAll(b, []) == b
  {
    forall d | d in b.dashboards
      ensures b.dashboards[d].Push(x).Push(y) == b.dashboards[d].Push(x + y) && b.dashboards[d].Push([]) == b.dashboards[d]
    {
      var link := b.dashboards[d];
      assert link.sent + x + y == link.sent + (x + y) && link.sent + [] == link.sent;
    }
  }

  /** What one event sends, in closed form. */
  lemma OneEvent(e: Event)
    ensures AllMessagesFor(Source, [e]) == MessagesFor(Source, e)
    ensures AllMessagesFor(Target, [e]) == MessagesFor(Target, e)
    ensures Broadcasts([e]) == Broadcast(e)
  {
    OneEventSends(Source, e);
    OneEventSends(Target, e);
    assert [e][..0] == [];
  }

  /** What sending means for each socket: every agent its own messages and no others,
      every page the broadcasts. */
  lemma FanoutMeans(b: Outbox, events: seq<Event>, r: Role)
    ensures var after := Fanout(b, events);
            && after.agents.Get(r) == (match b.agents.Get(r)
                                       case None => None
                                       case Some(link) => Some(link.Push(AllMessagesFor(r, events))))
            && after.dashboards.Keys == b.dashboards.Keys
            && forall d :: d in b.dashboards ==> after.dashboards[d] == b.dashboards[d].Push(Broadcasts(events))
  {
    hide AllMessagesFor, Broadcasts;
  }

  lemma NoEvents(b: Outbox)
    ensures Fanout(b, []) == b
  {
    SendTwice(b, Source, [], []);
    SendTwice(b, Target, [], []);
    BroadcastTwice(b, [], []);
  }

  /** Fanning out event by event is fanning out all at once. */
  lemma FanoutMore(b: Outbox, events: seq<Event>, e: Event)
    ensures Fanout(Fanout(b, events), [e]) == Fanout(b, events + [e])
  {
    hide SendTo, BroadcastAll, AllMessagesFor, Broadcasts;
    var s, t, d := AllMessagesFor(Source, events), AllMessagesFor(Target, events), Broadcasts(events);
    var s', t', d' := AllMessagesFor(Source, [e]), AllMessagesFor(Target, [e]), Broadcasts([e]);
    var afterSource := SendTo(b, Source, s);
    var afterBoth := SendTo(afterSource, Target, t);
    SendsCommute(afterBoth, s', t', d);
    SendsCommute(SendTo(afterBoth, Source, s'), s', t', d);
    SendsCommute(afterSource, s', t, d);
    SendTwice(b, Source, s, s');
    SendTwice(SendTo(b, Source, s + s'), Target, t, t');
    BroadcastTwice(SendTo(SendTo(b, Source, s + s'), Target, t + t'), d, d');
    MessagesConcat(Source, events, [e]);
    MessagesConcat(Target, events, [e]);
    BroadcastsConcat(events, [e]);
  }

  // ---------- The listeners, as far as they send ----------

  method OnStateChange(room: Room, from: MigrationState, to: MigrationState)
    requires room.Valid()
    modifies room.Sockets()
    ensures room.Outgoing() == Fanout(old(room.Outgoing()), [StateChange(from, to)])
  {
    hide AllMessagesFor, Broadcasts, SendTo, BroadcastAll;
    ghost var b := room.Outgoing();
    OneEvent(StateChange(from, to));
    room.BroadcastToDashboards(StateMsg(to, from));
    SendTwice(b, Source, [], []);
    SendTwice(b, Target, [], []);
    if to == Preflight {
      var _ := room.SendToAgent(Source, RunPreflight);
      var _ := room.SendToAgent(Target, RunPreflight);
      SendsCommute(b, [RunPreflight], [RunPreflight], [StateMsg(to, from)]);
      SendsCommute(SendTo(b, Source, [RunPreflight]), [], [RunPreflight], [StateMsg(to, from)]);
    }
  }

  method OnExecuteStep(room: Room, executor: Role, step: int)
    requires room.Valid()
    modifies room.Sockets()
    ensures room.Outgoing() == Fanout(old(room.Outgoing()), [ExecuteStep(executor, step)])
  {
    hide AllMessagesFor, Broadcasts, SendTo, BroadcastAll;
    ghost var b := room.Outgoing();
    OneEvent(ExecuteStep(executor, step));
    SendTwice(b, Source, [], []);
    SendTwice(SendTo(b, Source, [Execute(step)]), Target, [], []);
    if step in BILATERAL_STEPS {
      var _ := room.SendToAgent(Source, Execute(step));
      var _ := room.SendToAgent(Target, Execute(step));
    } else {
      var _ := room.SendToAgent(executor, Execute(step));
    }
    room.BroadcastToDashboards(ProgressMsg(step, HubGlue.Running));
  }

  method OnRollback(room: Room, s: RollbackStep)
    requires room.Valid()
    modifies room.Sockets()
    ensures room.Outgoing() == Fanout(old(room.Outgoing()), [RollbackIssued(s)])
  {
    hide AllMessagesFor, Broadcasts, SendTo, BroadcastAll;
    ghost var b := room.Outgoing();
    OneEvent(RollbackIssued(s));
    var _ := room.SendToAgent(Source, RollbackFlag);
    var _ := room.SendToAgent(Target, RollbackFlag);
    var _ := room.SendToAgent(s.executor, ExecuteRollback(s.name));
    ghost var flagged := SendTo(b, Source, [RollbackFlag]);
    SendsCommute(flagged, [ExecuteRollback(s.name)], [RollbackFlag], []);
    SendTwice(b, Source, [RollbackFlag], [ExecuteRollback(s.name)]);
    SendTwice(flagged, Target, [RollbackFlag], [ExecuteRollback(s.name)]);
    assert [RollbackFlag] + [ExecuteRollback(s.name)] == [RollbackFlag, ExecuteRollback(s.name)];
    BroadcastTwice(room.Outgoing(), [], []);
  }

  /** The listeners that only tell the dashboards. */
  method OnNews(room: Room, e: Event, msg: DashMsg)
    requires room.Valid() && Broadcast(e) == [msg] && MessagesFor(Source, e) == MessagesFor(Target, e) == []
    modifies room.Sockets()
    ensures room.Outgoing() == Fanout(old(room.Outgoing()), [e])
  {
    hide AllMessagesFor, Broadcasts, MessagesFor, Broadcast, SendTo, BroadcastAll;
    OneEvent(e);
    SendTwice(room.Outgoing(), Source, [], []);
    SendTwice(room.Outgoing(), Target, [], []);
    room.BroadcastToDashboards(msg);
  }

  method Deliver(room: Room, e: Event)
    requires room.Valid()
    modifies room.Sockets()
    ensures room.Outgoing() == Fanout(old(room.Outgoing()), [e])
  {
    hide AllMessagesFor, Broadcasts, Fanout;
    match e
    case StateChange(from, to) => OnStateChange(room, from, to);
    case ExecuteStep(executor, step) => OnExecuteStep(room, executor, step);
    case StepCompleted(step) => OnNews(room, e, ProgressMsg(step, StepOk));
    case StepFailedEvent(step, _) => OnNews(room, e, ProgressMsg(step, StepBroken));
    case RollbackIssued(s) => OnRollback(room, s);
    case SessionComplete(summary) => OnNews(room, e, CompleteMsg(summary));
    case SessionFailed(_) =>
      SilentEvent(room.Outgoing(), e);
    case CriticalAlert(step) => OnNews(room, e, AlertMsg(step));
  }

  lemma SilentEvent(b: Outbox, e: Event)
    requires e.SessionFailed?
    ensures Fanout(b, [e]) == b
  {
    OneEvent(e);
    NoEvents(b);
  }

  predicate AnyClosing(events: seq<Event>) {
    exists i :: 0 <= i < |events| && Closing(events[i])
  }

  /** The database after the events: the session's row, if it is still there. */
  function RowsAfter(rows: map<string, Row>, id: string, events: seq<Event>): map<string, Row> {
    if id in rows then rows[id := WriteRows(rows[id], events)] else rows
  }

  lemma OneRow(row: Row, e: Event)
    ensures WriteRows(row, [e]) == WriteRow(row, e)
  {
    assert [e][..0] == [];
  }

  lemma RowsMore(rows: map<string, Row>, id: string, events: seq<Event>, e: Event)
    ensures RowsAfter(RowsAfter(rows, id, events), id, [e]) == RowsAfter(rows, id, events + [e])
  {
    hide WriteRow;
    assert (events + [e])[..|events|] == events;
    if id in rows {
      OneRow(WriteRows(rows[id], events), e);
    }
  }

  /** The events of a call, if there is an orchestrator to call and a call to make. */
  function EventsOf(m: Option<Machine>, c: Option<Call>): seq<Event> {
    if m.Some? && c.Some? then Apply(m.value.core, c.value).events else []
  }

  /** The session's orchestrator after the call; the event that closes the session
      removes it. */
  function MachineAfter(m: Option<Machine>, c: Option<Call>): Option<Machine> {
    if m.None? || c.None? then m
    else if AnyClosing(Apply(m.value.core, c.value).events) then None
    else Some(Step(m.value, c.value))
  }

  /** Both agents are told that the session is cancelled. */
  ghost function ToldCancelled(b: Outbox): Outbox {
    SendTo(SendTo(b, Source, [SessionCancelled]), Target, [SessionCancelled])
  }

  /** Each of them, once, and no page. */
  lemma ToldCancelledMeans(b: Outbox, r: Role)
    ensures var after := ToldCancelled(b);
            && after.agents.Get(r) == (match b.agents.Get(r)
                                       case None => None
                                       case Some(link) => Some(link.Push([SessionCancelled])))
            && after.dashboards == b.dashboards
  {
  }

  ghost function SocketsOf(room: Option<Room>): set<object>
    reads if room.Some? then {room.value} else {}
  {
    if room.Some? then room.value.Sockets() else {}
  }

  /** The room is in order and the manager's own objects are none of its sockets. */
  ghost predicate Apart(room: Option<Room>, mine: set<object>)
    reads if room.Some? then {room.value} else {}
  {
    room.Some? ==> room.value.Valid() && room.value !in mine && SocketsOf(room) !! mine
  }

  /** Make one orchestrator call. */
  method Invoke(o: MigrationOrchestrator, c: Call) returns (thrown: Option<CallError>)
    requires o.Valid()
    modifies o
    ensures o.Valid() && o.View() == Step(old(o.View()), c)
    ensures thrown.Some? <==> Apply(old(o.View().core), c).error.Some?
  {
    hide MachineInv;
    match c
    case Start => thrown := o.Start();
    case Abort(reason) => thrown := o.Abort(reason);
    case AgentConnected(r) => thrown := o.OnAgentConnected(r);
    case AgentDisconnected(r) => thrown := o.OnAgentDisconnected(r);
    case SasConfirmed(r) => thrown := o.OnSasConfirmed(r);
    case PreflightResult(r, checks) => thrown := o.OnPreflightResult(r, checks);
    case StartMigration(now) => thrown := o.StartMigration(now);
    case StepComplete(step, r, now) => thrown := o.OnStepComplete(step, r, now);
    case StepFailed(step, r, error) => thrown := o.OnStepFailed(step, r, error);
  }

  /** Only session `id` gained, lost or changed its orchestrator. */
  ghost predicate Others(before: map<string, MigrationOrchestrator>, after: map<string, MigrationOrchestrator>, id: string) {
    forall j :: j != id ==> (j in after <==> j in before) && (j in after ==> after[j] == before[j])
  }

  lemma OthersCompose(a: map<string, MigrationOrchestrator>, b: map<string, MigrationOrchestrator>,
                      c: map<string, MigrationOrchestrator>, id: string)
    requires Others(a, b, id) && Others(b, c, id)
    ensures Others(a, c, id)
  {
  }

  lemma RowsKeep(rows: map<string, Row>, id: string, events: seq<Event>)
    ensures RowsAfter(rows, id, events).Keys == rows.Keys
  {
  }

  lemma NothingFollows(rows: map<string, Row>, id: string, room: Option<Room>)
    ensures RowsAfter(rows, id, []) == rows
    ensures room.Some? ==> Fanout(room.value.Outgoing(), []) == room.value.Outgoing()
  {
    if room.Some? {
      NoEvents(room.value.Outgoing());
    }
  }

  lemma OneSessionOnly(a: map<string, MigrationOrchestrator>, id: string, o: MigrationOrchestrator)
    ensures Others(a, a, id) && Others(a, a - {id}, id) && Others(a, a[id := o], id)
  {
  }

  lemma NoSession(a: map<string, MigrationOrchestrator>, id: string)
    ensures Others(a, a, id)
  {
  }

  lemma OnlyStartThrows(o: Core, now: int, reason: string)
    ensures Apply(o, StartMigration(now)).error.Some? <==> o.state != AwaitingWindow
    ensures Apply(o, Abort(reason)).error == None
  {
  }

  /** The broadcasts for a pair of codes. */
  method ShowSas(room: Room, codes: PerRole<string>)
    requires room.Valid()
    modifies room.dashboards
    ensures room.Outgoing() == BroadcastAll(old(room.Outgoing()), SasNews(codes))
  {
    hide BroadcastAll;
    var matches := codes.source == codes.target;
    BroadcastTwice(room.Outgoing(), [SasMsg(codes, matches)], [SasAlert]);
    room.BroadcastToDashboards(SasMsg(codes, matches));
    if !matches {
      room.BroadcastToDashboards(SasAlert);
    }
    assert [SasMsg(codes, matches)] + [] == [SasMsg(codes, matches)];
  }

  lemma StartsIdle(now: int)
    ensures Step(NewMachine(now), Start) == Machine(Fresh(now).(started := true), [])
  {
  }

  const CODE_TRIES := 16

  /** The first of sixteen draws that no room uses; failing that, one more draw. */
  ghost predicate IsDrawn(draws: seq<string>, inRooms: set<string>, code: string)
    requires |draws| > CODE_TRIES
  {
    if forall i :: 0 <= i < CODE_TRIES ==> draws[i] in inRooms then code == draws[CODE_TRIES]
    else exists i :: 0 <= i < CODE_TRIES && code == draws[i] && code !in inRooms
                     && forall j :: 0 <= j < i ==> draws[j] in inRooms
  }

  /** A new orchestrator, started; starting emits nothing. */
  method Started(now: int) returns (o: MigrationOrchestrator)
    ensures fresh(o) && o.Valid() && o.View() == Step(NewMachine(now), Start)
  {
    hide MachineInv, Step;
    o := new MigrationOrchestrator(now);
    var _ := o.Start();
  }

  /** The orchestrators, rows and announced codes by session. `room` is what the room registry holds
      for the session at hand, if anything. */
  class SessionManager {
    var rows: map<string, Row>
    var orchestrators: map<string, MigrationOrchestrator>
    var announced: map<string, SasEntry>
    var codes: map<string, string>
    var dashboardTokens: map<string, string>

    /** Every orchestrator keeps its invariant and serves one session. */
    ghost predicate Valid()
      reads this, orchestrators.Values
    {
      && (forall id :: id in orchestrators ==> orchestrators[id].Valid())
      && (forall i, j :: i in orchestrators && j in orchestrators && i != j ==> orchestrators[i] != orchestrators[j])
    }

    ghost function Mine(): set<object>
      reads this
    {
      {this} + (set id | id in orchestrators :: orchestrators[id] as object)
    }

    /** The session's orchestrator now. */
    function Live(id: string): Option<Machine>
      reads this, if id in orchestrators then {orchestrators[id]} else {}
    {
      if id in orchestrators then Some(orchestrators[id].View()) else None
    }

    /** The orchestrator a call on the session will find: the live one or, if there is
        a row, a fresh one in IDLE, whatever the row says. */
    function Found(id: string, now: int): Option<Machine>
      reads this, if id in orchestrators then {orchestrators[id]} else {}
    {
      if id in orchestrators then Live(id)
      else if id in rows then Some(Step(NewMachine(now), Start))
      else None
    }

    constructor ()
      ensures Valid() && rows == map[] && orchestrators == map[] && announced == map[]
      ensures codes == map[] && dashboardTokens == map[]
    {
      rows, orchestrators, announced := map[], map[], map[];
      codes, dashboardTokens := map[], map[];
    }

    /** All the listeners of one event: the row, the messages, the end of the session. */
    method PublishOne(id: string, room: Option<Room>, e: Event)
      requires Apart(room, {this})
      modifies this`rows, this`orchestrators, SocketsOf(room)
      ensures rows == RowsAfter(old(rows), id, [e])
      ensures orchestrators == if Closing(e) then old(orchestrators) - {id} else old(orchestrators)
      ensures Apart(room, {this})
      ensures room.Some? ==> room.value.Outgoing() == Fanout(old(room.value.Outgoing()), [e])
    {
      hide WriteRow, Fanout;
      if id in rows {
        OneRow(rows[id], e);
        rows := rows[id := WriteRow(rows[id], e)];
      }
      if room.Some? {
        Deliver(room.value, e);
      }
      if Closing(e) {
        orchestrators := orchestrators - {id};
      }
    }

    /** Run the listeners of the events one call emitted. */
    method Publish(id: string, room: Option<Room>, events: seq<Event>)
      requires Apart(room, {this})
      modifies this`rows, this`orchestrators, SocketsOf(room)
      ensures rows == RowsAfter(old(rows), id, events)
      ensures orchestrators == if AnyClosing(events) then old(orchestrators) - {id} else old(orchestrators)
      ensures Apart(room, {this})
      ensures room.Some? ==> room.value.Outgoing() == Fanout(old(room.value.Outgoing()), events)
    {
      hide RowsAfter, Fanout, Closing;
      NothingFollows(rows, id, room);
      for i := 0 to |events|
        invariant Apart(room, {this}) && SocketsOf(room) == old(SocketsOf(room))
        invariant rows == RowsAfter(old(rows), id, events[..i])
        invariant orchestrators == if AnyClosing(events[..i]) then old(orchestrators) - {id} else old(orchestrators)
        invariant room.Some? ==> room.value.Outgoing() == Fanout(old(room.value.Outgoing()), events[..i])
      {
        var e := events[i];
        assert events[..i + 1] == events[..i] + [e];
        PublishOne(id, room, e);
        RowsMore(old(rows), id, events[..i], e);
        if room.Some? {
          FanoutMore(old(room.value.Outgoing()), events[..i], e);
        }
      }
      assert events[..|events|] == events;
    }

    /** A call on a session's orchestrator, and the events it emitted. */
    method Ask(id: string, room: Option<Room>, c: Call) returns (thrown: Option<CallError>, events: seq<Event>)
      requires Valid() && id in orchestrators && Apart(room, Mine())
      modifies orchestrators[id]
      ensures Valid() && Apart(room, Mine())
      ensures Live(id) == Some(Step(old(Live(id)).value, c)) && events == Apply(old(Live(id)).value.core, c).events
      ensures room.Some? ==> room.value.Outgoing() == old(room.value.Outgoing())
      ensures thrown.Some? <==> Apply(old(Live(id)).value.core, c).error.Some?
    {
      hide MachineInv, Apply;
      var o := orchestrators[id];
      assert o in Mine();
      assert room.Some? ==> o !in room.value.Sockets() && o as object != room.value;
      var before := |o.emitted|;
      thrown := Invoke(o, c);
      events := o.emitted[before..];
    }

    /** The listeners keep the manager in order and touch one session. */
    method Follow(id: string, room: Option<Room>, events: seq<Event>)
      requires Valid() && id in orchestrators && Apart(room, Mine())
      modifies this`rows, this`orchestrators, SocketsOf(room)
      ensures Valid() && Apart(room, Mine()) && Others(old(orchestrators), orchestrators, id)
      ensures rows == RowsAfter(old(rows), id, events)
      ensures room.Some? ==> room.value.Outgoing() == Fanout(old(room.value.Outgoing()), events)
      ensures Live(id) == if AnyClosing(events) then None else old(Live(id))
    {
      hide MachineInv, Fanout, RowsAfter, AnyClosing, Others;
      OneSessionOnly(orchestrators, id, orchestrators[id]);
      Publish(id, room, events);
    }

    /** The call, and everything that follows from it. */
    method Conduct(id: string, room: Option<Room>, c: Call) returns (thrown: Option<CallError>)
      requires Valid() && id in orchestrators && Apart(room, Mine())
      modifies this`rows, this`orchestrators, orchestrators[id], SocketsOf(room)
      ensures Valid() && Apart(room, Mine()) && Others(old(orchestrators), orchestrators, id)
      ensures var events := EventsOf(old(Live(id)), Some(c));
              && rows == RowsAfter(old(rows), id, events)
              && (room.Some? ==> room.value.Outgoing() == Fanout(old(room.value.Outgoing()), events))
      ensures Live(id) == MachineAfter(old(Live(id)), Some(c))
      ensures thrown.Some? <==> Apply(old(Live(id)).value.core, c).error.Some?
    {
      hide MachineInv, Apply, Fanout, RowsAfter, AnyClosing, Others, Step;
      var events;
      thrown, events := Ask(id, room, c);
      Follow(id, room, events);
    }

    /** A started orchestrator of its own for a session that has none. */
    method Add(id: string, room: Option<Room>, now: int)
      requires Valid() && Apart(room, Mine()) && id !in orchestrators
      modifies this`orchestrators
      ensures Valid() && Apart(room, Mine())
      ensures id in orchestrators && orchestrators == old(orchestrators)[id := orchestrators[id]]
      ensures fresh(orchestrators[id]) && orchestrators[id].View() == Step(NewMachine(now), Start)
    {
      hide MachineInv, Step;
      var o := Started(now);
      orchestrators := orchestrators[id := o];
    }

    method GetOrRevive(id: string, room: Option<Room>, now: int) returns (found: bool)
      requires Valid() && Apart(room, Mine())
      modifies this`orchestrators
      ensures Valid() && Apart(room, Mine()) && Others(old(orchestrators), orchestrators, id)
      ensures Live(id) == old(Found(id, now)) && (found <==> id in orchestrators)
      ensures id in old(orchestrators) || !found ==> orchestrators == old(orchestrators)
      ensures found <==> old(id in orchestrators || id in rows)
      ensures found && id !in old(orchestrators) ==>
                fresh(orchestrators[id]) && orchestrators[id].View() == Machine(Fresh(now).(started := true), [])
      ensures room.Some? ==> room.value.Outgoing() == old(room.value.Outgoing())
    {
      hide MachineInv, Step, Others;
      NoSession(orchestrators, id);
      if id in orchestrators {
        return true;
      }
      if id !in rows {
        return false;
      }
      Add(id, room, now);
      OneSessionOnly(old(orchestrators), id, orchestrators[id]);
      StartsIdle(now);
      return true;
    }

    /** Find or revive the orchestrator, make the call and run the listeners. A session
        with neither orchestrator nor row is left alone; no other session's row or
        orchestrator is ever touched. */
    method Perform(id: string, room: Option<Room>, c: Call, now: int) returns (thrown: Option<CallError>)
      requires Valid() && Apart(room, Mine())
      modifies this`rows, this`orchestrators, if id in orchestrators then {orchestrators[id]} else {}, SocketsOf(room)
      ensures Valid() && Apart(room, Mine()) && Others(old(orchestrators), orchestrators, id)
      ensures var events := EventsOf(old(Found(id, now)), Some(c));
              && rows == RowsAfter(old(rows), id, events)
              && (room.Some? ==> room.value.Outgoing() == Fanout(old(room.value.Outgoing()), events))
      ensures Live(id) == MachineAfter(old(Found(id, now)), Some(c))
      ensures thrown.Some? <==> old(Found(id, now)).Some? && Apply(old(Found(id, now)).value.core, c).error.Some?
    {
      hide MachineInv, Apply, Fanout, Step, RowsAfter, AnyClosing, Others;
      var found := GetOrRevive(id, room, now);
      assert SocketsOf(room) == old(SocketsOf(room));
      if !found {
        NothingFollows(rows, id, room);
        return None;
      }
      ghost var revived := orchestrators;
      thrown := Conduct(id, room, c);
      OthersCompose(old(orchestrators), revived, orchestrators, id);
    }

    /** A message that only looks the session up. */
    method Touch(id: string, room: Option<Room>, now: int) returns (found: bool)
      requires Valid() && Apart(room, Mine())
      modifies this`orchestrators
      ensures Valid() && Apart(room, Mine()) && Others(old(orchestrators), orchestrators, id)
      ensures Live(id) == old(Found(id, now)) && (found <==> Live(id).Some?)
      ensures rows == RowsAfter(rows, id, [])
      ensures room.Some? ==> room.value.Outgoing() == old(room.value.Outgoing()) == Fanout(room.value.Outgoing(), [])
    {
      hide MachineInv, Apply, Fanout, Step, RowsAfter, AnyClosing, Others;
      NothingFollows(rows, id, room);
      found := GetOrRevive(id, room, now);
    }

    function SasOf(id: string): SasEntry
      reads this
    {
      if id in announced then announced[id] else NO_SAS
    }

    /** The broadcasts of an announcement leave the manager's own objects alone. */
    method TellSas(id: string, room: Room, codes: PerRole<string>)
      requires Valid() && Apart(Some(room), Mine())
      modifies room.dashboards
      ensures Valid() && Apart(Some(room), Mine()) && Live(id) == old(Live(id))
      ensures room.Outgoing() == BroadcastAll(old(room.Outgoing()), if BothIn(codes) then SasNews(codes) else [])
    {
      hide MachineInv, BroadcastAll, SasNews;
      BroadcastTwice(room.Outgoing(), [], []);
      if BothIn(codes) {
        ShowSas(room, codes);
      }
    }

    /** Without a room the code is not even kept. */
    method HandleSasAnnouncement(id: string, room: Option<Room>, role: Role, sas: string)
      requires Valid() && Apart(room, Mine())
      modifies this`announced, if room.Some? then room.value.dashboards else {}
      ensures Valid() && Apart(room, Mine()) && Live(id) == old(Live(id))
      ensures room.None? ==> announced == old(announced)
      ensures room.Some? ==>
                var (e, news) := Announce(old(SasOf(id)), role, sas);
                && announced == old(announced)[id := e]
                && room.value.Outgoing() == BroadcastAll(old(room.value.Outgoing()), news)
    {
      hide MachineInv, BroadcastAll, SasNews, BothIn;
      if room.None? {
        return;
      }
      var e := SasOf(id);
      BroadcastTwice(room.value.Outgoing(), [], []);
      if !e.told {
        e := e.(codes := e.codes.Set(role, sas));
        e := e.(told := BothIn(e.codes));
        TellSas(id, room.value, e.codes);
      }
      announced := announced[id := e];
    }

    /** The messages that stand for an orchestrator call, and those that stand for nothing. */
    method ForwardReport(id: string, room: Option<Room>, role: Role, msg: AgentReport, now: int)
      requires Valid() && Apart(room, Mine()) && !msg.Announced?
      modifies this`rows, this`orchestrators, if id in orchestrators then {orchestrators[id]} else {}, SocketsOf(room)
      ensures Valid() && Apart(room, Mine()) && Others(old(orchestrators), orchestrators, id)
      ensures var events := EventsOf(old(Found(id, now)), AgentCall(role, msg, now));
              && rows == RowsAfter(old(rows), id, events)
              && (room.Some? ==> room.value.Outgoing() == Fanout(old(room.value.Outgoing()), events))
      ensures Live(id) == MachineAfter(old(Found(id, now)), AgentCall(role, msg, now))
    {
      hide MachineInv, Apply, Fanout, Step, RowsAfter, AnyClosing, Others;
      match msg
      case Hello => var _ := Perform(id, room, AgentConnected(role), now);
      case SasOk => var _ := Perform(id, room, SasConfirmed(role), now);
      case Preflighted(checks) => var _ := Perform(id, room, PreflightResult(role, checks), now);
      case StepDone(step) => var _ := Perform(id, room, StepComplete(step, role, now), now);
      case StepBroke(step, error) => var _ := Perform(id, room, StepFailed(step, role, error), now);
      case Unrelated => var _ := Touch(id, room, now);
    }

    /** A code announced to a session: nothing for the orchestrator. */
    method HearAnnouncement(id: string, room: Option<Room>, role: Role, sas: string, now: int)
      requires Valid() && Apart(room, Mine())
      modifies this`orchestrators, this`announced, SocketsOf(room)
      ensures Valid() && Apart(room, Mine()) && Others(old(orchestrators), orchestrators, id)
      ensures room.Some? ==>
                room.value.Outgoing() ==
                BroadcastAll(old(room.value.Outgoing()),
                             if old(id in orchestrators || id in rows) then Announce(old(SasOf(id)), role, sas).1 else [])
      ensures Live(id) == old(Found(id, now))
      ensures announced == if room.Some? && old(Found(id, now)).Some?
                           then old(announced)[id := Announce(old(SasOf(id)), role, sas).0] else old(announced)
    {
      hide MachineInv, Step, Others, Announce, BroadcastAll;
      var found := Touch(id, room, now);
      if room.Some? {
        BroadcastTwice(room.value.Outgoing(), [], []);
      }
      if found {
        HandleSasAnnouncement(id, room, role, sas);
      }
    }

    /** Every message but an announcement is its orchestrator call; an announcement is
        news for the dashboards only. */
    method HandleAgentMessage(id: string, room: Option<Room>, role: Role, msg: AgentReport, now: int)
      requires Valid() && Apart(room, Mine())
      modifies this`rows, this`orchestrators, this`announced,
        if id in orchestrators then {orchestrators[id]} else {}, SocketsOf(room)
      ensures Valid() && Apart(room, Mine()) && Others(old(orchestrators), orchestrators, id)
      ensures var events := EventsOf(old(Found(id, now)), AgentCall(role, msg, now));
              && rows == RowsAfter(old(rows), id, events)
              && (room.Some? ==>
                    room.value.Outgoing() ==
                    BroadcastAll(Fanout(old(room.value.Outgoing()), events),
                                 if msg.Announced? && old(id in orchestrators || id in rows)
                                 then Announce(old(SasOf(id)), role, msg.sas).1 else []))
      ensures announced == if msg.Announced? && room.Some? && old(Found(id, now)).Some?
                           then old(announced)[id := Announce(old(SasOf(id)), role, msg.sas).0] else old(announced)
      ensures Live(id) == MachineAfter(old(Found(id, now)), AgentCall(role, msg, now))
    {
      hide MachineInv, Apply, Fanout, Step, RowsAfter, AnyClosing, Others, Announce, BroadcastAll;
      if msg.Announced? {
        NothingFollows(rows, id, room);
        HearAnnouncement(id, room, role, msg.sas, now);
      } else {
        ForwardReport(id, room, role, msg, now);
        if room.Some? {
          BroadcastTwice(room.value.Outgoing(), [], []);
        }
      }
    }

    /** Only a start outside AWAITING_WINDOW throws. */
    method HandleDashboardMessage(id: string, room: Option<Room>, msg: DashboardRequest, now: int)
      returns (thrown: Option<CallError>)
      requires Valid() && Apart(room, Mine())
      modifies this`rows, this`orchestrators, if id in orchestrators then {orchestrators[id]} else {}, SocketsOf(room)
      ensures Valid() && Apart(room, Mine()) && Others(old(orchestrators), orchestrators, id)
      ensures var events := EventsOf(old(Found(id, now)), DashboardCall(msg, now));
              && rows == RowsAfter(old(rows), id, events)
              && (room.Some? ==> room.value.Outgoing() == Fanout(old(room.value.Outgoing()), events))
      ensures Live(id) == MachineAfter(old(Found(id, now)), DashboardCall(msg, now))
      ensures thrown.Some? <==>
                msg == StartRequest && old(Found(id, now)).Some? && old(Found(id, now)).value.core.state != AwaitingWindow
    {
      hide MachineInv, Apply, Fanout, Step, RowsAfter, AnyClosing, Others;
      if Found(id, now).Some? {
        OnlyStartThrows(Found(id, now).value.core, now, "dashboard_abort");
      }
      match msg
      case StartRequest => thrown := Perform(id, room, StartMigration(now), now);
      case AbortRequest => thrown := Perform(id, room, Abort("dashboard_abort"), now);
      case ConfirmSasRequest =>
        var _ := Touch(id, room, now);
        thrown := None;
    }

    method HandleAgentDisconnect(id: string, room: Option<Room>, role: Role, now: int)
      requires Valid() && Apart(room, Mine())
      modifies this`rows, this`orchestrators, if id in orchestrators then {orchestrators[id]} else {}, SocketsOf(room)
      ensures Valid() && Apart(room, Mine()) && Others(old(orchestrators), orchestrators, id)
      ensures var events := EventsOf(old(Found(id, now)), Some(AgentDisconnected(role)));
              && rows == RowsAfter(old(rows), id, events)
              && (room.Some? ==> room.value.Outgoing() == Fanout(old(room.value.Outgoing()), events))
      ensures Live(id) == MachineAfter(old(Found(id, now)), Some(AgentDisconnected(role)))
    {
      hide MachineInv, Apply, Fanout, Step, RowsAfter, AnyClosing, Others;
      var _ := Perform(id, room, AgentDisconnected(role), now);
    }

    /** What the dashboard snapshot asks for. */
    method GetCurrentStep(id: string, room: Option<Room>, now: int) returns (step: int)
      requires Valid() && Apart(room, Mine())
      modifies this`orchestrators
      ensures Valid() && Apart(room, Mine())
      ensures Live(id) == old(Found(id, now))
      ensures step == if Live(id).Some? then Live(id).value.core.currentStep else 0
    {
      hide MachineInv, Step;
      var found := GetOrRevive(id, room, now);
      step := if found then orchestrators[id].currentStep else 0;
      assert found ==> step == orchestrators[id].View().core.currentStep;
    }

    /** The loop of draws. */
    method AllocateUniqueCode(draws: seq<string>, inRooms: set<string>) returns (code: string)
      requires |draws| > CODE_TRIES
      ensures IsDrawn(draws, inRooms, code)
    {
      for i := 0 to CODE_TRIES
        invariant forall j :: 0 <= j < i ==> draws[j] in inRooms
      {
        if draws[i] !in inRooms {
          return draws[i];
        }
      }
      return draws[CODE_TRIES];
    }

    /** The row, in IDLE, and a started orchestrator of the session's own. */
    method Open(id: string, room: Option<Room>, now: int)
      requires Valid() && Apart(room, Mine()) && id !in rows && id !in orchestrators
      modifies this`rows, this`orchestrators
      ensures Valid() && Apart(room, Mine()) && Others(old(orchestrators), orchestrators, id)
      ensures rows == old(rows)[id := Row(Idle, false)]
      ensures Live(id) == Some(Step(NewMachine(now), Start))
    {
      hide MachineInv, Step, Others;
      rows := rows[id := Row(Idle, false)];
      Add(id, room, now);
      OneSessionOnly(old(orchestrators), id, orchestrators[id]);
    }

    /** A new session: its row under a code no other row has, a started orchestrator of
        its own and a dashboard token. A code that another row has is refused by the
        database, and then nothing has happened. */
    method Create(id: string, draws: seq<string>, inRooms: set<string>, token: string, room: Option<Room>, now: int)
      returns (code: Option<string>)
      requires Valid() && Apart(room, Mine()) && id !in rows && id !in orchestrators && |draws| > CODE_TRIES
      modifies this`rows, this`orchestrators, this`codes, this`dashboardTokens
      ensures Valid() && Apart(room, Mine()) && Others(old(orchestrators), orchestrators, id)
      ensures code.None? ==>
                && rows == old(rows) && orchestrators == old(orchestrators) && codes == old(codes)
                && dashboardTokens == old(dashboardTokens)
                && exists c :: IsDrawn(draws, inRooms, c) && c in codes.Values
      ensures code.Some? ==>
                && IsDrawn(draws, inRooms, code.value) && code.value !in old(codes.Values)
                && rows == old(rows)[id := Row(Idle, false)] && codes == old(codes)[id := code.value]
                && dashboardTokens == old(dashboardTokens)[id := token]
                && Live(id) == Some(Step(NewMachine(now), Start))
    {
      hide MachineInv, Step, Others, IsDrawn;
      NoSession(orchestrators, id);
      var drawn := AllocateUniqueCode(draws, inRooms);
      if drawn in codes.Values {
        return None;
      }
      codes := codes[id := drawn];
      Open(id, room, now);
      dashboardTokens := dashboardTokens[id := token];
      return Some(drawn);
    }

    /** The token is the session's: every character is compared, whatever the first
        that differs. */
    method VerifyDashboardToken(id: string, token: string) returns (ok: bool)
      ensures ok <==> id in dashboardTokens && dashboardTokens[id] != "" && token == dashboardTokens[id]
    {
      if id !in dashboardTokens || dashboardTokens[id] == "" {
        return false;
      }
      var expected := dashboardTokens[id];
      if |expected| != |token| {
        return false;
      }
      var differs := false;
      for i := 0 to |expected|
        invariant differs <==> exists j :: 0 <= j < i && expected[j] != token[j]
      {
        differs := differs || expected[i] != token[i];
      }
      return !differs;
    }

    method TellCancelled(id: string, room: Option<Room>)
      requires Valid() && Apart(room, Mine())
      modifies SocketsOf(room)
      ensures Valid() && Apart(room, Mine()) && Live(id) == old(Live(id))
      ensures room.Some? ==> room.value.Outgoing() == ToldCancelled(old(room.value.Outgoing()))
    {
      hide MachineInv;
      if room.Some? {
        var _ := room.value.SendToAgent(Source, SessionCancelled);
        var _ := room.value.SendToAgent(Target, SessionCancelled);
      }
    }

    method MarkFailed(id: string, room: Option<Room>)
      requires Valid() && Apart(room, Mine()) && id in rows
      modifies this`rows
      ensures Valid() && Apart(room, Mine()) && Live(id) == old(Live(id))
      ensures rows == old(rows)[id := old(rows[id]).(state := Failed)]
      ensures room.Some? ==> room.value.Outgoing() == old(room.value.Outgoing())
    {
      hide MachineInv;
      rows := rows[id := rows[id].(state := Failed)];
    }

    /** A session without an orchestrator has nothing to abort. */
    method AbortIfLive(id: string, room: Option<Room>)
      requires Valid() && Apart(room, Mine())
      modifies this`rows, this`orchestrators, if id in orchestrators then {orchestrators[id]} else {}, SocketsOf(room)
      ensures Valid() && Apart(room, Mine())
      ensures var events := EventsOf(old(Live(id)), Some(Abort("cancelled")));
              && rows == RowsAfter(old(rows), id, events)
              && (room.Some? ==> room.value.Outgoing() == Fanout(old(room.value.Outgoing()), events))
      ensures Live(id) == MachineAfter(old(Live(id)), Some(Abort("cancelled")))
    {
      hide MachineInv, Apply, Fanout, Step, RowsAfter, AnyClosing;
      if id in orchestrators {
        var _ := Conduct(id, room, Abort("cancelled"));
      } else {
        NothingFollows(rows, id, room);
      }
    }

    /** Refused once the session has left IDLE and PAIRING; otherwise an abort, the row
        is FAILED whether or not there was an orchestrator to abort, and both agents are
        told after whatever the abort sent. */
    method Cancel(id: string, room: Option<Room>) returns (cancelled: bool)
      requires Valid() && Apart(room, Mine())
      modifies this`rows, this`orchestrators, if id in orchestrators then {orchestrators[id]} else {}, SocketsOf(room)
      ensures Valid() && Apart(room, Mine())
      ensures cancelled <==> id in old(rows) && old(rows[id]).state in {Idle, Pairing}
      ensures !cancelled ==> rows == old(rows) && orchestrators == old(orchestrators)
      ensures cancelled ==>
                var events := EventsOf(old(Live(id)), Some(Abort("cancelled")));
                && id in RowsAfter(old(rows), id, events)
                && rows == RowsAfter(old(rows), id, events)[id := RowsAfter(old(rows), id, events)[id].(state := Failed)]
                && (room.Some? ==> room.value.Outgoing() == ToldCancelled(Fanout(old(room.value.Outgoing()), events)))
                && Live(id) == MachineAfter(old(Live(id)), Some(Abort("cancelled")))
    {
      hide MachineInv, Apply, Fanout, Step, RowsAfter, AnyClosing, ToldCancelled;
      if id !in rows || rows[id].state !in {Idle, Pairing} {
        return false;
      }
      RowsKeep(rows, id, EventsOf(Live(id), Some(Abort("cancelled"))));
      AbortIfLive(id, room);
      MarkFailed(id, room);
      TellCancelled(id, room);
      return true;
    }
  }

  // ---------- Row, orchestrator and messages agree ----------

  lemma {:induction false} WriteRowsConcat(row: Row, a: seq<Event>, b: seq<Event>)
    ensures WriteRows(row, a + b) == WriteRows(WriteRows(row, a), b)
  {
    hide WriteRow;
    if b == [] {
      assert a + b == a;
    } else {
      assert (a + b)[..|a + b| - 1] == a + b[..|b| - 1];
      WriteRowsConcat(row, a, b[..|b| - 1]);
    }
  }

  /** A session whose row says what its orchestrator emitted keeps doing so: after
      every call the row's state is the orchestrator's, it is marked completed exactly
      at COMPLETE, and the orchestrator is dropped exactly when the session is over. */
  lemma RowStaysInStep(rows: map<string, Row>, id: string, m: Machine, c: Call)
    requires MachineInv(m) && id in rows && rows[id] == RowOf(m.trace)
    ensures var after := RowsAfter(rows, id, EventsOf(Some(m), Some(c)));
            && after[id] == RowOf(Step(m, c).trace)
            && after[id].state == Step(m, c).core.state
            && (after[id].completed <==> Step(m, c).core.state == Complete)
    ensures !IsTerminal(m.core.state) ==>
              (MachineAfter(Some(m), Some(c)).None? <==> IsTerminal(Step(m, c).core.state))
  {
    hide Apply, WriteRows, MachineInv;
    var events := Apply(m.core, c).events;
    WriteRowsConcat(Row(Idle, false), m.trace, events);
    StepKeepsInv(m, c);
    TraceAgrees(Step(m, c));
    if !IsTerminal(m.core.state) {
      ClosesExactly(m, c);
    }
  }

  /** What forgetting costs. A session that has a row and no orchestrator gets a fresh
      one in IDLE: of all single calls only an abort rewrites the row, and it does so
      whenever the row is not FAILED yet, a COMPLETE row included. */
  lemma ForgottenRowExactly(row: Row, now: int, c: Call)
    ensures var after := WriteRows(row, Apply(Step(NewMachine(now), Start).core, c).events);
            && (after != row <==> c.Abort? && row.state != Failed)
            && after == if c.Abort? then row.(state := Failed) else row
  {
    hide WriteRows;
    var o := Step(NewMachine(now), Start).core;
    assert o == Fresh(now).(started := true);
    WriteNothing(row);
    if c.Abort? {
      var e, f := StateChange(Idle, Failed), SessionFailed(AbortedBecause(c.reason));
      assert Apply(o, c).events == [e, f];
      assert [e, f] == [e] + [f];
      WriteRowsConcat(row, [e], [f]);
      OneRow(row, e);
      OneRow(WriteRow(row, e), f);
    } else {
      assert Apply(o, c).events == [];
    }
  }

  lemma WriteNothing(row: Row)
    ensures WriteRows(row, []) == row
  {
  }

  /** Two calls do more: both agents saying hello again put the row of a finished
      session back to PAIRING. */
  lemma ForgottenRowPairsAgain(row: Row, now: int, first: Role)
    ensures var fresh' := Step(NewMachine(now), Start);
            var met := Run(fresh', [AgentConnected(first), AgentConnected(Peer(first))]);
            && met.core.state == Pairing && met.trace == [StateChange(Idle, Pairing)]
            && WriteRows(row, met.trace) == row.(state := Pairing)
  {
    var m := Step(NewMachine(now), Start);
    var a, b := AgentConnected(first), AgentConnected(Peer(first));
    assert m == Machine(Fresh(now).(started := true), []);
    assert [a, b][..1] == [a] && [a][..0] == [];
    assert Run(m, []) == m && Run(m, [a]) == Step(m, a);
    assert Step(m, a) == Machine(m.core.(agents := m.core.agents.Set(first, true)), []);
    assert Apply(Step(m, a).core, b).events == [StateChange(Idle, Pairing)];
    assert [StateChange(Idle, Pairing)][..0] == [];
  }

  /** The session is over exactly when the last event emitted closes it. */
  lemma ClosedByLast(m: Machine)
    requires MachineInv(m)
    ensures IsTerminal(m.core.state) <==> m.trace != [] && Closing(m.trace[|m.trace| - 1])
    ensures forall i :: 0 <= i < |m.trace| && Closing(m.trace[i]) ==> i == |m.trace| - 1
  {
    hide Progress, Rollbacks;
    AcceptedTraces(m.trace);
  }

  lemma ClosesExactly(m: Machine, c: Call)
    requires MachineInv(m) && !IsTerminal(m.core.state)
    ensures AnyClosing(Apply(m.core, c).events) <==> IsTerminal(Step(m, c).core.state)
  {
    hide Apply, MachineInv, IsTerminal, Closing;
    var events := Apply(m.core, c).events;
    var t := Step(m, c).trace;
    StepKeepsInv(m, c);
    ClosedByLast(m);
    ClosedByLast(Step(m, c));
    assert m.trace + [] == m.trace;
    assert forall i :: 0 <= i < |events| ==> t[|m.trace| + i] == events[i];
    if AnyClosing(events) {
      var i :| 0 <= i < |events| && Closing(events[i]);
      assert Closing(t[|m.trace| + i]);
    }
    if IsTerminal(Step(m, c).core.state) && events != [] {
      assert t[|t| - 1] == events[|events| - 1];
    }
  }
}
