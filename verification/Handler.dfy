/** One agent's connection to the hub: the role it claimed, the introduction of the
    two agents, the relay of their payloads, the redaction of their logs, and what the
    loss of a connection is reported as. */
module Handler {
  import opened Protocol
  import opened OrchestratorSpec
  import opened Envelope
  import opened HubGlue
  import opened Redact
  import opened Dashboard
  import opened Rooms
  import opened Sessions

  /** The audit rows of the session. */
  class AuditLog {
    var entries: seq<AuditEntry>

    constructor ()
      ensures entries == []
    {
      entries := [];
    }

    method Append(e: AuditEntry)
      modifies this
      ensures entries == old(entries) + [e]
    {
      entries := entries + [e];
    }
  }

  /** No agent's line holds a long token or a 64-number array. */
  ghost predicate Clean(audit: seq<AuditEntry>) {
    forall i :: 0 <= i < |audit| && audit[i].agent.Some? ==> !HoldsLongToken(audit[i].message) && !HoldsNumberArray(audit[i].message)
  }

  lemma CleanMore(audit: seq<AuditEntry>, e: AuditEntry)
    ensures Clean(audit) && !HoldsLongToken(e.message) && !HoldsNumberArray(e.message) ==> Clean(audit + [e])
  {
    hide HoldsLongToken, HoldsNumberArray;
  }

  lemma RedactionMeans(message: string)
    ensures Writable(message) ==> !HoldsLongToken(RedactSecrets(message)) && !HoldsNumberArray(RedactSecrets(message))
    ensures !HoldsLongToken(message) && !HoldsNumberArray(message) ==> RedactSecrets(message) == message
  {
    hide RedactSecrets, HoldsLongToken, HoldsNumberArray, Writable;
    if Writable(message) {
      NothingSurvives(message);
    }
    if !HoldsLongToken(message) && !HoldsNumberArray(message) {
      CleanIsKept(message);
    }
  }

  /** What was clean when it was logged is clean when it is replayed, 200 lines or fewer,
      to whoever joins: no line of a snapshot holds what redaction takes out. */
  lemma {:induction false} ReplayIsClean(audit: seq<AuditEntry>)
    requires Clean(audit)
    ensures forall m :: m in LogReplay(audit) ==>
              m.LogMsg? && !HoldsLongToken(m.line.message) && !HoldsNumberArray(m.line.message)
  {
    hide HoldsLongToken, HoldsNumberArray;
    if audit != [] {
      ReplayIsClean(audit[..|audit| - 1]);
    }
  }

  lemma {:induction false} StepsAreNoLines(table: seq<MigrationStep>, state: MigrationState, currentStep: int)
    ensures forall m :: m in StepSnapshot(table, state, currentStep) ==> m.ProgressMsg?
  {
    if table != [] {
      StepsAreNoLines(table[..|table| - 1], state, currentStep);
    }
  }

  lemma SnapshotIsClean(state: MigrationState, currentStep: int, scene: Backdrop)
    requires Clean(scene.audit)
    ensures forall m :: m in Snapshot(state, currentStep, scene) && m.LogMsg? ==>
              !HoldsLongToken(m.line.message) && !HoldsNumberArray(m.line.message)
  {
    hide HoldsLongToken, HoldsNumberArray, StepSnapshot, LogReplay;
    StepsAreNoLines(MIGRATION_STEPS, state, currentStep);
    ReplayIsClean(Recent(scene.audit));
  }

  /** The agent's socket in its room. */
  ghost function Attached(b: Outbox, r: Role, link: Link<HubMsg>): Outbox {
    b.(agents := b.agents.Set(r, Some(link)))
  }

  /** Once both public keys are known, each agent is told the other's. */
  ghost function Introduced(b: Outbox, keys: PerRole<Option<string>>): Outbox {
    if keys.source.Some? && keys.target.Some?
    then SendTo(SendTo(b, Source, [PeerConnected(keys.target.value)]), Target, [PeerConnected(keys.source.value)])
    else b
  }

  /** Each agent is sent the other's key and nothing else; no page is told. */
  lemma IntroducedMeans(b: Outbox, keys: PerRole<Option<string>>, r: Role)
    ensures var after := Introduced(b, keys);
            && after.dashboards == b.dashboards
            && after.agents.Get(r) ==
               if b.agents.Get(r).Some? && keys.source.Some? && keys.target.Some?
               then Some(b.agents.Get(r).value.Push([PeerConnected(keys.Get(if r == Source then Target else Source).value)]))
               else b.agents.Get(r)
  {
  }

  class AgentConnection {
    const id: string
    const room: Room
    const ws: Socket<HubMsg>
    var role: Option<Role>

    constructor (id: string, room: Room, ws: Socket<HubMsg>)
      ensures this.id == id && this.room == room && this.ws == ws && role == None
    {
      this.id, this.room, this.ws, role := id, room, ws, None;
    }

    /** Another open socket holds the role. */
    predicate Taken(claimed: Role)
      reads room, if room.agents.Get(claimed).Some? then {room.agents.Get(claimed).value} else {}
    {
      room.agents.Get(claimed).Some? && room.agents.Get(claimed).value != ws && room.agents.Get(claimed).value.open
    }

    /** The socket neither serves the other role nor observes the room. */
    ghost predicate OwnSocket(claimed: Role)
      reads room
    {
      ws as object !in room.AgentSocket(Peer(claimed)) && forall d :: d in room.dashboards ==> d as object != ws
    }

    /** The role is this connection's from now on. */
    method TakeRole(claimed: Role, publicKey: string)
      requires room.Valid() && OwnSocket(claimed)
      modifies this, room`agents, room`agentPubkeys
      ensures role == Some(claimed) && room.agents == old(room.agents).Set(claimed, Some(ws))
      ensures room.agentPubkeys == old(room.agentPubkeys).Set(claimed, Some(publicKey))
      ensures room.Valid() && room.Sockets() <= old(room.Sockets()) + {ws}
      ensures room.Outgoing() == Attached(old(room.Outgoing()), claimed, ws.Seen())
    {
      role := Some(claimed);
      room.AddAgent(claimed, ws);
      room.SetAgentPubkey(claimed, publicKey);
      assert room.AgentSocket(claimed) == {ws as object};
      assert room.AgentSocket(Peer(claimed)) == old(room.AgentSocket(Peer(claimed)));
      assert room.DashboardLinks() == old(room.DashboardLinks());
    }

    /** A role whose socket is still open cannot be taken over: the newcomer is closed
        and nothing else changes. */
    method Claim(claimed: Role, publicKey: string) returns (accepted: bool)
      requires room.Valid() && OwnSocket(claimed)
      modifies this, room`agents, room`agentPubkeys, ws`open
      ensures accepted <==> !old(Taken(claimed))
      ensures !accepted ==>
                role == old(role) && room.agents == old(room.agents) && room.agentPubkeys == old(room.agentPubkeys) && !ws.open
      ensures accepted ==>
                && role == Some(claimed) && room.agents == old(room.agents).Set(claimed, Some(ws))
                && room.agentPubkeys == old(room.agentPubkeys).Set(claimed, Some(publicKey))
                && room.Valid() && room.Sockets() <= old(room.Sockets()) + {ws}
                && room.Outgoing() == Attached(old(room.Outgoing()), claimed, old(ws.Seen()))
    {
      var existing := room.agents.Get(claimed);
      if existing.Some? && existing.value != ws && existing.value.open {
        ws.open := false;
        return false;
      }
      TakeRole(claimed, publicKey);
      return true;
    }

    /** Both agents learn the peer's key, if both are known. */
    method Introduce()
      requires room.Valid()
      modifies room.Sockets()
      ensures room.Outgoing() == Introduced(old(room.Outgoing()), room.agentPubkeys) && BothIntroduced()
    {
      var keys := room.agentPubkeys;
      if keys.source.Some? && keys.target.Some? {
        var _ := room.SendToAgent(Source, PeerConnected(keys.target.value));
        var _ := room.SendToAgent(Target, PeerConnected(keys.source.value));
      }
    }

    /** Once both keys are known, each agent has last been sent the other's. */
    ghost predicate BothIntroduced()
      reads room, room.AgentSocket(Source), room.AgentSocket(Target)
    {
      room.agentPubkeys.source.Some? && room.agentPubkeys.target.Some? ==>
        Introducing(Source, room.agentPubkeys.target.value) && Introducing(Target, room.agentPubkeys.source.value)
    }

    /** The last thing the agent's socket was sent, if it takes anything, is this key. */
    ghost predicate Introducing(r: Role, key: string)
      reads room, room.AgentSocket(r)
    {
      match room.AgentLink(r)
      case None => true
      case Some(link) => link.Takes() ==> link.sent != [] && link.sent[|link.sent| - 1] == PeerConnected(key)
    }

    /** The claim of a hello, with the manager's objects left alone. */
    method Enter(manager: SessionManager, claimed: Role, publicKey: string, now: int) returns (accepted: bool)
      requires manager.Valid() && room.Valid() && OwnSocket(claimed) && Apart(Some(room), manager.Mine())
      requires ws as object !in manager.Mine()
      modifies this, room`agents, room`agentPubkeys, ws`open
      ensures manager.Valid() && manager.Found(id, now) == old(manager.Found(id, now))
      ensures accepted <==> !old(Taken(claimed))
      ensures !accepted ==>
                && role == old(role) && room.agents == old(room.agents) && room.agentPubkeys == old(room.agentPubkeys) && !ws.open
      ensures accepted ==>
                && role == Some(claimed) && room.agents == old(room.agents).Set(claimed, Some(ws))
                && room.agentPubkeys == old(room.agentPubkeys).Set(claimed, Some(publicKey))
                && room.Valid() && Apart(Some(room), manager.Mine()) && room.Sockets() <= old(room.Sockets()) + {ws}
                && room.Outgoing() == Attached(old(room.Outgoing()), claimed, old(ws.Seen()))
    {
      hide MachineInv, Attached;
      accepted := Claim(claimed, publicKey);
    }

    /** The hello as the orchestrator hears it, and what follows. */
    method Report(manager: SessionManager, claimed: Role, now: int)
      requires manager.Valid() && room.Valid() && Apart(Some(room), manager.Mine())
      modifies room.Sockets(), manager, if id in manager.orchestrators then {manager.orchestrators[id]} else {}
      ensures manager.rows == RowsAfter(old(manager.rows), id, old(HelloEvents(manager, claimed, now)))
      ensures manager.Live(id) == MachineAfter(old(manager.Found(id, now)), Some(AgentConnected(claimed)))
      ensures room.Outgoing() == Introduced(Fanout(old(room.Outgoing()), old(HelloEvents(manager, claimed, now))), room.agentPubkeys)
      ensures BothIntroduced()
    {
      hide RowsAfter, Fanout, MachineAfter, Introduced, Apply, EventsOf, MachineInv, BroadcastAll;
      manager.HandleAgentMessage(id, Some(room), claimed, Hello, now);
      BroadcastTwice(Fanout(old(room.Outgoing()), old(HelloEvents(manager, claimed, now))), [], []);
      Introduce();
    }

    /** A refused hello reaches neither the orchestrator nor the peer. An accepted one
        is this role's: the orchestrator hears of the agent, whatever follows from that
        is sent, and then both agents learn the other's key if both are known. */
    method OnHello(manager: SessionManager, claimed: Role, publicKey: string, now: int) returns (accepted: bool)
      requires manager.Valid() && room.Valid() && OwnSocket(claimed) && Apart(Some(room), manager.Mine())
      requires ws as object !in manager.Mine()
      modifies this, room`agents, room`agentPubkeys, room.Sockets(), ws, manager,
        if id in manager.orchestrators then {manager.orchestrators[id]} else {}
      ensures accepted <==> !old(Taken(claimed))
      ensures !accepted ==>
                && role == old(role) && room.agents == old(room.agents) && room.agentPubkeys == old(room.agentPubkeys)
                && manager.rows == old(manager.rows) && manager.orchestrators == old(manager.orchestrators)
                && ws.Seen() == old(ws.Seen()).(open := false)
      ensures accepted ==>
                && role == Some(claimed) && room.agents == old(room.agents).Set(claimed, Some(ws))
                && room.agentPubkeys == old(room.agentPubkeys).Set(claimed, Some(publicKey))
                && manager.rows == RowsAfter(old(manager.rows), id, old(HelloEvents(manager, claimed, now)))
                && manager.Live(id) == MachineAfter(old(manager.Found(id, now)), Some(AgentConnected(claimed)))
      ensures accepted ==>
                room.Outgoing() == Introduced(Fanout(Attached(old(room.Outgoing()), claimed, old(ws.Seen())),
                                                     old(HelloEvents(manager, claimed, now))), room.agentPubkeys)
      ensures accepted ==> BothIntroduced()
    {
      hide RowsAfter, Fanout, MachineAfter, Introduced, Attached, Apply, EventsOf, MachineInv, BroadcastAll;
      accepted := Enter(manager, claimed, publicKey, now);
      if accepted {
        Report(manager, claimed, now);
      }
    }

    ghost function HelloEvents(manager: SessionManager, claimed: Role, now: int): seq<Event>
      reads manager, if id in manager.orchestrators then {manager.orchestrators[id]} else {}
    {
      EventsOf(manager.Found(id, now), Some(AgentConnected(claimed)))
    }

    /** A payload goes to the peer as it came, unread; before hello it is dropped. */
    method OnEncryptedPayload(p: Sealed) returns (relayed: bool)
      requires room.Valid()
      modifies room.Sockets()
      ensures role.None? ==> !relayed && room.Outgoing() == old(room.Outgoing())
      ensures role.Some? ==>
                && room.Outgoing() == SendTo(old(room.Outgoing()), Peer(role.value), [Relay(p)])
                && (relayed <==> room.agents.Get(Peer(role.value)).Some? && room.agents.Get(Peer(role.value)).value.Seen().Takes())
    {
      if role.None? {
        return false;
      }
      relayed := room.RelayToPeer(role.value, Relay(p));
    }

    /** One line for the audit log and, the same one, for every dashboard: never a long
        token or a 64-number array in it, and an already redacted line unchanged. Before
        hello there is none. */
    method OnLog(audit: AuditLog, level: LogLevel, message: string, now: int) returns (shown: Option<LogLine>)
      requires room.Valid()
      modifies audit, room.dashboards
      ensures shown.Some? <==> role.Some?
      ensures shown.None? ==> audit.entries == old(audit.entries) && room.Outgoing() == old(room.Outgoing())
      ensures shown.Some? ==>
                && shown.value == LogLine(role.value, level, shown.value.message, now)
                && audit.entries == old(audit.entries) + [AuditEntry(role, level, shown.value.message, now)]
                && room.Outgoing() == BroadcastAll(old(room.Outgoing()), [LogMsg(shown.value)])
      ensures Clean(old(audit.entries)) && Writable(message) ==> Clean(audit.entries)
      ensures shown.Some? && Writable(message) ==> !HoldsLongToken(shown.value.message) && !HoldsNumberArray(shown.value.message)
      ensures shown.Some? && !HoldsLongToken(message) && !HoldsNumberArray(message) ==> shown.value.message == message
    {
      hide RedactSecrets, HoldsLongToken, HoldsNumberArray, Writable, Clean, BroadcastAll;
      if role.None? {
        return None;
      }
      var safe := RedactSecrets(message);
      RedactionMeans(message);
      CleanMore(audit.entries, AuditEntry(role, level, safe, now));
      var line := LogLine(role.value, level, safe, now);
      audit.Append(AuditEntry(role, level, safe, now));
      room.BroadcastToDashboards(LogMsg(line));
      return Some(line);
    }

    /** The socket is gone: it leaves the room only if it is still the role's socket,
        but the orchestrator is told of a disconnect either way. */
    method OnGone() returns (reported: Option<Role>)
      modifies room`agents, room`agentPubkeys
      ensures reported == role
      ensures room.agents == if role.Some? && old(room.agents).Get(role.value) == Some(ws)
                             then old(room.agents).Set(role.value, None) else old(room.agents)
      ensures room.agentPubkeys == if role.Some? && old(room.agents).Get(role.value) == Some(ws)
                                   then old(room.agentPubkeys).Set(role.value, None) else old(room.agentPubkeys)
    {
      if role.Some? && room.agents.Get(role.value) == Some(ws) {
        room.RemoveAgent(role.value);
      }
      reported := role;
    }
  }

  /** One page's connection to the hub. */
  class DashboardConnection {
    const id: string
    const room: Room
    const ws: Socket<DashMsg>

    constructor (id: string, room: Room, ws: Socket<DashMsg>)
      ensures this.id == id && this.room == room && this.ws == ws
    {
      this.id, this.room, this.ws := id, room, ws;
    }

    /** Whose socket is open, as the room has it. */
    function Connected(): (lights: PerRole<bool>)
      reads room, if room.agents.source.Some? then {room.agents.source.value} else {},
        if room.agents.target.Some? then {room.agents.target.value} else {}
      ensures forall r: Role :: lights.Get(r) <==> room.agents.Get(r).Some? && room.agents.Get(r).value.open
    {
      PerRole(room.agents.source.Some? && room.agents.source.value.open,
              room.agents.target.Some? && room.agents.target.value.open)
    }

    /** Messages go out one by one. */
    method SendAll(msgs: seq<DashMsg>)
      modifies ws
      ensures ws.Seen() == old(ws.Seen()).Push(msgs)
    {
      assert old(ws.sent) + [] == old(ws.sent);
      for k := 0 to |msgs|
        invariant ws.Seen() == old(ws.Seen()).Push(msgs[..k])
      {
        var _ := ws.SafeSend(msgs[k]);
        assert msgs[..k + 1] == msgs[..k] + [msgs[k]];
      }
      assert msgs[..|msgs|] == msgs;
    }

    /** The step of a session that is migrating is looked up, and its orchestrator
        revived if need be, for that alone. */
    method CurrentStep(manager: SessionManager, state: MigrationState, now: int) returns (step: int)
      requires manager.Valid() && Apart(Some(room), manager.Mine()) && id in manager.rows && state == manager.rows[id].state
      modifies manager`orchestrators
      ensures step == if state == Migrating then old(manager.Found(id, now)).value.core.currentStep else 0
    {
      if state == Migrating {
        step := manager.GetCurrentStep(id, Some(room), now);
      } else {
        step := 0;
      }
    }

    /** A page joins: refused without the session's token or row; otherwise it is one of
        the room's dashboards from then on and has been sent the snapshot. */
    method OnJoin(manager: SessionManager, audit: AuditLog, token: string, now: int) returns (joined: bool)
      requires manager.Valid() && Apart(Some(room), manager.Mine())
      requires forall r: Role :: ws as object !in room.AgentSocket(r)
      modifies ws, room`dashboards, manager`orchestrators
      ensures joined <==>
                old(id in manager.dashboardTokens && manager.dashboardTokens[id] != "" && token == manager.dashboardTokens[id]
                    && id in manager.rows)
      ensures !joined ==> room.dashboards == old(room.dashboards) && ws.Seen() == old(ws.Seen()).(open := false)
      ensures joined ==> room.dashboards == old(room.dashboards) + {ws} && room.Valid()
      ensures joined ==>
                var state := manager.rows[id].state;
                var step := if state == Migrating then old(manager.Found(id, now)).value.core.currentStep else 0;
                ws.Seen() == old(ws.Seen()).Push(Snapshot(state, step, Backdrop(old(Connected()), audit.entries)))
    {
      hide Snapshot, MachineInv, Step;
      var known := manager.VerifyDashboardToken(id, token);
      if token == "" || !known || id !in manager.rows {
        ws.open := false;
        return false;
      }
      var state, scene := manager.rows[id].state, Backdrop(Connected(), audit.entries);
      var step := CurrentStep(manager, state, now);
      room.AddDashboard(ws);
      var msgs := SendSnapshot(state, step, scene);
      SendAll(msgs);
      return true;
    }

    /** The page is gone. */
    method OnGone()
      modifies room`dashboards
      ensures room.dashboards == old(room.dashboards) - {ws}
    {
      room.RemoveDashboard(ws);
    }
  }
}
