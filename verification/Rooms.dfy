/** The hub's rooms: the sockets of one session and how messages fan out to them. */
module Rooms {
  import opened Protocol
  import opened HubGlue

  /** A socket as its sender sees it: whether it is open, whether a send on it throws,
      and what was enqueued. */
  datatype Link<T> = Link(open: bool, broken: bool, sent: seq<T>) {
    predicate Takes() {
      open && !broken
    }

    function Push(ms: seq<T>): Link<T> {
      if Takes() then this.(sent := sent + ms) else this
    }
  }

  class Socket<T> {
    var open: bool
    var broken: bool
    var sent: seq<T>

    function Seen(): Link<T>
      reads this
    {
      Link(open, broken, sent)
    }

    constructor ()
      ensures Seen() == Link(true, false, [])
    {
      open, broken := true, false;
      sent := [];
    }

    /** The send itself: it throws on a broken socket. */
    method Send(msg: T) returns (thrown: bool)
      modifies this
      ensures thrown == broken
      ensures Seen() == old(Seen()).(sent := if broken then old(sent) else old(sent) + [msg])
    {
      if broken {
        return true;
      }
      sent := sent + [msg];
      return false;
    }

    /** Send if the socket is open; a send that throws is reported like a closed socket. */
    method SafeSend(msg: T) returns (ok: bool)
      modifies this
      ensures ok == Seen().Takes()
      ensures Seen() == old(Seen()).Push([msg])
    {
      if !open {
        return false;
      }
      var thrown := Send(msg);
      return !thrown;
    }
  }

  /** Everything a room's sockets have been sent. */
  datatype Outbox = Outbox(agents: PerRole<Option<Link<HubMsg>>>, dashboards: map<Socket<DashMsg>, Link<DashMsg>>)

  ghost function SendTo(b: Outbox, r: Role, ms: seq<HubMsg>): Outbox {
    match b.agents.Get(r)
    case None => b
    case Some(link) => b.(agents := b.agents.Set(r, Some(link.Push(ms))))
  }

  ghost function BroadcastAll(b: Outbox, ms: seq<DashMsg>): Outbox {
    b.(dashboards := map d | d in b.dashboards :: b.dashboards[d].Push(ms))
  }

  class Room {
    var agents: PerRole<Option<Socket<HubMsg>>>
    var agentPubkeys: PerRole<Option<string>>
    var dashboards: set<Socket<DashMsg>>

    constructor ()
      ensures agents == PerRole(None, None) && agentPubkeys == PerRole(None, None) && dashboards == {}
    {
      agents, agentPubkeys := PerRole(None, None), PerRole(None, None);
      dashboards := {};
    }

    /** The sockets this room sends to. */
    ghost function Sockets(): set<object>
      reads this
    {
      (set d | d in dashboards :: d as object) + AgentSocket(Source) + AgentSocket(Target)
    }

    ghost function AgentSocket(r: Role): set<object>
      reads this
    {
      if agents.Get(r).Some? then {agents.Get(r).value as object} else {}
    }

    /** No socket stands for both agents, or for an agent and a dashboard. */
    ghost predicate Valid()
      reads this
    {
      && this !in Sockets()
      && AgentSocket(Source) !! AgentSocket(Target)
      && (forall d :: d in dashboards ==> d as object !in AgentSocket(Source) && d as object !in AgentSocket(Target))
    }

    ghost function AgentLink(r: Role): Option<Link<HubMsg>>
      reads this, AgentSocket(r)
    {
      match agents.Get(r)
      case None => None
      case Some(ws) => Some(ws.Seen())
    }

    ghost function DashboardLinks(): map<Socket<DashMsg>, Link<DashMsg>>
      reads this, dashboards
    {
      map d | d in dashboards :: d.Seen()
    }

    ghost function Outgoing(): Outbox
      reads this, Sockets()
    {
      Outbox(PerRole(AgentLink(Source), AgentLink(Target)), DashboardLinks())
    }

    method AddAgent(role: Role, ws: Socket<HubMsg>)
      modifies this`agents
      ensures agents == old(agents).Set(role, Some(ws))
    {
      agents := agents.Set(role, Some(ws));
    }

    method SetAgentPubkey(role: Role, pubkey: string)
      modifies this`agentPubkeys
      ensures agentPubkeys == old(agentPubkeys).Set(role, Some(pubkey))
    {
      agentPubkeys := agentPubkeys.Set(role, Some(pubkey));
    }

    /** The socket and its public key go together. */
    method RemoveAgent(role: Role)
      modifies this`agents, this`agentPubkeys
      ensures agents == old(agents).Set(role, None) && agentPubkeys == old(agentPubkeys).Set(role, None)
    {
      agents := agents.Set(role, None);
      agentPubkeys := agentPubkeys.Set(role, None);
    }

    method AddDashboard(ws: Socket<DashMsg>)
      modifies this`dashboards
      ensures dashboards == old(dashboards) + {ws}
    {
      dashboards := dashboards + {ws};
    }

    method RemoveDashboard(ws: Socket<DashMsg>)
      modifies this`dashboards
      ensures dashboards == old(dashboards) - {ws}
    {
      dashboards := dashboards - {ws};
    }

    /** The message goes to that agent's socket, if it is there and takes it, and nowhere else. */
    method SendToAgent(role: Role, msg: HubMsg) returns (ok: bool)
      requires Valid()
      modifies AgentSocket(role)
      ensures ok <==> agents.Get(role).Some? && agents.Get(role).value.Seen().Takes()
      ensures Outgoing() == SendTo(old(Outgoing()), role, [msg])
    {
      match agents.Get(role)
      case None => ok := false;
      case Some(ws) => ok := ws.SafeSend(msg);
      assert DashboardLinks() == old(DashboardLinks());
    }

    method RelayToPeer(fromRole: Role, msg: HubMsg) returns (ok: bool)
      requires Valid()
      modifies AgentSocket(Peer(fromRole))
      ensures ok <==> agents.Get(Peer(fromRole)).Some? && agents.Get(Peer(fromRole)).value.Seen().Takes()
      ensures Outgoing() == SendTo(old(Outgoing()), Peer(fromRole), [msg])
    {
      ok := SendToAgent(Peer(fromRole), msg);
    }

    /** The loop of a broadcast. */
    method SendToEach(msg: DashMsg)
      modifies dashboards
      ensures forall d :: d in dashboards ==> d.Seen() == old(d.Seen()).Push([msg])
    {
      var left := dashboards;
      while left != {}
        invariant left <= dashboards
        invariant forall d :: d in left ==> d.Seen() == old(d.Seen())
        invariant forall d :: d in dashboards - left ==> d.Seen() == old(d.Seen()).Push([msg])
        decreases |left|
      {
        var d :| d in left;
        var _ := d.SafeSend(msg);
        left := left - {d};
      }
    }

    /** Every attached dashboard whose socket takes it gets the message, once. */
    method BroadcastToDashboards(msg: DashMsg)
      requires Valid()
      modifies dashboards
      ensures Outgoing() == BroadcastAll(old(Outgoing()), [msg])
    {
      SendToEach(msg);
      assert AgentLink(Source) == old(AgentLink(Source));
      assert AgentLink(Target) == old(AgentLink(Target));
      assert DashboardLinks() == BroadcastAll(old(Outgoing()), [msg]).dashboards;
    }
  }
}
