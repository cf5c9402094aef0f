/** The agent in its own form: captured variables that message handlers update, a
    queue they push to, and step handlers that wait in deadline loops. Around the
    process stands the rest of the system, which moves as it likes whenever the process
    waits. Every stretch of code between two waits is proved to be one action of the
    composed system, so a run of a handler among the moves of the hub and the peer is a
    run of that system. */
module Agent {
  import opened Protocol
  import opened Envelope
  import opened PayloadQueue
  import opened OrchestratorSpec
  import opened HubGlue
  import opened QuietGate
  import opened VotingCheck
  import opened System

  /** A pause: what the system turns to in it, and the clock after it. */
  datatype Pause = Pause(now: int, turns: seq<Action>)

  /** The world a step handler meets: the clock when it starts, its pauses, the
      cluster's answers, what happens while its command runs and while it returns, and
      the outcome of its last piece. */
  datatype World = World(
    start: int,
    pauses: seq<Pause>,
    polls: seq<Poll>,
    during: seq<Action>,
    returning: seq<Action>,
    outcome: Choice)

  /** A poll that the world has no answer for threw. */
  function PollAt(w: World, k: nat): Poll {
    if k < |w.polls| then w.polls[k] else Threw
  }

  /** The payloads that messages push to the queue. */
  function Queued(c: Config, ms: seq<HubMsg>): seq<Sealed> {
    if ms == [] then []
    else
      var last := ms[|ms| - 1];
      if last.Relay? && KindAt(TheReader(c), last.sealed) != Some(VotingConfirmedKind)
      then Queued(c, ms[..|ms| - 1]) + [last.sealed]
      else Queued(c, ms[..|ms| - 1])
  }

  lemma QueuedOne(c: Config, m: HubMsg)
    ensures Queued(c, [m]) ==
            if m.Relay? && KindAt(TheReader(c), m.sealed) != Some(VotingConfirmedKind) then [m.sealed] else []
  {
    hide KindAt;
    assert [m][..0] == [];
  }

  lemma NothingQueued(c: Config)
    ensures Queued(c, []) == []
  {
  }

  lemma {:induction false} QueuedConcat(c: Config, a: seq<HubMsg>, b: seq<HubMsg>)
    ensures Queued(c, a + b) == Queued(c, a) + Queued(c, b)
  {
    hide KindAt;
    if b == [] {
      assert a + b == a;
    } else {
      assert (a + b)[..|a + b| - 1] == a + b[..|b| - 1];
      QueuedConcat(c, a, b[..|b| - 1]);
    }
  }

  /** Scanning what an earlier poll kept, with more added, is scanning everything. */
  lemma SeenSoFar(c: Config, q: seq<Sealed>, before: seq<HubMsg>, more: seq<HubMsg>, want: Kind, entries: seq<Sealed>)
    requires NoneWanted(TheReader(c), q + Queued(c, before), want)
    requires entries == Kept(TheReader(c), q + Queued(c, before)) + Queued(c, more)
    ensures Scan(TheReader(c), entries, want) == Scan(TheReader(c), q + Queued(c, before + more), want)
  {
    hide Kept, Scan, Queued, NoneWanted;
    QueuedConcat(c, before, more);
    ScanAgain(TheReader(c), q + Queued(c, before), Queued(c, more), want);
    assert q + Queued(c, before) + Queued(c, more) == q + (Queued(c, before) + Queued(c, more));
  }

  const SOURCE_QUIET_TIMEOUT_MS := 60_000
  const VOTING_CONFIRMED_TIMEOUT_MS := 60_000

  // ---------- Moves ----------

  /** Moves of the step handlers of `r` and the end of its process. */
  predicate OfHandlers(r: Role, a: Action) {
    match a
    case RunBody(q, _, _) => q == r
    case Report(q, _) => q == r
    case Exit(q, _) => q == r
    case _ => false
  }

  /** Moves that are not made by the code of agent `r`: the hub's, the peer's, and the
      fate of the connections. */
  predicate OfOthers(r: Role, a: Action) {
    match a
    case AgentReceive(q) => q != r
    case RunRollback(q, _, _, _) => q != r
    case _ => !OfHandlers(r, a)
  }

  /** The actions lead from `origin` to `system`. */
  predicate Leads(c: Config, origin: Sys, acts: seq<Action>, system: Sys) {
    Execution(c, origin, acts) == Some(system)
  }

  lemma OneMore(c: Config, origin: Sys, acts: seq<Action>, system: Sys, a: Action)
    requires Leads(c, origin, acts, system) && Enabled(system, a)
    ensures Leads(c, origin, acts + [a], Next(c, system, a))
  {
    hide Enabled, Next;
    var more := acts + [a];
    assert more[..|more| - 1] == acts && more[|more| - 1] == a;
  }

  // ---------- What others do to an agent ----------

  /** Nothing but messages have been sent to the agent. */
  predicate OnlySent(n: Node, m: Node) {
    m == n.(toAgent := m.toAgent) && n.toAgent <= m.toAgent
  }

  lemma CallsOnlySend(s: Sys, call: Call, r: Role)
    ensures OnlySent(At(s, r), At(HubStep(s, call), r))
  {
    hide Apply, AllMessagesFor;
  }

  lemma PutAt(s: Sys, q: Role, n: Node, r: Role)
    ensures At(Put(s, q, n), r) == if q == r then n else At(s, r)
  {
  }

  lemma RelayOnlySends(n: Node, sealed: Sealed)
    ensures OnlySent(n, Sent(n, [Relay(sealed)])) && OnlySent(n, n)
  {
  }

  /** Handling a report of agent `q` takes it off the channel and sends messages. */
  lemma HandlingOnlySends(s: Sys, q: Role, now: int, r: Role)
    requires At(s, q).toHub != []
    ensures var n := At(s, r);
            OnlySent(if q == r then n.(toHub := n.toHub[1..]) else n, At(HubHandles(s, q, now), r))
  {
    hide HubStep, Sent, Put, At, OnlySent;
    var left := At(s, q).(toHub := At(s, q).toHub[1..]);
    var popped := Put(s, q, left);
    PutAt(s, q, left, r);
    match At(s, q).toHub[0]
    case Done(step) => CallsOnlySend(popped, StepComplete(step, q, now), r);
    case Broke(step, error) => CallsOnlySend(popped, StepFailed(step, q, error), r);
    case Payload(sealed) =>
      RelayOnlySends(At(popped, r), sealed);
      PutAt(popped, Peer(q), Sent(At(popped, Peer(q)), [Relay(sealed)]), r);
    case RollbackDone(_, _) => RelayOnlySends(At(popped, r), Sealed("", ""));
  }

  /** The agent's connection may have changed, nothing else of it. */
  predicate SameBehind(n: Node, m: Node) {
    m == n.(toAgent := m.toAgent, toHub := m.toHub, open := m.open)
  }

  /** Messages may have arrived at the end, and a report may have left at the head. */
  predicate Flowed(n: Node, m: Node) {
    && SameBehind(n, m) && n.toAgent <= m.toAgent && m.open == n.open
    && (m.toHub == n.toHub || (n.toHub != [] && m.toHub == n.toHub[1..]))
  }

  lemma SentFlows(n: Node, m: Node)
    ensures OnlySent(n, m) ==> Flowed(n, m)
    ensures n.toHub != [] && OnlySent(n.(toHub := n.toHub[1..]), m) ==> Flowed(n, m)
    ensures Flowed(n, n) && (Flowed(n, m) ==> SameBehind(n, m))
  {
  }

  /** What the peer does by itself is its own. */
  lemma PeerIsApart(c: Config, s: Sys, a: Action, r: Role)
    requires Enabled(s, a)
    requires a.AgentReceive? || a.RunBody? || a.Report? || a.RunRollback? || a.Exit? || a.Listen? || a.Disconnect?
    requires a.role != r
    ensures At(Next(c, s, a), r) == At(s, r)
  {
    hide AgentHandles, AfterBody, AfterReport, AfterRollback, AfterExit, AfterDisconnect;
    if a.RunBody? {
      BodyIsOwn(c, a.role, s, a.i, a.choice, r);
    }
  }

  lemma BodyIsOwn(c: Config, q: Role, s: Sys, i: nat, ch: Choice, r: Role)
    requires i < |At(s, q).handlers| && q != r
    ensures At(AfterBody(c, q, s, i, ch), r) == At(s, r)
  {
    hide Body;
  }

  /** Whatever others do, they touch only an agent's connection: as long as that is not
      lost, messages arrive at its end and reports leave at its head. */
  lemma OthersOnlySend(c: Config, s: Sys, a: Action, r: Role)
    requires Enabled(s, a) && OfOthers(r, a) && At(s, r).listening
    ensures SameBehind(At(s, r), At(Next(c, s, a), r))
    ensures !(a.Disconnect? && a.role == r) ==> Flowed(At(s, r), At(Next(c, s, a), r))
  {
    hide Flowed, OnlySent, SameBehind, HubStep, HubHandles, AgentHandles, AfterBody, AfterReport, AfterRollback, AfterExit,
      AfterDisconnect;
    var n, m := At(s, r), At(Next(c, s, a), r);
    SentFlows(n, m);
    match a
    case HubCall(call) => CallsOnlySend(s, call, r);
    case HubReceive(q, now) => HandlingOnlySends(s, q, now, r);
    case Disconnect(q, _, _) =>
      if q == r {
        CutsOnly(c, s, a);
      } else {
        PeerIsApart(c, s, a, r);
      }
    case Listen(q) =>
      if q == r {
        ListensStill(c, s, q);
      } else {
        PeerIsApart(c, s, a, r);
      }
    case _ => PeerIsApart(c, s, a, r);
  }

  lemma CutsOnly(c: Config, s: Sys, a: Action)
    requires a.Disconnect? && Enabled(s, a)
    ensures SameBehind(At(s, a.role), At(Next(c, s, a), a.role))
    ensures var m := At(Next(c, s, a), a.role);
            !m.open && m.toHub == At(s, a.role).toHub[..a.keepUp] && m.toAgent == At(s, a.role).toAgent[..a.keepDown]
  {
  }

  lemma ListensStill(c: Config, s: Sys, r: Role)
    requires At(s, r).listening && Enabled(s, Listen(r))
    ensures At(Next(c, s, Listen(r)), r) == At(s, r)
  {
  }

  // ---------- What rollback handlers do to a server ----------

  /** Rollback handlers of agent `r` may have finished between the two states of its
      server: they set the source's identity and voter, and clear what the target got. */
  predicate Undone(r: Role, before: Host, after: Host) {
    if r == Source then
      && after == before.(staked := after.staked, voter := after.voter)
      && (before.staked ==> after.staked) && (before.voter ==> after.voter)
    else
      && after == before.(receivedKey := after.receivedKey, towerFile := after.towerFile)
      && (after.receivedKey.Some? ==> after.receivedKey == before.receivedKey)
      && (after.towerFile.Some? ==> after.towerFile == before.towerFile)
  }

  lemma UndoneBy(r: Role, host: Host, name: RollbackName, ok: bool, took: bool)
    requires name == RemoveTransferredFilesTarget <==> r == Target
    ensures Undone(r, host, UndoOn(host, name, ok, took))
  {
  }

  /** A rollback step that ends well has had its effect, whatever was noticed of it; one
      that fails has at most part of it; no other part of the server is touched. */
  lemma DoneMeansDone(host: Host, name: RollbackName, ok: bool, took: bool)
    ensures var after := UndoOn(host, name, ok, took);
            && (match name
                case RestoreSourceIdentity => after == host.(staked := after.staked) && (ok ==> after.staked)
                case ReaddAuthorizedVoterSource => after == host.(voter := after.voter) && (ok ==> after.voter)
                case RemoveTransferredFilesTarget =>
                  && after == host.(receivedKey := after.receivedKey, towerFile := after.towerFile)
                  && (ok ==> after.receivedKey == None && after.towerFile == None)
                case VerifySourceVoting => after == host)
            && (!ok && !took ==> after == host)
  {
  }

  lemma RefusesOthers(c: Config, r: Role, host: Host, name: RollbackName)
    ensures !Refuses(c, r, host, name) ==> (name == RemoveTransferredFilesTarget <==> r == Target)
    ensures r != Undoer(name) <==> if name == RemoveTransferredFilesTarget then r == Source else r == Target
    ensures Refuses(c, r, host, name) <==>
            || r != Undoer(name)
            || (name == RestoreSourceIdentity && (!c.hasKeypair || host.keyFile.None?))
            || (name == ReaddAuthorizedVoterSource && !c.hasVoteKeypair)
  {
  }

  /** The target is told to remove files and nothing else; the source anything else. */
  predicate OwnRollbacks(r: Role, names: seq<RollbackName>) {
    forall j :: 0 <= j < |names| ==> (names[j] == RemoveTransferredFilesTarget <==> r == Target)
  }

  // ---------- Pieces and actions ----------

  /** The agent after one piece of handler `i`. */
  function AfterPiece(c: Config, r: Role, n: Node, i: nat, ch: Choice): Node
    requires i < |n.handlers|
  {
    var e := Body(c, r, n, n.handlers[i], ch);
    n.(host := e.host, queue := e.queue, toHub := n.toHub + e.sent, handlers := n.handlers[i := n.handlers[i].(pc := e.pc)])
  }

  lemma PieceIsAction(c: Config, s: Sys, r: Role, i: nat, ch: Choice)
    requires At(s, r).up && i < |At(s, r).handlers| && At(s, r).handlers[i].pc in {Begun, GatePassed}
    requires |ch.nonce| == NONCE_LENGTH
    ensures Enabled(s, RunBody(r, i, ch))
    ensures At(Next(c, s, RunBody(r, i, ch)), r) == AfterPiece(c, r, At(s, r), i, ch)
  {
    hide Body;
  }

  lemma TakeIsAction(c: Config, s: Sys, r: Role)
    requires At(s, r).up && At(s, r).toAgent != []
    ensures Enabled(s, AgentReceive(r)) && At(Next(c, s, AgentReceive(r)), r) == AgentHandles(c, r, At(s, r))
  {
    hide AgentHandles;
  }

  lemma ReportIsAction(c: Config, s: Sys, r: Role, i: nat)
    requires At(s, r).up && i < |At(s, r).handlers| && At(s, r).handlers[i].pc in {Finished, Failing}
    ensures Enabled(s, Report(r, i)) && At(Next(c, s, Report(r, i)), r) == AfterReport(At(s, r), i)
  {
    hide AfterReport;
  }

  lemma RollbackIsAction(c: Config, s: Sys, r: Role, j: nat, ok: bool, took: bool)
    requires At(s, r).up && j < |At(s, r).rollbacks|
    ensures Enabled(s, RunRollback(r, j, ok, took))
    ensures At(Next(c, s, RunRollback(r, j, ok, took)), r) == AfterRollback(At(s, r), j, ok, took)
  {
    hide AfterRollback;
  }

  /** What a turn says can be done, can be done. */
  lemma CanTake(s: Sys, r: Role)
    requires Enabled(s, AgentReceive(r))
    ensures At(s, r).toAgent != []
  {
  }

  lemma CanEndRollback(s: Sys, a: Action)
    requires Enabled(s, a) && a.RunRollback?
    ensures a.i < |At(s, a.role).rollbacks|
  {
  }

  lemma IsOfOthers(r: Role, a: Action)
    requires !OfHandlers(r, a) && a != AgentReceive(r) && !(a.RunRollback? && a.role == r)
    ensures OfOthers(r, a)
  {
  }

  // ---------- Pieces that wait ----------

  /** The step that waits for payloads of this kind. */
  function StepFor(want: Kind): int {
    if want == TowerKind then 4 else 5
  }

  /** A round that finds nothing leaves the handler waiting and the scanned queue. */
  lemma NothingFound(c: Config, n: Node, i: nat, ch: Choice, want: Kind)
    requires want in {TowerKind, IdentityKind} && i < |n.handlers| && n.handlers[i] == Handler(StepFor(want), Begun) && !ch.late
    requires Scan(TheReader(c), n.queue, want).0 == None
    ensures AfterPiece(c, Target, n, i, ch) == n.(queue := Scan(TheReader(c), n.queue, want).1)
  {
    hide Scan;
    assert n.toHub + [] == n.toHub;
  }

  /** Past the deadline the handler fails; only the gate's second half has none. */
  lemma DeadlinePassed(c: Config, r: Role, n: Node, i: nat, ch: Choice)
    requires i < |n.handlers| && n.handlers[i].pc == Begun && ch.late
    requires r == Target ==> n.handlers[i].step in {4, 5} || (n.handlers[i].step == 6 && !c.skipQuietGate)
    requires r == Source ==> n.handlers[i].step == 9 && !n.peerVotingConfirmed
    ensures AfterPiece(c, r, n, i, ch) == n.(handlers := n.handlers[i := n.handlers[i].(pc := Failing)])
  {
    assert n.toHub + [] == n.toHub;
  }

  /** A round that finds the tower stores it or fails. */
  lemma TowerTaken(c: Config, n: Node, i: nat, ch: Choice, p: Sealed, left: seq<Sealed>)
    requires i < |n.handlers| && n.handlers[i] == Handler(4, Begun) && !ch.late
    requires Scan(TheReader(c), n.queue, TowerKind) == (Some(p), left)
    ensures var r := ReceiveTower(c.suite, c.sessionKey, p);
            AfterPiece(c, Target, n, i, ch) ==
            if r.Ok? && ch.ok
            then n.(queue := left, host := n.host.(towerFile := Some(r.value.content)), handlers := n.handlers[i := Handler(4, Finished)])
            else n.(queue := left, handlers := n.handlers[i := Handler(4, Failing)])
  {
    hide Scan, ReceiveTower;
    assert n.toHub + [] == n.toHub;
  }

  lemma IdentityTaken(c: Config, n: Node, i: nat, ch: Choice, p: Sealed, left: seq<Sealed>)
    requires i < |n.handlers| && n.handlers[i] == Handler(5, Begun) && !ch.late
    requires Scan(TheReader(c), n.queue, IdentityKind) == (Some(p), left)
    ensures var r := ReceiveIdentity(c.suite, c.sessionKey, p);
            AfterPiece(c, Target, n, i, ch) ==
            if r.Ok? && ch.ok
            then n.(queue := left, handlers := n.handlers[i := Handler(5, Finished)],
                    host := n.host.(receivedKey := Some(r.value.secret), keyPathSet := true, knownPubkey := Some(r.value.pubkey)))
            else n.(queue := left, handlers := n.handlers[i := Handler(5, Failing)])
  {
    hide Scan, ReceiveIdentity;
    assert n.toHub + [] == n.toHub;
  }

  /** One poll of the gate. */
  lemma GatePolled(c: Config, n: Node, i: nat, ch: Choice)
    requires i < |n.handlers| && n.handlers[i] == Handler(6, Begun) && !ch.late
    requires n.host.keyPathSet && n.host.knownPubkey.Some? && !c.skipQuietGate
    ensures AfterPiece(c, Target, n, i, ch) ==
            n.(handlers := n.handlers[i := Handler(6, if ShowsQuiet(ch.poll, n.host.knownPubkey.value) then GatePassed else Begun)])
  {
    hide ShowsQuiet;
    assert n.toHub + [] == n.toHub;
  }

  /** Step 6 without key or public key fails at once; with the gate skipped it passes at once. */
  lemma GateRefused(c: Config, n: Node, i: nat, ch: Choice)
    requires i < |n.handlers| && n.handlers[i] == Handler(6, Begun)
    requires !n.host.keyPathSet || n.host.knownPubkey.None? || c.skipQuietGate
    ensures AfterPiece(c, Target, n, i, ch) ==
            n.(handlers := n.handlers[i := Handler(6, if !n.host.keyPathSet || n.host.knownPubkey.None? then Failing else GatePassed)])
  {
    hide ShowsQuiet;
    assert n.toHub + [] == n.toHub;
  }

  lemma Activated(c: Config, n: Node, i: nat, ch: Choice)
    requires i < |n.handlers| && n.handlers[i] == Handler(6, GatePassed)
    ensures AfterPiece(c, Target, n, i, ch) ==
            n.(handlers := n.handlers[i := Handler(6, Ended(ch.ok))],
               host := if ch.ok || ch.took then n.host.(staked := true) else n.host)
  {
    hide ShowsQuiet;
    assert n.toHub + [] == n.toHub;
  }

  /** What the source's first steps make of its server, if the command takes. */
  function Commanded(r: Role, k: int, host: Host): Host {
    if r == Source && k == 2 then host.(staked := false)
    else if r == Source && k == 3 then host.(voter := false)
    else host
  }

  /** A step that is one command of the source, or none of this agent's. */
  lemma OneCommand(c: Config, r: Role, n: Node, i: nat, ch: Choice)
    requires i < |n.handlers| && n.handlers[i].pc == Begun
    requires n.handlers[i].step !in (if r == Source then {4, 5, 9} else {4, 5, 6, 7, 8})
    ensures var k := n.handlers[i].step;
            AfterPiece(c, r, n, i, ch) ==
            n.(handlers := n.handlers[i := Handler(k, if r == Source && k in {1, 2, 3} then Ended(ch.ok) else Finished)],
               host := if ch.ok || ch.took then Commanded(r, k, n.host) else n.host)
  {
    assert n.toHub + [] == n.toHub;
  }

  lemma VoterPiece(c: Config, n: Node, i: nat, ch: Choice)
    requires i < |n.handlers| && n.handlers[i] == Handler(7, Begun)
    ensures AfterPiece(c, Target, n, i, ch) ==
            if !n.host.keyPathSet then n.(handlers := n.handlers[i := Handler(7, Failing)])
            else n.(handlers := n.handlers[i := Handler(7, Ended(ch.ok))],
                    host := if ch.ok || ch.took then n.host.(voter := true) else n.host)
  {
    assert n.toHub + [] == n.toHub;
  }

  lemma VotePiece(c: Config, n: Node, i: nat, ch: Choice)
    requires i < |n.handlers| && n.handlers[i] == Handler(8, Begun)
    ensures var pubkey := VotingKey(n.host, ch.address);
            AfterPiece(c, Target, n, i, ch) ==
            if ShowsVoting(ch.poll, pubkey) && n.open
            then n.(handlers := n.handlers[i := Handler(8, Finished)],
                    toHub := n.toHub + [Payload(SendVotingConfirmed(c.suite, c.sessionKey, ch.nonce, pubkey))])
            else n.(handlers := n.handlers[i := Handler(8, Failing)])
  {
    hide ShowsVoting, SendVotingConfirmed;
    assert n.toHub + [] == n.toHub;
  }

  /** A round of step 9, as far as it gets. */
  lemma WipePiece(c: Config, n: Node, i: nat, ch: Choice)
    requires i < |n.handlers| && n.handlers[i] == Handler(9, Begun)
    requires c.hasKeypair && !n.peerVotingConfirmed ==> !ch.late
    ensures AfterPiece(c, Source, n, i, ch) ==
            if !c.hasKeypair || (n.peerVotingConfirmed && n.host.keyFile.None?)
            then n.(handlers := n.handlers[i := Handler(9, Failing)])
            else if !n.peerVotingConfirmed then n
            else n.(handlers := n.handlers[i := Handler(9, Ended(ch.ok))],
                    host := if ch.ok || ch.took then n.host.(keyFile := None) else n.host)
  {
    assert n.toHub + [] == n.toHub;
  }

  /** The source's staked key is a matter of its server alone. */
  lemma StakedPubkeyOfHost(c: Config, n: Node, m: Node)
    requires n.host == m.host
    ensures StakedPubkey(c, n) == StakedPubkey(c, m)
    ensures StakedPubkey(c, n).Some? ==>
              c.hasKeypair && n.host.keyFile.Some? && StakedPubkey(c, n) == DerivePubkey(c.suite, n.host.keyFile.value)
    ensures StakedPubkey(c, n).None? ==>
              !c.hasKeypair || n.host.keyFile.None? || DerivePubkey(c.suite, n.host.keyFile.value).None?
  {
  }

  datatype GateResult = Quiet | StillActive | StillLooking

  class AgentProcess {
    const config: Config
    const role: Role
    const pendingPayloads: PendingPayloads
    var peerVotingConfirmed: bool
    var host: Host
    var handlers: seq<Handler>
    var rollbacks: seq<RollbackName>
    var started: seq<int>

    /** The socket: whether it is open, what has come and was not read, what was sent
        and has not left. */
    var open: bool
    var inbox: seq<HubMsg>
    var outbox: seq<AgentMsg>

    /** What stands around the process; its code looks at none of it but the socket. */
    var system: Sys

    /** The state it started in and every action since, anyone's; the messages read. */
    ghost var origin: Sys
    ghost var acts: seq<Action>
    ghost var taken: seq<HubMsg>

    function View(): Node
      reads this, pendingPayloads
    {
      Node(true, false, true, open, inbox, outbox, handlers, rollbacks, started, pendingPayloads.entries, peerVotingConfirmed,
           host)
    }

    /** The process of an agent that is up and listens, wherever the system and the
        agent have got to. */
    constructor (c: Config, r: Role, s: Sys)
      requires At(s, r).up && At(s, r).listening && !At(s, r).exited && OwnRollbacks(r, At(s, r).rollbacks)
      ensures config == c && role == r && fresh(pendingPayloads) && origin == system == s && acts == [] && taken == []
      ensures Follows()
    {
      var n := At(s, r);
      config, role := c, r;
      pendingPayloads := new PendingPayloads(n.queue);
      peerVotingConfirmed, open, host := n.peerVotingConfirmed, n.open, n.host;
      handlers, rollbacks, started := n.handlers, n.rollbacks, n.started;
      inbox, outbox, system := n.toAgent, n.toHub, s;
      origin, acts, taken := s, [], [];
    }

    /** The actions lead to the system, in which the agent is at `n`. */
    ghost predicate Stands(n: Node)
      reads this
    {
      Leads(config, origin, acts, system) && At(system, role) == n && OwnRollbacks(role, rollbacks)
    }

    /** The agent's fields are what all the actions made of it in the system. */
    ghost predicate Follows()
      reads this, pendingPayloads
    {
      Stands(View())
    }

    /** The fields have caught up with one more action. */
    method Did(a: Action)
      requires Leads(config, origin, acts, system) && Enabled(system, a)
      requires At(Next(config, system, a), role) == View() && OwnRollbacks(role, rollbacks)
      modifies this`acts, this`system
      ensures Follows() && acts == old(acts) + [a]
    {
      hide Enabled, Next, Leads;
      OneMore(config, origin, acts, system, a);
      system := Next(config, system, a);
      acts := acts + [a];
    }

    method Send(m: AgentMsg)
      modifies this`outbox
      ensures outbox == old(outbox) + if open then [m] else []
    {
      if open {
        outbox := outbox + [m];
      }
    }

    // ---------- Message handlers ----------

    /** A confirmation is noted at once; any other payload waits for a step handler. */
    method OnRelayPayload(p: Sealed)
      modifies this`peerVotingConfirmed, pendingPayloads
      ensures peerVotingConfirmed == (old(peerVotingConfirmed) || KindAt(TheReader(config), p) == Some(VotingConfirmedKind))
      ensures pendingPayloads.entries ==
              old(pendingPayloads.entries) + if KindAt(TheReader(config), p) == Some(VotingConfirmedKind) then [] else [p]
    {
      hide KindAt;
      if KindAt(TheReader(config), p) == Some(VotingConfirmedKind) {
        peerVotingConfirmed := true;
        return;
      }
      pendingPayloads.Push(p);
    }

    /** Refused at once for the wrong role or a missing key file, started otherwise. */
    method OnExecuteRollbackStep(name: RollbackName)
      modifies this`rollbacks, this`outbox
      ensures var notMine := if name == RemoveTransferredFilesTarget then role == Source else role == Target;
              var lacksKey := (name == RestoreSourceIdentity && (!config.hasKeypair || host.keyFile.None?))
                              || (name == ReaddAuthorizedVoterSource && !config.hasVoteKeypair);
              && rollbacks == old(rollbacks) + (if notMine || lacksKey then [] else [name])
              && outbox == old(outbox) + (if (notMine || lacksKey) && open then [RollbackDone(name, notMine)] else [])
    {
      match name
      case RestoreSourceIdentity =>
        if role != Source {
          Send(RollbackDone(name, true));
        } else if !config.hasKeypair || host.keyFile.None? {
          Send(RollbackDone(name, false));
        } else {
          rollbacks := rollbacks + [name];
        }
      case ReaddAuthorizedVoterSource =>
        if role != Source {
          Send(RollbackDone(name, true));
        } else if !config.hasVoteKeypair {
          Send(RollbackDone(name, false));
        } else {
          rollbacks := rollbacks + [name];
        }
      case RemoveTransferredFilesTarget =>
        if role != Target {
          Send(RollbackDone(name, true));
        } else {
          rollbacks := rollbacks + [name];
        }
      case VerifySourceVoting =>
        if role != Source {
          Send(RollbackDone(name, true));
        } else {
          rollbacks := rollbacks + [name];
        }
    }

    /** What a rollback step does to the server. */
    method RunRollbackStep(name: RollbackName, ok: bool, took: bool)
      modifies this`host
      ensures host == UndoOn(old(host), name, ok, took)
    {
      match name
      case RestoreSourceIdentity =>
        if ok || took { host := host.(staked := true); }
      case ReaddAuthorizedVoterSource =>
        if ok || took { host := host.(voter := true); }
      case RemoveTransferredFilesTarget =>
        if ok || took { host := host.(receivedKey := None); }
        if ok { host := host.(towerFile := None); }
      case VerifySourceVoting =>
    }

    /** A rollback handler ends: its effect, if it took, and its result. */
    method OnRollbackEnd(j: nat, ok: bool, took: bool)
      requires Follows() && j < |rollbacks|
      modifies this`host, this`rollbacks, this`outbox, this`acts, this`system
      ensures Follows() && Undone(role, old(host), host)
      ensures acts == old(acts) + [RunRollback(role, j, ok, took)]
      ensures rollbacks == old(rollbacks)[..j] + old(rollbacks)[j + 1..]
      ensures outbox == old(outbox) + if open then [RollbackDone(old(rollbacks[j]), ok)] else []
      ensures match old(rollbacks[j])
              case RestoreSourceIdentity =>
                host == old(host).(staked := host.staked) && (ok ==> host.staked)
              case ReaddAuthorizedVoterSource =>
                host == old(host).(voter := host.voter) && (ok ==> host.voter)
              case RemoveTransferredFilesTarget =>
                && host == old(host).(receivedKey := host.receivedKey, towerFile := host.towerFile)
                && (ok ==> host.receivedKey == None && host.towerFile == None)
              case VerifySourceVoting => host == old(host)
      ensures !ok && !took ==> host == old(host)
    {
      hide Leads, Enabled, Next, UndoOn, Undone;
      RollbackIsAction(config, system, role, j, ok, took);
      var name := rollbacks[j];
      UndoneBy(role, host, name, ok, took);
      DoneMeansDone(host, name, ok, took);
      RunRollbackStep(name, ok, took);
      rollbacks := rollbacks[..j] + rollbacks[j + 1..];
      Send(RollbackDone(name, ok));
      Did(RunRollback(role, j, ok, took));
    }

    /** The handler of a message that has been read. */
    method Handle(m: HubMsg)
      requires OwnRollbacks(role, rollbacks)
      modifies this`handlers, this`started, this`rollbacks, this`outbox, this`peerVotingConfirmed, pendingPayloads
      ensures View() == AgentHandles(config, role, old(View()).(toAgent := [m] + inbox)) && OwnRollbacks(role, rollbacks)
      ensures handlers == old(handlers) + if m.Execute? then [Handler(m.step, Begun)] else []
      ensures pendingPayloads.entries == old(pendingPayloads.entries) + Queued(config, [m])
      ensures old(peerVotingConfirmed) ==> peerVotingConfirmed
    {
      hide KindAt, Refuses, Queued;
      QueuedOne(config, m);
      assert ([m] + inbox)[1..] == inbox;
      match m
      case RunPreflight =>
      case RollbackFlag =>
      case PeerConnected(_) =>
      case SessionCancelled =>
      case Execute(step) =>
        handlers := handlers + [Handler(step, Begun)];
        started := started + [step];
      case ExecuteRollback(name) =>
        RefusesOthers(config, role, host, name);
        OnExecuteRollbackStep(name);
      case Relay(p) => OnRelayPayload(p);
    }

    /** One message of the hub is one action of the system. */
    method OnMessage()
      requires Follows() && inbox != []
      modifies this, pendingPayloads
      ensures Follows() && host == old(host) && origin == old(origin) && inbox == old(inbox)[1..]
      ensures handlers == old(handlers) + if old(inbox[0]).Execute? then [Handler(old(inbox[0]).step, Begun)] else []
      ensures old(acts) <= acts && taken == old(taken) + [old(inbox[0])]
      ensures pendingPayloads.entries == old(pendingPayloads.entries) + Queued(config, [old(inbox[0])])
      ensures old(peerVotingConfirmed) ==> peerVotingConfirmed
    {
      hide Leads, Enabled, Next, AgentHandles, Queued;
      TakeIsAction(config, system, role);
      var m := inbox[0];
      assert inbox == [m] + inbox[1..];
      inbox := inbox[1..];
      taken := taken + [m];
      Handle(m);
      Did(AgentReceive(role));
    }

    /** The handlers that were there are still there, and only rollback handlers have
        touched the server. */
    ghost predicate Undisturbed(before: seq<Handler>, server: Host)
      reads this
    {
      before <= handlers && Undone(role, server, host)
    }

    /** A move of the hub, the peer or the connection: the process sees its socket. */
    method OthersMove(a: Action)
      requires Follows() && Enabled(system, a) && OfOthers(role, a)
      modifies this`system, this`acts, this`inbox, this`outbox, this`open
      ensures Follows() && acts == old(acts) + [a]
      ensures !(a.Disconnect? && a.role == role) ==> old(inbox) <= inbox && open == old(open)
    {
      hide Leads, Enabled, Next, OfOthers;
      OthersOnlySend(config, system, a, role);
      var around := Next(config, system, a);
      inbox, outbox, open := At(around, role).toAgent, At(around, role).toHub, At(around, role).open;
      Did(a);
    }

    /** The system turns to `a` while the process waits. A move that cannot be made is
        passed over, and so are those of the step handlers, which make their own. */
    method OnTurn(a: Action)
      requires Follows()
      modifies this, pendingPayloads
      ensures Follows() && Undisturbed(old(handlers), old(host)) && origin == old(origin)
      ensures old(acts) <= acts && old(taken) <= taken && (old(peerVotingConfirmed) ==> peerVotingConfirmed)
      ensures pendingPayloads.entries == old(pendingPayloads.entries) + Queued(config, taken[|old(taken)|..])
    {
      hide Leads, Enabled, Next, Queued, OfOthers;
      NothingQueued(config);
      assert taken[|taken|..] == [];
      if !Enabled(system, a) || OfHandlers(role, a) {
        return;
      }
      if a == AgentReceive(role) {
        CanTake(system, role);
        OnMessage();
      } else if a.RunRollback? && a.role == role {
        CanEndRollback(system, a);
        OnRollbackEnd(a.i, a.ok, a.took);
      } else {
        IsOfOthers(role, a);
        OthersMove(a);
      }
    }

    /** All turns of a wait, in order. */
    method OnTurns(turns: seq<Action>)
      requires Follows()
      modifies this, pendingPayloads
      ensures Follows() && Undisturbed(old(handlers), old(host)) && origin == old(origin)
      ensures old(acts) <= acts && old(taken) <= taken && (old(peerVotingConfirmed) ==> peerVotingConfirmed)
      ensures pendingPayloads.entries == old(pendingPayloads.entries) + Queued(config, taken[|old(taken)|..])
    {
      hide Leads, Queued;
      NothingQueued(config);
      assert taken[|taken|..] == [];
      for k := 0 to |turns|
        invariant Follows() && Undisturbed(old(handlers), old(host)) && origin == old(origin)
        invariant old(acts) <= acts && old(taken) <= taken && (old(peerVotingConfirmed) ==> peerVotingConfirmed)
        invariant pendingPayloads.entries == old(pendingPayloads.entries) + Queued(config, taken[|old(taken)|..])
      {
        ghost var before := taken;
        OnTurn(turns[k]);
        QueuedConcat(config, before[|old(taken)|..], taken[|before|..]);
        assert taken[|old(taken)|..] == before[|old(taken)|..] + taken[|before|..];
      }
    }

    // ---------- Step handlers ----------

    /** Handler `i` runs step `k` and has got as far as `pc`. */
    ghost predicate InStep(i: nat, k: int, pc: Pc)
      reads this, pendingPayloads
    {
      Follows() && i < |handlers| && handlers[i] == Handler(k, pc)
    }

    /** The fields after a piece, of which this is the action. */
    method DonePiece(i: nat, ch: Choice)
      requires Leads(config, origin, acts, system) && At(system, role).up && OwnRollbacks(role, rollbacks)
      requires i < |At(system, role).handlers| && At(system, role).handlers[i].pc in {Begun, GatePassed}
      requires |ch.nonce| == NONCE_LENGTH
      requires View() == AfterPiece(config, role, At(system, role), i, ch)
      modifies this`acts, this`system
      ensures Follows() && acts == old(acts) + [RunBody(role, i, ch)]
    {
      hide Enabled, Next, Leads, AfterPiece;
      PieceIsAction(config, system, role, i, ch);
      Did(RunBody(role, i, ch));
    }

    method Settle(i: nat, pc: Pc)
      requires i < |handlers|
      modifies this`handlers
      ensures handlers == old(handlers)[i := old(handlers)[i].(pc := pc)]
    {
      handlers := handlers[i := handlers[i].(pc := pc)];
    }

    /** One pause of a waiting handler. */
    method Sleep(pause: Pause) returns (now: int)
      requires Follows()
      modifies this, pendingPayloads
      ensures Follows() && Undisturbed(old(handlers), old(host)) && origin == old(origin) && now == pause.now
      ensures old(acts) <= acts && old(taken) <= taken && (old(peerVotingConfirmed) ==> peerVotingConfirmed)
      ensures pendingPayloads.entries == old(pendingPayloads.entries) + Queued(config, taken[|old(taken)|..])
    {
      hide Leads, Queued;
      OnTurns(pause.turns);
      now := pause.now;
    }

    /** One round: a round that finds nothing is one action; one that finds is left
        to the caller. */
    method PollOnce(i: nat, want: Kind, ch: Choice) returns (found: Option<Sealed>)
      requires want in {TowerKind, IdentityKind} && role == Target && |ch.nonce| == NONCE_LENGTH && !ch.late
      requires InStep(i, StepFor(want), Begun)
      modifies this`acts, this`system, pendingPayloads
      ensures (found, pendingPayloads.entries) == Scan(TheReader(config), old(pendingPayloads.entries), want)
      ensures old(acts) <= acts
      ensures if found.None? then InStep(i, StepFor(want), Begun)
              else Stands(View().(queue := old(pendingPayloads.entries)))
    {
      hide Scan, Leads, AfterPiece;
      found := pendingPayloads.ScanOnce(TheReader(config), want);
      if found.None? {
        NothingFound(config, At(system, role), i, ch, want);
        DonePiece(i, ch);
      }
    }

    /** Of what was queued at first, `q`, and has come since message `from`, a poll after
        message `last` found nothing wanted, and what it left has only been added to. */
    ghost predicate Swept(q: seq<Sealed>, want: Kind, from: nat, last: nat)
      reads this, pendingPayloads
    {
      && from <= last <= |taken|
      && NoneWanted(TheReader(config), q + Queued(config, taken[from..last]), want)
      && pendingPayloads.entries ==
         Kept(TheReader(config), q + Queued(config, taken[from..last])) + Queued(config, taken[last..])
    }

    /** One round of the loop: it looks at everything queued so far at once. */
    method TakeRound(i: nat, want: Kind, ch: Choice, ghost q: seq<Sealed>, ghost from: nat, ghost last: nat)
      returns (found: Option<Sealed>)
      requires want in {TowerKind, IdentityKind} && role == Target && |ch.nonce| == NONCE_LENGTH && !ch.late
      requires InStep(i, StepFor(want), Begun) && from <= |taken|
      requires Swept(q, want, from, last) || (from == |taken| && pendingPayloads.entries == q)
      modifies this`acts, this`system, pendingPayloads
      ensures old(acts) <= acts
      ensures found.None? ==> InStep(i, StepFor(want), Begun) && Swept(q, want, from, |taken|)
      ensures found.Some? ==>
                && Stands(View().(queue := old(pendingPayloads.entries)))
                && Scan(TheReader(config), old(pendingPayloads.entries), want) == (found, pendingPayloads.entries)
                && Scan(TheReader(config), q + Queued(config, taken[from..]), want) == (found, pendingPayloads.entries)
    {
      hide Kept, First, Scan, KindAt, Queued, Leads, NoneWanted;
      ghost var r := TheReader(config);
      if Swept(q, want, from, last) {
        SeenSoFar(config, q, taken[from..last], taken[last..], want, pendingPayloads.entries);
        assert taken[from..last] + taken[last..] == taken[from..];
      } else {
        NothingQueued(config);
        assert taken[from..] == [] && q + [] == q;
      }
      ScanConserves(r, q + Queued(config, taken[from..]), want);
      found := PollOnce(i, want, ch);
      if found.None? {
        NothingQueued(config);
        assert taken[|taken|..] == [] && taken[from..|taken|] == taken[from..];
      }
    }

    /** The polling loop. Whatever the timing and whatever else the system does in the
        pauses, what it takes and leaves is one scan of everything that had been queued
        by then; a timeout comes only after the deadline, with nothing wanted among what
        had come by the last poll, after message `last`. Every round that finds nothing
        is one action; the round that finds is left to the caller, who is told the queue
        it scanned. */
    method TakePendingOfKind(i: nat, want: Kind, w: World)
      returns (result: TakeResult, slept: nat, ghost scanned: seq<Sealed>, ghost last: nat)
      requires want in {TowerKind, IdentityKind} && role == Target && |w.outcome.nonce| == NONCE_LENGTH
      requires InStep(i, StepFor(want), Begun)
      modifies this, pendingPayloads
      ensures slept <= |w.pauses| && origin == old(origin) && Undisturbed(old(handlers), old(host))
      ensures Stands(View().(queue := scanned)) && old(acts) <= acts && old(taken) <= taken
      ensures !result.Taken? ==> scanned == pendingPayloads.entries
      ensures result.Taken? ==>
                && Scan(TheReader(config), scanned, want) == (Some(result.payload), pendingPayloads.entries)
                && Scan(TheReader(config), old(pendingPayloads.entries) + Queued(config, taken[|old(taken)|..]), want)
                   == (Some(result.payload), pendingPayloads.entries)
      ensures result.TimedOut? ==>
                slept > 0 && w.pauses[slept - 1].now >= w.start + TAKE_TIMEOUT_MS
                && Swept(old(pendingPayloads.entries), want, |old(taken)|, last)
      ensures result.StillWaiting? ==> slept == |w.pauses|
    {
      hide Kept, First, Scan, KindAt, Queued, Leads, NoneWanted, Swept;
      ghost var q, from := pendingPayloads.entries, |taken|;
      var deadline := w.start + TAKE_TIMEOUT_MS;
      var now := w.start;
      slept, last := 0, from;
      while now < deadline
        invariant slept <= |w.pauses| && origin == old(origin) && Undisturbed(old(handlers), old(host))
        invariant InStep(i, StepFor(want), Begun) && old(acts) <= acts && old(taken) <= taken
        invariant if slept == 0 then from == |taken| && pendingPayloads.entries == q else Swept(q, want, from, last)
        invariant now == if slept == 0 then w.start else w.pauses[slept - 1].now
        decreases |w.pauses| - slept
      {
        scanned := pendingPayloads.entries;
        var found := TakeRound(i, want, w.outcome.(late := false), q, from, last);
        if found.Some? {
          return Taken(found.value), slept, scanned, last;
        }
        last := |taken|;
        if slept == |w.pauses| {
          return StillWaiting, slept, pendingPayloads.entries, last;
        }
        now := SleepSwept(w.pauses[slept], q, want, from, last);
        slept := slept + 1;
      }
      return TimedOut, slept, pendingPayloads.entries, last;
    }

    /** A pause between two rounds. */
    method SleepSwept(pause: Pause, ghost q: seq<Sealed>, ghost want: Kind, ghost from: nat, ghost last: nat)
      returns (now: int)
      requires Follows() && Swept(q, want, from, last) && last == |taken|
      modifies this, pendingPayloads
      ensures Follows() && Undisturbed(old(handlers), old(host)) && origin == old(origin) && now == pause.now
      ensures old(acts) <= acts && old(taken) <= taken && Swept(q, want, from, last)
    {
      hide Leads, Queued, Kept, NoneWanted;
      NothingQueued(config);
      assert taken[last..] == [];
      ghost var kept := pendingPayloads.entries;
      assert kept == Kept(TheReader(config), q + Queued(config, taken[from..last]));
      now := Sleep(pause);
      assert taken[from..last] == old(taken)[from..last];
    }

    /** The deadline has passed: the handler fails. */
    method GiveUp(i: nat, k: int, ch: Choice)
      requires InStep(i, k, Begun) && |ch.nonce| == NONCE_LENGTH
      requires role == Target ==> k in {4, 5} || (k == 6 && !config.skipQuietGate)
      requires role == Source ==> k == 9 && !peerVotingConfirmed
      modifies this`handlers, this`acts, this`system
      ensures InStep(i, k, Failing) && old(acts) <= acts
    {
      hide Leads, AfterPiece;
      DeadlinePassed(config, role, At(system, role), i, ch.(late := true));
      Settle(i, Failing);
      DonePiece(i, ch.(late := true));
    }

    /** One poll of the cluster. */
    method GateRound(i: nat, source: string, answer: Poll, ch: Choice) returns (quiet: bool)
      requires role == Target && !config.skipQuietGate && |ch.nonce| == NONCE_LENGTH
      requires InStep(i, 6, Begun) && host.keyPathSet && host.knownPubkey == Some(source)
      modifies this`handlers, this`acts, this`system
      ensures (quiet <==> ShowsQuiet(answer, source)) && old(acts) <= acts
      ensures InStep(i, 6, if quiet then GatePassed else Begun)
    {
      hide Leads, AfterPiece, FindValidator;
      GatePolled(config, At(system, role), i, ch.(late := false, poll := answer));
      quiet := false;
      if answer.Returned? {
        if answer.validators.None? {
          quiet := true;
        } else {
          var found := FindValidator(answer.validators.value, source);
          quiet := found.None? || found.value.delinquent == Some(true);
        }
      }
      Settle(i, if quiet then GatePassed else Begun);
      DonePiece(i, ch.(late := false, poll := answer));
    }

    /** The handler is over, or waits and the world has no more pauses for it. */
    ghost predicate Ran(i: nat, k: int, w: World, used: nat)
      reads this, pendingPayloads
    {
      && used <= |w.pauses| && Follows()
      && i < |handlers| && handlers[i].step == k
      && (handlers[i].pc in {Finished, Failing} || (handlers[i].pc == Begun && used == |w.pauses|))
    }

    /** Step 4 on the target: nothing is stored but a tower that has come. */
    method ReceiveTowerFile(i: nat, w: World) returns (used: nat)
      requires role == Target && InStep(i, 4, Begun) && |w.outcome.nonce| == NONCE_LENGTH
      modifies this, pendingPayloads
      ensures Ran(i, 4, w, used) && origin == old(origin) && old(acts) <= acts
      ensures handlers[i].pc != Finished ==> Undone(role, old(host), host)
      ensures handlers[i].pc == Finished ==>
                exists p :: Came(old(pendingPayloads.entries), old(taken), TowerKind, p)
                            && ReceiveTower(config.suite, config.sessionKey, p).Ok?
                            && host.towerFile == Some(ReceiveTower(config.suite, config.sessionKey, p).value.content)
    {
      hide Leads, Scan, ReceiveTower, AfterPiece, Queued, NoneWanted, KindAt, Swept;
      var result, slept, scanned, last := TakePendingOfKind(i, TowerKind, w);
      used := slept;
      match result
      case StillWaiting =>
      case TimedOut =>
        GiveUp(i, 4, w.outcome);
      case Taken(p) =>
        StoreTower(i, p, scanned, w.outcome.(late := false));
        assert Came(old(pendingPayloads.entries), old(taken), TowerKind, p);
    }

    /** What is done with the tower the last round found. */
    method StoreTower(i: nat, p: Sealed, ghost scanned: seq<Sealed>, ch: Choice)
      requires role == Target && |ch.nonce| == NONCE_LENGTH && !ch.late
      requires Stands(View().(queue := scanned)) && i < |handlers| && handlers[i] == Handler(4, Begun)
      requires Scan(TheReader(config), scanned, TowerKind) == (Some(p), pendingPayloads.entries)
      modifies this`handlers, this`host, this`acts, this`system
      ensures Follows() && old(acts) <= acts
      ensures var received := ReceiveTower(config.suite, config.sessionKey, p);
              if received.Err? || !ch.ok
              then handlers == old(handlers)[i := Handler(4, Failing)] && host == old(host)
              else handlers == old(handlers)[i := Handler(4, Finished)]
                   && host == old(host).(towerFile := Some(received.value.content))
    {
      hide Leads, Scan, ReceiveTower, AfterPiece;
      TowerTaken(config, At(system, role), i, ch, p, pendingPayloads.entries);
      var received := ReceiveTower(config.suite, config.sessionKey, p);
      if received.Err? || !ch.ok {
        Settle(i, Failing);
      } else {
        host := host.(towerFile := Some(received.value.content));
        Settle(i, Finished);
      }
      DonePiece(i, ch);
    }

    /** Of the payloads queued then or since, `p` is the one a scan finds. */
    ghost predicate Came(q: seq<Sealed>, before: seq<HubMsg>, want: Kind, p: Sealed)
      reads this
    {
      before <= taken && Scan(TheReader(config), q + Queued(config, taken[|before|..]), want).0 == Some(p)
    }

    /** Step 5 on the target: nothing is stored but a key that has come, and with it
        the public key it declared. */
    method ReceiveKeypair(i: nat, w: World) returns (used: nat)
      requires role == Target && InStep(i, 5, Begun) && |w.outcome.nonce| == NONCE_LENGTH
      modifies this, pendingPayloads
      ensures Ran(i, 5, w, used) && origin == old(origin) && old(acts) <= acts
      ensures handlers[i].pc != Finished ==> Undone(role, old(host), host)
      ensures handlers[i].pc == Finished ==>
                exists p :: Came(old(pendingPayloads.entries), old(taken), IdentityKind, p)
                            && ReceiveIdentity(config.suite, config.sessionKey, p).Ok?
                            && var key := ReceiveIdentity(config.suite, config.sessionKey, p).value;
                               host.receivedKey == Some(key.secret) && host.knownPubkey == Some(key.pubkey) && host.keyPathSet
    {
      hide Leads, Scan, ReceiveIdentity, AfterPiece, Queued, NoneWanted, KindAt, Swept;
      var result, slept, scanned, last := TakePendingOfKind(i, IdentityKind, w);
      used := slept;
      match result
      case StillWaiting =>
      case TimedOut =>
        GiveUp(i, 5, w.outcome);
      case Taken(p) =>
        StoreKey(i, p, scanned, w.outcome.(late := false));
        assert Came(old(pendingPayloads.entries), old(taken), IdentityKind, p);
    }

    /** What is done with the identity the last round found. */
    method StoreKey(i: nat, p: Sealed, ghost scanned: seq<Sealed>, ch: Choice)
      requires role == Target && |ch.nonce| == NONCE_LENGTH && !ch.late
      requires Stands(View().(queue := scanned)) && i < |handlers| && handlers[i] == Handler(5, Begun)
      requires Scan(TheReader(config), scanned, IdentityKind) == (Some(p), pendingPayloads.entries)
      modifies this`handlers, this`host, this`acts, this`system
      ensures Follows() && old(acts) <= acts
      ensures var received := ReceiveIdentity(config.suite, config.sessionKey, p);
              if received.Err? || !ch.ok
              then handlers == old(handlers)[i := Handler(5, Failing)] && host == old(host)
              else handlers == old(handlers)[i := Handler(5, Finished)]
                   && host == old(host).(receivedKey := Some(received.value.secret), keyPathSet := true,
                                         knownPubkey := Some(received.value.pubkey))
    {
      hide Leads, Scan, ReceiveIdentity, AfterPiece;
      IdentityTaken(config, At(system, role), i, ch, p, pendingPayloads.entries);
      var received := ReceiveIdentity(config.suite, config.sessionKey, p);
      if received.Err? || !ch.ok {
        Settle(i, Failing);
      } else {
        host := host.(receivedKey := Some(received.value.secret), keyPathSet := true,
                      knownPubkey := Some(received.value.pubkey));
        Settle(i, Finished);
      }
      DonePiece(i, ch);
    }

    /** The gate lets the target pass only on a poll, begun before the deadline, that
        passes its test, and the first such; it fails only when none of the polls did. */
    method WaitForSourceQuiet(i: nat, source: string, w: World) returns (result: GateResult, used: nat)
      requires role == Target && !config.skipQuietGate && |w.outcome.nonce| == NONCE_LENGTH
      requires InStep(i, 6, Begun) && host.keyPathSet && host.knownPubkey == Some(source)
      modifies this, pendingPayloads
      ensures used <= |w.pauses| && origin == old(origin) && Undone(role, old(host), host) && old(acts) <= acts
      ensures forall k :: 0 <= k < used ==> !ShowsQuiet(PollAt(w, k), source)
      ensures result.Quiet? ==>
                && ShowsQuiet(PollAt(w, used), source)
                && (if used == 0 then w.start else w.pauses[used - 1].now) < w.start + SOURCE_QUIET_TIMEOUT_MS
      ensures result.StillActive? ==> used > 0 && w.pauses[used - 1].now >= w.start + SOURCE_QUIET_TIMEOUT_MS
      ensures result.StillLooking? ==> used == |w.pauses| && !ShowsQuiet(PollAt(w, used), source)
      ensures InStep(i, 6, match result case Quiet => GatePassed case StillActive => Failing case StillLooking => Begun)
    {
      hide Leads, AfterPiece, Queued, FindValidator, ShowsQuiet;
      var deadline := w.start + SOURCE_QUIET_TIMEOUT_MS;
      var now := w.start;
      used := 0;
      while now < deadline
        invariant used <= |w.pauses| && origin == old(origin) && Undone(role, old(host), host) && old(acts) <= acts
        invariant InStep(i, 6, Begun)
        invariant now == if used == 0 then w.start else w.pauses[used - 1].now
        invariant forall k :: 0 <= k < used ==> !ShowsQuiet(PollAt(w, k), source)
        decreases |w.pauses| - used
      {
        var quiet := GateRound(i, source, PollAt(w, used), w.outcome);
        if quiet {
          return Quiet, used;
        }
        if used == |w.pauses| {
          return StillLooking, used;
        }
        now := Sleep(w.pauses[used]);
        used := used + 1;
      }
      GiveUp(i, 6, w.outcome);
      return StillActive, used;
    }

    /** A validator command: its effect, if it took, and its outcome. */
    method RunCommand(i: nat, ch: Choice, after: Host)
      requires i < |handlers|
      modifies this`handlers, this`host
      ensures handlers == old(handlers)[i := old(handlers)[i].(pc := Ended(ch.ok))]
      ensures host == if ch.ok || ch.took then after else old(host)
    {
      if ch.ok || ch.took {
        host := after;
      }
      Settle(i, Ended(ch.ok));
    }

    /** The target's own part of step 6 before the command: the key must have come, and
        the gate be passed unless it is skipped. */
    method PassGate(i: nat, w: World) returns (passed: bool, used: nat)
      requires role == Target && InStep(i, 6, Begun) && |w.outcome.nonce| == NONCE_LENGTH
      modifies this, pendingPayloads
      ensures used <= |w.pauses| && origin == old(origin) && Undone(role, old(host), host) && old(acts) <= acts
      ensures !passed ==> Ran(i, 6, w, used) && handlers[i].pc != Finished
      ensures old(host.keyPathSet && host.knownPubkey.Some? && (config.skipQuietGate || PollPassed(w, 0))) ==> passed
      ensures passed ==> InStep(i, 6, GatePassed) && (config.skipQuietGate || PollPassed(w, used))
    {
      hide Leads, AfterPiece, Queued, ShowsQuiet;
      if host.keyPathSet && host.knownPubkey.Some? && !config.skipQuietGate {
        var result;
        result, used := WaitForSourceQuiet(i, host.knownPubkey.value, w);
        return result.Quiet?, used;
      }
      passed, used := host.keyPathSet && host.knownPubkey.Some?, 0;
      GateRefused(config, At(system, role), i, w.outcome);
      Settle(i, if passed then GatePassed else Failing);
      DonePiece(i, w.outcome);
    }

    /** Poll `k` passed the gate's test for the key that step 5 brought. */
    ghost predicate PollPassed(w: World, k: nat)
      reads this
    {
      host.knownPubkey.Some? && ShowsQuiet(PollAt(w, k), host.knownPubkey.value)
    }

    /** Step 6: only past the gate, or with the gate skipped, the staked identity. */
    method Activate(i: nat, w: World) returns (used: nat)
      requires role == Target && InStep(i, 6, Begun) && |w.outcome.nonce| == NONCE_LENGTH
      modifies this, pendingPayloads
      ensures Ran(i, 6, w, used) && origin == old(origin) && old(acts) <= acts
      ensures Undone(role, old(host), host)
              || (Undone(role, old(host).(staked := true), host) && (config.skipQuietGate || PollPassed(w, used)))
      ensures handlers[i].pc == Finished ==> Undone(role, old(host).(staked := true), host)
      ensures old(host.keyPathSet && host.knownPubkey.Some? && (config.skipQuietGate || PollPassed(w, 0))) && w.outcome.ok ==>
                handlers[i].pc == Finished
    {
      hide Leads, AfterPiece, Queued, ShowsQuiet;
      var passed;
      passed, used := PassGate(i, w);
      if passed {
        OnTurns(w.during);
        SetIdentity(i, w.outcome);
      }
    }

    /** The command of step 6. */
    method SetIdentity(i: nat, ch: Choice)
      requires role == Target && InStep(i, 6, GatePassed) && |ch.nonce| == NONCE_LENGTH
      modifies this`handlers, this`host, this`acts, this`system
      ensures Follows() && i < |handlers| && handlers[i] == Handler(6, Ended(ch.ok)) && old(acts) <= acts
      ensures host == if ch.ok || ch.took then old(host).(staked := true) else old(host)
    {
      hide Leads, AfterPiece;
      Activated(config, At(system, role), i, ch);
      RunCommand(i, ch, host.(staked := true));
      DonePiece(i, ch);
    }

    /** The wait of step 9: over when the confirmation is in or the deadline passed. */
    method WaitForConfirmation(i: nat, w: World) returns (over: bool, used: nat)
      requires role == Source && config.hasKeypair && |w.outcome.nonce| == NONCE_LENGTH
      requires InStep(i, 9, Begun)
      modifies this, pendingPayloads
      ensures used <= |w.pauses| && origin == old(origin) && Undone(role, old(host), host) && old(acts) <= acts
      ensures InStep(i, 9, Begun) && (old(peerVotingConfirmed) ==> over && peerVotingConfirmed)
      ensures over && !peerVotingConfirmed ==> used > 0 && w.pauses[used - 1].now >= w.start + VOTING_CONFIRMED_TIMEOUT_MS
      ensures !over ==> used == |w.pauses|
    {
      hide Leads, AfterPiece, Queued;
      used := 0;
      var deadline := w.start + VOTING_CONFIRMED_TIMEOUT_MS;
      var now := w.start;
      while now < deadline && !peerVotingConfirmed
        invariant used <= |w.pauses| && origin == old(origin) && Undone(role, old(host), host) && old(acts) <= acts
        invariant InStep(i, 9, Begun) && (old(peerVotingConfirmed) ==> peerVotingConfirmed)
        invariant now == if used == 0 then w.start else w.pauses[used - 1].now
        decreases |w.pauses| - used
      {
        WipePiece(config, At(system, role), i, w.outcome.(late := false));
        DonePiece(i, w.outcome.(late := false));
        if used == |w.pauses| {
          return false, used;
        }
        now := Sleep(w.pauses[used]);
        used := used + 1;
      }
      return true, used;
    }

    /** The wipe itself, with the confirmation in; without `--keypair` it fails. */
    method Wipe(i: nat, ch: Choice)
      requires role == Source && InStep(i, 9, Begun) && |ch.nonce| == NONCE_LENGTH
      requires config.hasKeypair ==> peerVotingConfirmed
      modifies this`handlers, this`host, this`acts, this`system
      ensures Follows() && i < |handlers| && handlers[i].step == 9 && handlers[i].pc in {Finished, Failing} && old(acts) <= acts
      ensures host == old(host) || (config.hasKeypair && host == old(host).(keyFile := None))
      ensures handlers[i].pc == Finished ==> host == old(host).(keyFile := None)
      ensures config.hasKeypair && old(host.keyFile.Some?) && ch.ok ==> handlers[i].pc == Finished
    {
      hide Leads, AfterPiece;
      WipePiece(config, At(system, role), i, ch);
      if !config.hasKeypair || host.keyFile.None? {
        Settle(i, Failing);
      } else {
        RunCommand(i, ch, host.(keyFile := None));
      }
      DonePiece(i, ch);
    }

    /** The confirmation is in and what happens before the wipe has happened, or the
        handler gave up or still waits. */
    method AwaitConfirmation(i: nat, w: World) returns (confirmed: bool, used: nat)
      requires role == Source && config.hasKeypair && |w.outcome.nonce| == NONCE_LENGTH && InStep(i, 9, Begun)
      modifies this, pendingPayloads
      ensures used <= |w.pauses| && origin == old(origin) && Undone(role, old(host), host) && old(acts) <= acts
      ensures old(peerVotingConfirmed) ==> confirmed
      ensures confirmed ==> InStep(i, 9, Begun) && peerVotingConfirmed
      ensures !confirmed ==> Ran(i, 9, w, used) && handlers[i].pc != Finished
      ensures !confirmed && handlers[i].pc == Failing ==>
                used > 0 && w.pauses[used - 1].now >= w.start + VOTING_CONFIRMED_TIMEOUT_MS
    {
      hide Leads, AfterPiece, Queued;
      var over;
      over, used := WaitForConfirmation(i, w);
      if over && peerVotingConfirmed {
        OnTurns(w.during);
        return true, used;
      }
      if over {
        GiveUp(i, 9, w.outcome);
      }
      return false, used;
    }

    /** Step 9: wipe the key file, but only after the target's confirmation. */
    method WipeKeypair(i: nat, w: World) returns (used: nat)
      requires role == Source && InStep(i, 9, Begun) && |w.outcome.nonce| == NONCE_LENGTH
      modifies this, pendingPayloads
      ensures Ran(i, 9, w, used) && origin == old(origin) && old(acts) <= acts
      ensures Undone(role, old(host), host)
              || (peerVotingConfirmed && Undone(role, old(host).(keyFile := None), host))
      ensures handlers[i].pc == Finished ==> Undone(role, old(host).(keyFile := None), host)
      ensures old(config.hasKeypair && peerVotingConfirmed && host.keyFile.Some?) && w.outcome.ok ==> handlers[i].pc == Finished
      ensures handlers[i].pc == Failing && !peerVotingConfirmed && config.hasKeypair ==>
                used > 0 && w.pauses[used - 1].now >= w.start + VOTING_CONFIRMED_TIMEOUT_MS
    {
      hide Leads;
      used := 0;
      var confirmed := true;
      if config.hasKeypair {
        confirmed, used := AwaitConfirmation(i, w);
      }
      if confirmed {
        Wipe(i, w.outcome);
      }
    }

    /** Step 4 on the source: read the tower and send it sealed. */
    method SendTowerFile(i: nat, ch: Choice)
      requires role == Source && InStep(i, 4, Begun) && |ch.nonce| == NONCE_LENGTH
      modifies this`handlers, this`outbox, this`acts, this`system
      ensures Follows() && i < |handlers| && old(acts) <= acts
      ensures var pubkey := StakedPubkey(config, View());
              if pubkey.None? || !ch.ok || !open
              then handlers == old(handlers)[i := Handler(4, Failing)] && outbox == old(outbox)
              else handlers == old(handlers)[i := Handler(4, Finished)]
                   && outbox == old(outbox)
                      + [Payload(SendTower(config.suite, config.sessionKey, ch.nonce, ch.content, pubkey.value))]
    {
      hide Leads, SendTower, StakedPubkey;
      var before := View();
      var pubkey := StakedPubkey(config, before);
      if pubkey.None? || !ch.ok || !open {
        Settle(i, Failing);
      } else {
        Send(Payload(SendTower(config.suite, config.sessionKey, ch.nonce, ch.content, pubkey.value)));
        Settle(i, Finished);
      }
      DonePiece(i, ch);
      StakedPubkeyOfHost(config, before, View());
    }

    /** Step 5 on the source: read the key and send it sealed. */
    method SendKeypair(i: nat, ch: Choice)
      requires role == Source && InStep(i, 5, Begun) && |ch.nonce| == NONCE_LENGTH
      modifies this`handlers, this`outbox, this`acts, this`system
      ensures Follows() && i < |handlers| && old(acts) <= acts
      ensures var pubkey := StakedPubkey(config, View());
              if pubkey.None? || !open
              then handlers == old(handlers)[i := Handler(5, Failing)] && outbox == old(outbox)
              else handlers == old(handlers)[i := Handler(5, Finished)]
                   && outbox == old(outbox)
                      + [Payload(SendIdentity(config.suite, config.sessionKey, ch.nonce, host.keyFile.value, pubkey.value))]
    {
      hide Leads, SendIdentity, DerivePubkey;
      var before := View();
      var pubkey := StakedPubkey(config, before);
      if pubkey.None? || !open {
        Settle(i, Failing);
      } else {
        Send(Payload(SendIdentity(config.suite, config.sessionKey, ch.nonce, host.keyFile.value, pubkey.value)));
        Settle(i, Finished);
      }
      DonePiece(i, ch);
      StakedPubkeyOfHost(config, before, View());
    }

    /** The look at the cluster's validator list. */
    method IsVoting(answer: Poll, pubkey: string) returns (voting: bool)
      ensures voting <==> ShowsVoting(answer, pubkey)
    {
      hide FindValidator;
      voting := false;
      if answer.Returned? && answer.validators.Some? {
        var found := FindValidator(answer.validators.value, pubkey);
        if found.Some? {
          var v := found.value;
          voting := v.delinquent == Some(false) && (if v.lastVote.Some? then v.lastVote.value else 0) > 0;
        }
      }
    }

    /** Step 8: the source is told exactly when the cluster's list shows the staked key
        voting and the socket is open. */
    method ConfirmVoting(i: nat, answer: Poll, ch: Choice)
      requires role == Target && InStep(i, 8, Begun) && |ch.nonce| == NONCE_LENGTH
      modifies this`handlers, this`outbox, this`acts, this`system
      ensures Follows() && i < |handlers| && old(acts) <= acts
      ensures var pubkey := VotingKey(host, ch.address);
              if ShowsVoting(answer, pubkey) && open
              then handlers == old(handlers)[i := Handler(8, Finished)]
                   && outbox == old(outbox) + [Payload(SendVotingConfirmed(config.suite, config.sessionKey, ch.nonce, pubkey))]
              else handlers == old(handlers)[i := Handler(8, Failing)] && outbox == old(outbox)
    {
      hide Leads, SendVotingConfirmed, ShowsVoting, AfterPiece;
      VotePiece(config, At(system, role), i, ch.(poll := answer));
      var pubkey := if host.knownPubkey.Some? then host.knownPubkey.value else ch.address;
      var voting := IsVoting(answer, pubkey);
      if !voting || !open {
        Settle(i, Failing);
      } else {
        Send(Payload(SendVotingConfirmed(config.suite, config.sessionKey, ch.nonce, pubkey)));
        Settle(i, Finished);
      }
      DonePiece(i, ch.(poll := answer));
    }

    /** The steps that are one command, and those that are none of this agent's. */
    method RunOneCommand(i: nat, ghost k: int, ch: Choice)
      requires InStep(i, k, Begun) && |ch.nonce| == NONCE_LENGTH
      requires k !in (if role == Source then {4, 5, 9} else {4, 5, 6, 7, 8})
      modifies this`handlers, this`host, this`acts, this`system
      ensures Follows() && i < |handlers| && handlers[i].step == k && handlers[i].pc in {Finished, Failing} && old(acts) <= acts
      ensures host == old(host) || host == Commanded(role, k, old(host))
      ensures handlers[i].pc == Finished ==> host == Commanded(role, k, old(host))
      ensures handlers[i].pc == Finished && role == Source && k == 2 ==> host == old(host).(staked := false)
      ensures handlers[i].pc == Finished && role == Source && k == 3 ==> host == old(host).(voter := false)
      ensures role == Target || k !in {2, 3} ==> host == old(host)
      ensures handlers == old(handlers)[i := Handler(k, if role == Source && k in {1, 2, 3} && !ch.ok then Failing else Finished)]
    {
      hide Leads, AfterPiece;
      OneCommand(config, role, At(system, role), i, ch);
      var step := handlers[i].step;
      if role == Source && step in {1, 2, 3} {
        RunCommand(i, ch, Commanded(role, step, host));
      } else {
        Settle(i, Finished);
      }
      DonePiece(i, ch);
    }

    /** Step 7: the voter is added by the key that step 5 brought. */
    method AddVoter(i: nat, ch: Choice)
      requires role == Target && InStep(i, 7, Begun) && |ch.nonce| == NONCE_LENGTH
      modifies this`handlers, this`host, this`acts, this`system
      ensures Follows() && i < |handlers| && old(acts) <= acts
      ensures handlers[i] == Handler(7, if host.keyPathSet then Ended(ch.ok) else Failing)
      ensures host == if old(host.keyPathSet) && (ch.ok || ch.took) then old(host).(voter := true) else old(host)
    {
      hide Leads, AfterPiece;
      VoterPiece(config, At(system, role), i, ch);
      if !host.keyPathSet {
        Settle(i, Failing);
      } else {
        RunCommand(i, ch, host.(voter := true));
      }
      DonePiece(i, ch);
    }

    /** One report per handler, complete or failed as it ended; on a closed socket
        nothing is sent. */
    method Finish(i: nat)
      requires Follows() && i < |handlers| && handlers[i].pc in {Finished, Failing}
      modifies this`handlers, this`outbox, this`acts, this`system
      ensures Follows() && handlers == old(handlers)[..i] + old(handlers)[i + 1..]
      ensures outbox == old(outbox) + if !open then []
                                      else if old(handlers[i].pc) == Finished then [Done(old(handlers[i].step))]
                                      else [Broke(old(handlers[i].step), "")]
      ensures acts == old(acts) + [Report(role, i)]
    {
      hide Leads, Enabled, Next;
      ReportIsAction(config, system, role, i);
      var h := handlers[i];
      handlers := handlers[..i] + handlers[i + 1..];
      Send(if h.pc == Finished then Done(h.step) else Broke(h.step, ""));
      Did(Report(role, i));
    }

    /** The body of a step handler. */
    method RunStep(i: nat, k: int, w: World) returns (used: nat)
      requires InStep(i, k, Begun) && |w.outcome.nonce| == NONCE_LENGTH
      modifies this, pendingPayloads
      ensures Ran(i, k, w, used) && origin == old(origin) && old(acts) <= acts
    {
      hide Leads, ShowsVoting, StakedPubkey;
      used := 0;
      if role == Source && k == 9 {
        used := WipeKeypair(i, w);
      } else if role == Target && k == 4 {
        used := ReceiveTowerFile(i, w);
      } else if role == Target && k == 5 {
        used := ReceiveKeypair(i, w);
      } else if role == Target && k == 6 {
        used := Activate(i, w);
      } else {
        OnTurns(w.during);
        if role == Source && k == 4 {
          SendTowerFile(i, w.outcome);
        } else if role == Source && k == 5 {
          SendKeypair(i, w.outcome);
        } else if role == Target && k == 7 {
          AddVoter(i, w.outcome);
        } else if role == Target && k == 8 {
          ConfirmVoting(i, PollAt(w, 0), w.outcome);
        } else {
          RunOneCommand(i, k, w.outcome);
        }
      }
    }

    /** A whole run of a step handler, from its start to its report or to the end of the
        world's pauses: whatever the clock and the cluster say and whatever the hub, the
        peer and the connections do in its waits, all that happens is one sequence of
        actions of the system. */
    method ExecuteStep(i: nat, w: World) returns (over: bool)
      requires i < |handlers| && InStep(i, handlers[i].step, Begun) && |w.outcome.nonce| == NONCE_LENGTH
      modifies this, pendingPayloads
      ensures Follows() && origin == old(origin) && old(acts) <= acts
      ensures over ==> old(acts) < acts && acts[|acts| - 1] == Report(role, i)
      ensures !over ==> i < |handlers| && handlers[i] == old(handlers[i])
    {
      hide Leads;
      var used := RunStep(i, handlers[i].step, w);
      over := handlers[i].pc != Begun;
      if over {
        OnTurns(w.returning);
        Finish(i);
      }
    }
  }
}
