/** The whole migration as a transition system: the hub with its orchestrator, a FIFO
    channel each way to each agent, and two agents whose step handlers run
    asynchronously on their own validator and files. Command results, prompts, polls,
    clocks, lost connections and exits are the parameters of an action. */
module System {
  import opened Protocol
  import opened Base58
  import opened Envelope
  import opened PayloadQueue
  import opened OrchestratorSpec
  import opened HubGlue
  import opened QuietGate
  import opened VotingCheck

  /** Fixed for a run: the cipher suite and session key both agents derived, the
      staked key, whether the source was given `--keypair` and a vote-account keypair
      whose file is there, and the target's unsafe switch that skips the
      anti-dual-identity gate. */
  datatype Config = Config(
    suite: Suite,
    sessionKey: bytes,
    stakedKey: bytes,
    hasKeypair: bool,
    hasVoteKeypair: bool,
    skipQuietGate: bool)

  ghost predicate ValidConfig(c: Config) {
    Sound(c.suite) && |c.sessionKey| == KEY_LENGTH
  }

  function TheReader(c: Config): Reader {
    Reader(c.suite, c.sessionKey)
  }

  // ---------- State ----------

  /** Where a running step handler is: before its work, past the gate of step 6,
      done but not yet reported, or failed but not yet reported. */
  datatype Pc = Begun | GatePassed | Finished | Failing

  datatype Handler = Handler(step: int, pc: Pc)

  /** A server: its validator and the files the migration touches. */
  datatype Host = Host(
    staked: bool,
    voter: bool,
    keyFile: Option<bytes>,
    keyPathSet: bool,
    receivedKey: Option<bytes>,
    knownPubkey: Option<string>,
    towerFile: Option<bytes>)

  datatype Node = Node(
    up: bool,
    exited: bool,
    listening: bool,
    open: bool,
    toAgent: seq<HubMsg>,
    toHub: seq<AgentMsg>,
    handlers: seq<Handler>,
    rollbacks: seq<RollbackName>,
    started: seq<int>,
    queue: seq<Sealed>,
    peerVotingConfirmed: bool,
    host: Host)

  /** What has happened, oldest first. */
  datatype Happening =
    | StepDone(role: Role, step: int)
    | WentUnstaked
    | VotersRemoved
    | TowerRead(content: bytes)
    | TowerStored(content: bytes)
    | KeyStored(secret: bytes)
    | SourceQuiet(poll: Poll, pubkey: string)
    | WentStaked
    | VoterAdded
    | VotingSeen(poll: Poll, pubkey: string)
    | VotingSealed
    | KeyDestroyed

  datatype Sys = Sys(
    core: Core,
    source: Node,
    target: Node,
    hist: seq<Happening>,
    rolledBackAt: Option<int>)

  function At(s: Sys, r: Role): Node {
    if r == Source then s.source else s.target
  }

  function Put(s: Sys, r: Role, n: Node): Sys {
    if r == Source then s.(source := n) else s.(target := n)
  }

  function FreshNode(host: Host): Node {
    Node(true, false, false, true, [], [], [], [], [], [], false, host)
  }

  /** From `create`: a fresh orchestrator; the source is staked, votes and has the key file. */
  function Init(c: Config, createdAt: int): Sys {
    Sys(Fresh(createdAt),
        FreshNode(Host(true, true, Some(c.stakedKey), false, None, None, None)),
        FreshNode(Host(false, false, None, false, None, None, None)),
        [], None)
  }

  // ---------- Step bodies ----------

  /** How the outside world answers a body: did the command or prompt succeed; if it
      failed, did its effect happen all the same; has a waiting loop's deadline passed;
      what the cluster was found to say; what was read; a random nonce; the address the
      CLI is configured with. */
  datatype Choice = Choice(ok: bool, took: bool, late: bool, poll: Poll, content: bytes, nonce: bytes, address: string)

  datatype Effect = Effect(host: Host, queue: seq<Sealed>, sent: seq<AgentMsg>, pc: Pc, log: seq<Happening>)

  function Ended(ok: bool): Pc {
    if ok then Finished else Failing
  }

  function Only(n: Node, pc: Pc): Effect {
    Effect(n.host, n.queue, [], pc, [])
  }

  /** A validator command: its effect, if it took, and its result. */
  function Command(n: Node, ch: Choice, after: Host, what: Happening): Effect {
    if ch.ok || ch.took then Effect(after, n.queue, [], Ended(ch.ok), [what]) else Only(n, Failing)
  }

  /** Reading the staked key file and its public key, as steps 4 and 5 do on the source. */
  function StakedPubkey(c: Config, n: Node): Option<string> {
    if !c.hasKeypair || n.host.keyFile.None? then None
    else DerivePubkey(c.suite, n.host.keyFile.value)
  }

  function SourceBody(c: Config, n: Node, h: Handler, ch: Choice): Effect {
    if h.step == 1 then Only(n, Ended(ch.ok))
    else if h.step == 2 then Command(n, ch, n.host.(staked := false), WentUnstaked)
    else if h.step == 3 then Command(n, ch, n.host.(voter := false), VotersRemoved)
    else if h.step == 4 then
      var pubkey := StakedPubkey(c, n);
      if pubkey.None? || !ch.ok || !n.open then Only(n, Failing)
      else Effect(n.host, n.queue,
                  [Payload(SendTower(c.suite, c.sessionKey, ch.nonce, ch.content, pubkey.value))],
                  Finished, [TowerRead(ch.content)])
    else if h.step == 5 then
      var pubkey := StakedPubkey(c, n);
      if pubkey.None? || !n.open then Only(n, Failing)
      else Effect(n.host, n.queue,
                  [Payload(SendIdentity(c.suite, c.sessionKey, ch.nonce, n.host.keyFile.value, pubkey.value))],
                  Finished, [])
    else if h.step == 9 then
      if !c.hasKeypair then Only(n, Failing)
      else if !n.peerVotingConfirmed then Only(n, if ch.late then Failing else Begun)
      else if n.host.keyFile.None? then Only(n, Failing)
      else Command(n, ch, n.host.(keyFile := None), KeyDestroyed)
    else Only(n, Finished)
  }

  /** One round of the wait for the tower: past the deadline it fails unscanned. */
  function TakeTower(c: Config, n: Node, ch: Choice): Effect {
    if ch.late then Only(n, Failing) else
    var (found, rest) := Scan(TheReader(c), n.queue, TowerKind);
    match found
    case None => Effect(n.host, rest, [], Begun, [])
    case Some(p) =>
      match ReceiveTower(c.suite, c.sessionKey, p)
      case Err(_) => Effect(n.host, rest, [], Failing, [])
      case Ok(t) =>
        if !ch.ok then Effect(n.host, rest, [], Failing, [])
        else Effect(n.host.(towerFile := Some(t.content)), rest, [], Finished, [TowerStored(t.content)])
  }

  function TakeIdentity(c: Config, n: Node, ch: Choice): Effect {
    if ch.late then Only(n, Failing) else
    var (found, rest) := Scan(TheReader(c), n.queue, IdentityKind);
    match found
    case None => Effect(n.host, rest, [], Begun, [])
    case Some(p) =>
      match ReceiveIdentity(c.suite, c.sessionKey, p)
      case Err(_) => Effect(n.host, rest, [], Failing, [])
      case Ok(k) =>
        if !ch.ok then Effect(n.host, rest, [], Failing, [])
        else
          Effect(n.host.(receivedKey := Some(k.secret), keyPathSet := true, knownPubkey := Some(k.pubkey)),
                 rest, [], Finished, [KeyStored(k.secret)])
  }

  /** The key whose votes step 8 looks for: the source's, or without one the CLI's own. */
  function VotingKey(host: Host, address: string): string {
    if host.knownPubkey.Some? then host.knownPubkey.value else address
  }

  function TargetBody(c: Config, n: Node, h: Handler, ch: Choice): Effect {
    if h.step == 4 then TakeTower(c, n, ch)
    else if h.step == 5 then TakeIdentity(c, n, ch)
    else if h.step == 6 then
      if h.pc == GatePassed then Command(n, ch, n.host.(staked := true), WentStaked)
      else if !n.host.keyPathSet || n.host.knownPubkey.None? then Only(n, Failing)
      else if c.skipQuietGate then Only(n, GatePassed)
      else if ch.late then Only(n, Failing)
      else if ShowsQuiet(ch.poll, n.host.knownPubkey.value) then
        Effect(n.host, n.queue, [], GatePassed, [SourceQuiet(ch.poll, n.host.knownPubkey.value)])
      else Only(n, Begun)
    else if h.step == 7 then
      if !n.host.keyPathSet then Only(n, Failing)
      else Command(n, ch, n.host.(voter := true), VoterAdded)
    else if h.step == 8 then
      var pubkey := VotingKey(n.host, ch.address);
      if !ShowsVoting(ch.poll, pubkey) then Only(n, Failing)
      else if !n.open then Effect(n.host, n.queue, [], Failing, [VotingSeen(ch.poll, pubkey)])
      else
        Effect(n.host, n.queue,
               [Payload(SendVotingConfirmed(c.suite, c.sessionKey, ch.nonce, pubkey))],
               Finished, [VotingSeen(ch.poll, pubkey), VotingSealed])
    else Only(n, Finished)
  }

  function Body(c: Config, r: Role, n: Node, h: Handler, ch: Choice): Effect {
    if r == Source then SourceBody(c, n, h, ch) else TargetBody(c, n, h, ch)
  }

  // ---------- Actions ----------

  datatype Action =
    | HubCall(call: Call)
    | HubReceive(role: Role, now: int)
    | AgentReceive(role: Role)
    | RunBody(role: Role, i: nat, choice: Choice)
    | Report(role: Role, i: nat)
    | RunRollback(role: Role, i: nat, ok: bool, took: bool)
    | Listen(role: Role)
    | Disconnect(role: Role, keepUp: nat, keepDown: nat)
    | Exit(role: Role, wipes: bool)

  /** Anything but a step result, which only an agent's message can bring. */
  predicate FromOutside(c: Call) {
    !c.StepComplete? && !c.StepFailed?
  }

  function Sent(n: Node, ms: seq<HubMsg>): Node {
    if n.open then n.(toAgent := n.toAgent + ms) else n
  }

  /** One orchestrator call, and the messages its events send. */
  function HubStep(s: Sys, call: Call): Sys {
    var out := Apply(s.core, call);
    s.(core := out.core,
       source := Sent(s.source, AllMessagesFor(Source, out.events)),
       target := Sent(s.target, AllMessagesFor(Target, out.events)),
       rolledBackAt := if RollsBack(s.core, call) then Some(s.core.currentStep) else s.rolledBackAt)
  }

  /** The hub handles the oldest message of agent `r`. Payloads go to the peer unread. */
  function HubHandles(s: Sys, r: Role, now: int): Sys
    requires At(s, r).toHub != []
  {
    var n := At(s, r);
    var popped := Put(s, r, n.(toHub := n.toHub[1..]));
    match n.toHub[0]
    case Done(step) => HubStep(popped, StepComplete(step, r, now))
    case Broke(step, error) => HubStep(popped, StepFailed(step, r, error))
    case Payload(sealed) => Put(popped, Peer(r), Sent(At(popped, Peer(r)), [Relay(sealed)]))
    case RollbackDone(_, _) => popped
  }

  /** Whose rollback step it is. */
  function Undoer(name: RollbackName): Role {
    if name == RemoveTransferredFilesTarget then Target else Source
  }

  /** A rollback step is not for this agent, or lacks a key file it was to be given. */
  predicate Refuses(c: Config, r: Role, host: Host, name: RollbackName) {
    || r != Undoer(name)
    || (name == RestoreSourceIdentity && (!c.hasKeypair || host.keyFile.None?))
    || (name == ReaddAuthorizedVoterSource && !c.hasVoteKeypair)
  }

  /** A rollback instruction: refused at once, or started. */
  function BeginRollback(c: Config, r: Role, n: Node, name: RollbackName): Node {
    if !Refuses(c, r, n.host, name) then n.(rollbacks := n.rollbacks + [name])
    else if n.open then n.(toHub := n.toHub + [RollbackDone(name, r != Undoer(name))])
    else n
  }

  /** Agent `r` handles the oldest message of the hub; before it listens for the
      migrating stage's messages they are dropped. A cancelled session ends the
      process, which the `Exit` action, possible at any time, stands for. */
  function AgentHandles(c: Config, r: Role, n: Node): Node
    requires n.toAgent != []
  {
    var popped := n.(toAgent := n.toAgent[1..]);
    if !n.listening then popped
    else
      match n.toAgent[0]
      case RunPreflight => popped
      case RollbackFlag => popped
      case PeerConnected(_) => popped
      case SessionCancelled => popped
      case Execute(step) =>
        popped.(handlers := n.handlers + [Handler(step, Begun)], started := n.started + [step])
      case ExecuteRollback(name) => BeginRollback(c, r, popped, name)
      case Relay(sealed) =>
        if KindAt(TheReader(c), sealed) == Some(VotingConfirmedKind) then popped.(peerVotingConfirmed := true)
        else popped.(queue := n.queue + [sealed])
  }

  function AfterBody(c: Config, r: Role, s: Sys, i: nat, ch: Choice): Sys
    requires i < |At(s, r).handlers|
  {
    var n := At(s, r);
    var h := n.handlers[i];
    var e := Body(c, r, n, h, ch);
    Put(s, r, n.(host := e.host, queue := e.queue, toHub := n.toHub + e.sent, handlers := n.handlers[i := h.(pc := e.pc)]))
    .(hist := s.hist + e.log + if e.pc == Finished then [StepDone(r, h.step)] else [])
  }

  /** The handler sends its result and is over; on a closed socket nothing is sent. */
  function AfterReport(n: Node, i: nat): Node
    requires i < |n.handlers|
  {
    var h := n.handlers[i];
    var m := if h.pc == Finished then Done(h.step) else Broke(h.step, "");
    n.(handlers := n.handlers[..i] + n.handlers[i + 1..],
       toHub := n.toHub + if n.open then [m] else [])
  }

  /** The effect of a rollback step on its server; a failed removal may have wiped the key. */
  function UndoOn(host: Host, name: RollbackName, ok: bool, took: bool): Host {
    match name
    case RestoreSourceIdentity => if ok || took then host.(staked := true) else host
    case ReaddAuthorizedVoterSource => if ok || took then host.(voter := true) else host
    case RemoveTransferredFilesTarget =>
      if ok then host.(receivedKey := None, towerFile := None)
      else if took then host.(receivedKey := None) else host
    case VerifySourceVoting => host
  }

  function AfterRollback(n: Node, i: nat, ok: bool, took: bool): Node
    requires i < |n.rollbacks|
  {
    n.(host := UndoOn(n.host, n.rollbacks[i], ok, took),
       rollbacks := n.rollbacks[..i] + n.rollbacks[i + 1..],
       toHub := n.toHub + if n.open then [RollbackDone(n.rollbacks[i], ok)] else [])
  }

  /** The connection is lost: of what was in flight each way a prefix still arrives. */
  function AfterDisconnect(n: Node, keepUp: nat, keepDown: nat): Node
    requires keepUp <= |n.toHub| && keepDown <= |n.toAgent|
  {
    n.(open := false, toHub := n.toHub[..keepUp], toAgent := n.toAgent[..keepDown])
  }

  /** The process ends; its exit hook may wipe the received key. */
  function AfterExit(n: Node, wipes: bool): Node {
    n.(up := false, exited := true, open := false, toAgent := [], handlers := [], rollbacks := [],
       host := if wipes then n.host.(receivedKey := None) else n.host)
  }

  predicate Enabled(s: Sys, a: Action) {
    match a
    case HubCall(call) => FromOutside(call)
    case HubReceive(r, _) => At(s, r).toHub != []
    case AgentReceive(r) => At(s, r).up && At(s, r).toAgent != []
    case RunBody(r, i, ch) =>
      At(s, r).up && i < |At(s, r).handlers| && At(s, r).handlers[i].pc in {Begun, GatePassed} && |ch.nonce| == NONCE_LENGTH
    case Report(r, i) =>
      At(s, r).up && i < |At(s, r).handlers| && At(s, r).handlers[i].pc in {Finished, Failing}
    case RunRollback(r, i, _, _) => At(s, r).up && i < |At(s, r).rollbacks|
    case Listen(r) => At(s, r).up
    case Disconnect(r, keepUp, keepDown) => keepUp <= |At(s, r).toHub| && keepDown <= |At(s, r).toAgent|
    case Exit(r, _) => At(s, r).up
  }

  function Next(c: Config, s: Sys, a: Action): Sys
    requires Enabled(s, a)
  {
    match a
    case HubCall(call) => HubStep(s, call)
    case HubReceive(r, now) => HubHandles(s, r, now)
    case AgentReceive(r) => Put(s, r, AgentHandles(c, r, At(s, r)))
    case RunBody(r, i, ch) => AfterBody(c, r, s, i, ch)
    case Report(r, i) => Put(s, r, AfterReport(At(s, r), i))
    case RunRollback(r, i, ok, took) => Put(s, r, AfterRollback(At(s, r), i, ok, took))
    case Listen(r) => Put(s, r, At(s, r).(listening := true))
    case Disconnect(r, keepUp, keepDown) => Put(s, r, AfterDisconnect(At(s, r), keepUp, keepDown))
    case Exit(r, wipes) => Put(s, r, AfterExit(At(s, r), wipes))
  }

  /** The state after a sequence of actions; an action that is not enabled ends it. */
  function Execution(c: Config, s: Sys, actions: seq<Action>): Option<Sys> {
    if actions == [] then Some(s)
    else
      match Execution(c, s, actions[..|actions| - 1])
      case None => None
      case Some(t) =>
        if Enabled(t, actions[|actions| - 1]) then Some(Next(c, t, actions[|actions| - 1])) else None
  }

  predicate LeadsTo(c: Config, createdAt: int, actions: seq<Action>, s: Sys) {
    Execution(c, Init(c, createdAt), actions) == Some(s)
  }
}
