/** The inductive invariant of the composed system, part by part. */
module SystemInv {
  import opened Protocol
  import opened Base58
  import opened Envelope
  import opened PayloadQueue
  import opened OrchestratorSpec
  import opened HubGlue
  import opened QuietGate
  import opened VotingCheck
  import opened System

  // ---------- Each agent holds at most one unit of work ----------

  function StepsOf(hs: seq<Handler>): seq<int> {
    seq(|hs|, i requires 0 <= i < |hs| => hs[i].step)
  }

  /** The work of an agent: steps on their way to it, running, or being reported. */
  function Work(n: Node): seq<int> {
    Executes(n.toAgent) + StepsOf(n.handlers) + Reports(n.toHub)
  }

  /** The only work there can be is the step in progress, not yet acknowledged. */
  predicate WorkInv(o: Core, r: Role, n: Node) {
    Work(n) == []
    || (Work(n) == [o.currentStep] && Assigned(r, o.currentStep) && r !in AcksAt(o, o.currentStep))
  }

  /** Steps started are assigned to the agent, strictly increasing, and a step on its
      way has not been started. */
  predicate StartedInv(o: Core, r: Role, n: Node) {
    && (forall i, j :: 0 <= i < j < |n.started| ==> n.started[i] < n.started[j])
    && (forall i :: 0 <= i < |n.started| ==> n.started[i] <= o.currentStep && Assigned(r, n.started[i]))
    && (Executes(n.toAgent) != [] ==> forall i :: 0 <= i < |n.started| ==> n.started[i] < o.currentStep)
  }

  // ---------- What has been acknowledged has been done ----------

  ghost predicate DoneInv(o: Core, r: Role, n: Node, hist: seq<Happening>) {
    && (forall i :: 0 <= i < |n.handlers| && n.handlers[i].pc == Finished ==> StepDone(r, n.handlers[i].step) in hist)
    && (forall i :: 0 <= i < |n.toHub| && n.toHub[i].Done? ==> StepDone(r, n.toHub[i].step) in hist)
    && (o.state == Migrating && r in AcksAt(o, o.currentStep) ==> StepDone(r, o.currentStep) in hist)
    && (forall k :: 1 <= k <= o.stepsCompleted && Assigned(r, k) ==> StepDone(r, k) in hist)
    && (forall k :: StepDone(r, k) in hist ==> k <= o.currentStep)
  }

  /** A look at the cluster has shown some key voting. */
  ghost predicate VoteShown(hist: seq<Happening>) {
    exists poll, pubkey :: VotingSeen(poll, pubkey) in hist
  }

  /** What a finished step achieved. */
  ghost predicate Achieved(r: Role, k: int, hist: seq<Happening>) {
    && (r == Source && k == 2 ==> WentUnstaked in hist)
    && (r == Source && k == 3 ==> VotersRemoved in hist)
    && (r == Target && k == 4 ==> exists b :: TowerStored(b) in hist)
    && (r == Target && k == 5 ==> exists b :: KeyStored(b) in hist)
    && (r == Target && k == 6 ==> WentStaked in hist)
    && (r == Target && k == 7 ==> VoterAdded in hist)
    && (r == Target && k == 8 ==> VoteShown(hist) && VotingSealed in hist)
    && (r == Source && k == 9 ==> KeyDestroyed in hist)
  }

  /** A poll has passed the gate, or the gate is skipped. */
  ghost predicate GateOpen(c: Config, hist: seq<Happening>) {
    c.skipQuietGate || exists poll, pubkey :: SourceQuiet(poll, pubkey) in hist
  }

  /** The gate was passed on the public half of the staked key. */
  predicate PassedOnStakedKey(c: Config, poll: Poll, pubkey: string) {
    ShowsQuiet(poll, pubkey) && DerivePubkey(c.suite, c.stakedKey) == Some(pubkey)
  }

  ghost predicate ActivationReady(c: Config, hist: seq<Happening>) {
    && StepDone(Source, 2) in hist && StepDone(Source, 3) in hist
    && WentUnstaked in hist && VotersRemoved in hist
    && KeyStored(c.stakedKey) in hist
    && GateOpen(c, hist)
  }

  /** The key seen voting was the public half of the staked key. */
  predicate VotedOnStakedKey(c: Config, poll: Poll, pubkey: string) {
    ShowsVoting(poll, pubkey) && DerivePubkey(c.suite, c.stakedKey) == Some(pubkey)
  }

  ghost predicate WipeReady(hist: seq<Happening>) {
    && StepDone(Target, 6) in hist && StepDone(Target, 7) in hist && StepDone(Target, 8) in hist
    && WentStaked in hist && VoterAdded in hist && VoteShown(hist) && VotingSealed in hist
  }

  /** The past is in order. */
  ghost predicate HistInv(c: Config, hist: seq<Happening>) {
    && (forall r, k :: StepDone(r, k) in hist ==> Achieved(r, k, hist))
    && (VotingSealed in hist ==> StepDone(Source, 2) in hist)
    && (forall b :: TowerStored(b) in hist ==> TowerRead(b) in hist)
    && (forall b :: KeyStored(b) in hist ==> b == c.stakedKey)
    && (forall poll, pubkey :: SourceQuiet(poll, pubkey) in hist ==> PassedOnStakedKey(c, poll, pubkey))
    && (forall poll, pubkey :: VotingSeen(poll, pubkey) in hist ==> VotedOnStakedKey(c, poll, pubkey))
    && (forall i :: 0 <= i < |hist| && hist[i] == WentStaked ==> ActivationReady(c, hist[..i]))
    && (forall i :: 0 <= i < |hist| && hist[i] == KeyDestroyed ==> WipeReady(hist[..i]))
  }

  // ---------- Payloads on their way to the target ----------

  predicate IsTower(c: Config, x: Sealed, content: bytes) {
    && KindAt(TheReader(c), x) == Some(TowerKind)
    && ReceiveTower(c.suite, c.sessionKey, x).Ok?
    && ReceiveTower(c.suite, c.sessionKey, x).value.content == content
  }

  predicate IsIdentity(c: Config, x: Sealed) {
    && KindAt(TheReader(c), x) == Some(IdentityKind)
    && ReceiveIdentity(c.suite, c.sessionKey, x).Ok?
    && ReceiveIdentity(c.suite, c.sessionKey, x).value.secret == c.stakedKey
  }

  /** The payload that belongs to step `k`. */
  ghost predicate BelongsTo(c: Config, x: Sealed, k: int, hist: seq<Happening>) {
    (k == 4 && exists b :: TowerRead(b) in hist && IsTower(c, x, b)) || (k == 5 && IsIdentity(c, x))
  }

  /** The source has not yet sent the payload of the step in progress. */
  predicate MaySend(n: Node) {
    Executes(n.toAgent) != [] || exists i :: 0 <= i < |n.handlers| && n.handlers[i].pc == Begun
  }

  /** An agent that has done anything is listening. */
  ghost predicate ListenInv(r: Role, n: Node, hist: seq<Happening>) {
    (forall k :: StepDone(r, k) in hist ==> n.listening) && (n.handlers != [] ==> n.listening)
  }

  /** Everything between the source's socket and the target's step handler. */
  function Pipe(source: Node, target: Node): seq<Sealed> {
    target.queue + Relays(target.toAgent) + Payloads(source.toHub)
  }

  ghost predicate PipeInv(c: Config, o: Core, source: Node, target: Node, hist: seq<Happening>) {
    var pipe := Pipe(source, target);
    && |pipe| <= 1
    && (forall i :: 0 <= i < |pipe| ==> BelongsTo(c, pipe[i], o.currentStep, hist))
    && (o.currentStep in BILATERAL_STEPS && (MaySend(source) || StepDone(Target, o.currentStep) in hist) ==> pipe == [])
    && (o.currentStep in BILATERAL_STEPS && MaySend(source) ==> StepDone(Target, o.currentStep) !in hist)
  }

  // ---------- Payloads on their way to the source ----------

  predicate IsVote(c: Config, x: Sealed) {
    KindAt(TheReader(c), x) == Some(VotingConfirmedKind)
  }

  predicate VoteInv(c: Config, source: Node, target: Node, hist: seq<Happening>) {
    && source.queue == []
    && (forall x :: x in Relays(source.toAgent) ==> IsVote(c, x))
    && (forall x :: x in Payloads(target.toHub) ==> IsVote(c, x))
    && (Relays(source.toAgent) != [] || Payloads(target.toHub) != [] || source.peerVotingConfirmed ==> VotingSealed in hist)
  }

  /** Every `Execute(9)` in the channel has a relay ahead of it. */
  predicate RelayAhead(ms: seq<HubMsg>) {
    forall i :: 0 <= i < |ms| && ms[i] == Execute(9) ==> Relays(ms[..i]) != []
  }

  /** Every report of step 8 in the channel has a payload ahead of it. */
  predicate PayloadAhead(ms: seq<AgentMsg>) {
    forall i :: 0 <= i < |ms| && ms[i] == Done(8) ==> Payloads(ms[..i]) != []
  }

  /** The confirmation has reached the source, or is in its channel, or the channel is gone. */
  predicate Confirmed(source: Node) {
    source.peerVotingConfirmed || Relays(source.toAgent) != [] || !source.open
  }

  predicate CausalInv(source: Node, target: Node) {
    && (source.peerVotingConfirmed || RelayAhead(source.toAgent))
    && (Confirmed(source) || PayloadAhead(target.toHub))
    && (forall i :: 0 <= i < |target.handlers| && target.handlers[i] == Handler(8, Finished) ==>
          Confirmed(source) || Payloads(target.toHub) != [] || !target.open)
    && (forall i :: 0 <= i < |source.handlers| && source.handlers[i].step == 9 ==> source.peerVotingConfirmed)
  }

  // ---------- The two servers ----------

  /** Nothing is undone before a rollback, and a rollback ends the session. */
  ghost predicate UndoInv(c: Config, s: Sys) {
    && (s.rolledBackAt.None? ==>
          && NoRollbackIn(s.source.toAgent) && s.source.rollbacks == []
          && NoRollbackIn(s.target.toAgent) && s.target.rollbacks == []
          && (WentUnstaked in s.hist ==> !s.source.host.staked)
          && (VotersRemoved in s.hist ==> !s.source.host.voter)
          && (forall b :: KeyStored(b) in s.hist && !s.target.exited ==> s.target.host.receivedKey == Some(c.stakedKey)))
    && (s.rolledBackAt.Some? ==> s.core.state == Failed && s.core.currentStep == s.rolledBackAt.value)
    && (forall i :: 0 <= i < |s.target.rollbacks| ==> s.target.rollbacks[i] == RemoveTransferredFilesTarget)
  }

  /** The servers are as the history says. */
  ghost predicate ServersInv(c: Config, s: Sys) {
    && (s.target.host.staked <==> WentStaked in s.hist)
    && (VoterAdded in s.hist ==> s.target.host.voter)
    && s.source.host.keyFile == (if KeyDestroyed in s.hist then None else Some(c.stakedKey))
    && (s.target.host.receivedKey.Some? ==> s.target.host.receivedKey.value == c.stakedKey)
    && (s.target.host.knownPubkey.Some? ==> s.target.host.knownPubkey == DerivePubkey(c.suite, c.stakedKey))
    && (forall b :: KeyStored(b) in s.hist ==> s.target.host.knownPubkey.Some?)
    && (WentStaked in s.hist ==> s.core.currentStep >= 6)
    && (KeyDestroyed in s.hist ==> s.core.currentStep == 9)
  }

  /** Only the target's step 6 is ever past the gate, and only an opened gate. */
  ghost predicate GateInv(c: Config, s: Sys) {
    && (forall i :: 0 <= i < |s.source.handlers| ==> s.source.handlers[i].pc != GatePassed)
    && (forall i :: 0 <= i < |s.target.handlers| && s.target.handlers[i].pc == GatePassed ==>
          s.target.handlers[i].step == 6 && GateOpen(c, s.hist))
  }

  ghost predicate HostInv(c: Config, s: Sys) {
    UndoInv(c, s) && ServersInv(c, s) && GateInv(c, s)
  }

  ghost predicate AgentInv(s: Sys, r: Role) {
    && WorkInv(s.core, r, At(s, r))
    && StartedInv(s.core, r, At(s, r))
    && DoneInv(s.core, r, At(s, r), s.hist)
    && ListenInv(r, At(s, r), s.hist)
  }

  ghost predicate SysInv(c: Config, s: Sys) {
    && CoreInv(s.core)
    && AgentInv(s, Source) && AgentInv(s, Target)
    && HistInv(c, s.hist)
    && PipeInv(c, s.core, s.source, s.target, s.hist)
    && VoteInv(c, s.source, s.target, s.hist)
    && CausalInv(s.source, s.target)
    && HostInv(c, s)
  }
}
