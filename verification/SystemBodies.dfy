/** The step handlers, their reports, rollbacks, lost connections and exits keep the
    invariant too; so every reachable state has it. */
module SystemBodies {
  import opened Protocol
  import opened Base58
  import opened Envelope
  import opened PayloadQueue
  import opened OrchestratorSpec
  import opened HubGlue
  import opened QuietGate
  import opened VotingCheck
  import opened System
  import opened SystemInv
  import opened SystemSteps

  // ---------- A running handler ----------

  /** A running handler is the agent's only work and runs the step in progress. */
  lemma OnlyWork(o: Core, r: Role, n: Node, i: nat)
    requires WorkInv(o, r, n) && i < |n.handlers|
    ensures i == 0 && n.handlers == [n.handlers[0]] && n.handlers[0].step == o.currentStep
    ensures Assigned(r, o.currentStep) && Executes(n.toAgent) == [] && Reports(n.toHub) == []
  {
    hide Executes, Reports, Assigned, AcksAt;
    var a, b, d := Executes(n.toAgent), StepsOf(n.handlers), Reports(n.toHub);
    assert |Work(n)| == |a| + |b| + |d|;
    assert Work(n)[|a|] == b[0];
  }

  /** All steps before the one in progress are done, by everyone assigned to them. */
  lemma EarlierStepsDone(o: Core, r: Role, n: Node, hist: seq<Happening>, k: int)
    requires CoreInv(o) && DoneInv(o, r, n, hist)
    requires 1 <= k < o.currentStep && Assigned(r, k)
    ensures StepDone(r, k) in hist
  {
    hide Assigned;
    StepsInRange(o);
  }

  // ---------- The past stays in order ----------

  /** When the next happening may be appended. */
  ghost predicate MayHappen(c: Config, hist: seq<Happening>, x: Happening) {
    match x
    case StepDone(r, k) => Achieved(r, k, hist)
    case TowerStored(b) => TowerRead(b) in hist
    case KeyStored(b) => b == c.stakedKey
    case SourceQuiet(poll, pubkey) => PassedOnStakedKey(c, poll, pubkey)
    case VotingSeen(poll, pubkey) => VotedOnStakedKey(c, poll, pubkey)
    case VotingSealed => StepDone(Source, 2) in hist
    case WentStaked => ActivationReady(c, hist)
    case KeyDestroyed => WipeReady(hist)
    case _ => true
  }

  lemma AchievedStays(r: Role, k: int, hist: seq<Happening>, more: seq<Happening>)
    requires Achieved(r, k, hist)
    ensures Achieved(r, k, hist + more)
  {
    if r == Target && k == 4 {
      var b :| TowerStored(b) in hist;
      assert TowerStored(b) in hist + more;
    }
    if r == Target && k == 5 {
      var b :| KeyStored(b) in hist;
      assert KeyStored(b) in hist + more;
    }
    if r == Target && k == 8 {
      var poll, pubkey :| VotingSeen(poll, pubkey) in hist;
      assert VotingSeen(poll, pubkey) in hist + more;
    }
  }

  lemma Append(c: Config, hist: seq<Happening>, x: Happening)
    requires HistInv(c, hist) && MayHappen(c, hist, x)
    ensures HistInv(c, hist + [x])
  {
    hide Achieved, ActivationReady, WipeReady, PassedOnStakedKey, VotedOnStakedKey;
    var h := hist + [x];
    forall r, k | StepDone(r, k) in h
      ensures Achieved(r, k, h)
    {
      AchievedStays(r, k, hist, [x]);
    }
    forall i | 0 <= i < |h| && h[i] == WentStaked
      ensures ActivationReady(c, h[..i])
    {
      assert h[..i] == if i < |hist| then hist[..i] else hist;
    }
    forall i | 0 <= i < |h| && h[i] == KeyDestroyed
      ensures WipeReady(h[..i])
    {
      assert h[..i] == if i < |hist| then hist[..i] else hist;
    }
  }

  // ---------- What a body does, role by role ----------

  lemma SourceOutline(c: Config, n: Node, h: Handler, ch: Choice)
    ensures var e := SourceBody(c, n, h, ch);
            && e.queue == n.queue
            && (h.step !in {4, 5} ==> e.sent == [])
            && (e.sent != [] ==> e.sent == [e.sent[0]] && e.sent[0].Payload? && e.pc == Finished)
            && (e.sent == [] && h.step in {4, 5} ==> e.pc == Failing)
            && e.pc != GatePassed
            && (e.log == [] || e.log == [e.log[0]])
  {
  }

  lemma TargetOutline(c: Config, n: Node, h: Handler, ch: Choice)
    ensures var e := TargetBody(c, n, h, ch);
            && (h.step !in {4, 5} ==> e.queue == n.queue)
            && (h.step != 8 ==> e.sent == [])
            && (e.sent != [] ==>
                  && e.sent == [e.sent[0]] && e.sent[0].Payload? && IsVoteFrom(c, ch, e.sent[0].sealed)
                  && VoteLog(e.log))
            && (h.step == 8 && e.sent == [] ==> e.pc == Failing)
            && (e.log == [] || e.log == [e.log[0]] || VoteLog(e.log))
  {
    hide Scan, ReceiveTower, ReceiveIdentity, SendVotingConfirmed, ShowsVoting;
  }

  /** What a confirmed vote logs. */
  predicate VoteLog(log: seq<Happening>) {
    |log| == 2 && log[0].VotingSeen? && log[1] == VotingSealed
  }

  ghost predicate IsVoteFrom(c: Config, ch: Choice, x: Sealed) {
    exists pubkey :: x == SendVotingConfirmed(c.suite, c.sessionKey, ch.nonce, pubkey)
  }

  // ---------- A body keeps each agent's invariant ----------

  predicate CanRun(s: Sys, r: Role, i: nat, ch: Choice) {
    && i < |At(s, r).handlers| && At(s, r).handlers[i].pc in {Begun, GatePassed}
    && |ch.nonce| == NONCE_LENGTH
  }

  lemma BodySends(c: Config, r: Role, n: Node, h: Handler, ch: Choice)
    ensures var e := Body(c, r, n, h, ch);
            && Reports(n.toHub + e.sent) == Reports(n.toHub)
            && Payloads(n.toHub + e.sent) == Payloads(n.toHub) + (if e.sent == [] then [] else [e.sent[0].sealed])
            && (forall i :: 0 <= i < |e.sent| ==> e.sent[i].Payload?)
            && (forall q, k :: StepDone(q, k) !in e.log)
  {
    hide SourceBody, TargetBody, Reports, Payloads, IsVoteFrom;
    SourceOutline(c, n, h, ch);
    TargetOutline(c, n, h, ch);
    NoStepDoneInLog(c, r, n, h, ch);
    var e := Body(c, r, n, h, ch);
    UpConcat(n.toHub, e.sent);
    if e.sent != [] {
      UpOne(e.sent[0]);
    } else {
      assert n.toHub + e.sent == n.toHub;
    }
  }

  lemma NoStepDoneInLog(c: Config, r: Role, n: Node, h: Handler, ch: Choice)
    ensures forall q, k :: StepDone(q, k) !in Body(c, r, n, h, ch).log
  {
    hide Scan, ReceiveTower, ReceiveIdentity, SendVotingConfirmed, SendTower, SendIdentity;
  }

  lemma BodyKeepsAgent(c: Config, s: Sys, r: Role, i: nat, ch: Choice)
    requires AgentInv(s, r) && CanRun(s, r, i, ch)
    ensures AgentInv(AfterBody(c, r, s, i, ch), r)
  {
    hide Body, Executes, Reports, Payloads, Assigned, AcksAt;
    var n := At(s, r);
    var h := n.handlers[i];
    var t := AfterBody(c, r, s, i, ch);
    var m := At(t, r);
    OnlyWork(s.core, r, n, i);
    BodySends(c, r, n, h, ch);
    assert StepsOf(m.handlers) == StepsOf(n.handlers);
    assert Work(m) == Work(n);
    assert WorkInv(t.core, r, m) && StartedInv(t.core, r, m);
    BodyKeepsDone(c, s, r, i, ch);
  }

  lemma BodyKeepsDone(c: Config, s: Sys, r: Role, i: nat, ch: Choice)
    requires AgentInv(s, r) && CanRun(s, r, i, ch)
    ensures var t := AfterBody(c, r, s, i, ch);
            DoneInv(t.core, r, At(t, r), t.hist) && ListenInv(r, At(t, r), t.hist)
  {
    hide Body, Executes, Reports, Payloads, Assigned, AcksAt, StartedInv;
    OnlyWork(s.core, r, At(s, r), i);
    BodySends(c, r, At(s, r), At(s, r).handlers[i], ch);
  }

  /** The other agent is untouched; the past only grows, and not by its steps. */
  lemma BodyKeepsPeer(c: Config, s: Sys, r: Role, i: nat, ch: Choice)
    requires AgentInv(s, Peer(r)) && CanRun(s, r, i, ch)
    ensures AgentInv(AfterBody(c, r, s, i, ch), Peer(r))
  {
    hide WorkInv, StartedInv, DoneInv, ListenInv, AfterBody;
    BodyFrame(c, s, r, i, ch);
    var t := AfterBody(c, r, s, i, ch);
    PastGrows(s.core, Peer(r), At(s, Peer(r)), s.hist, t.hist);
  }

  /** A body leaves the core and the other agent alone and adds nothing to the past
      about the other agent's steps. */
  lemma BodyFrame(c: Config, s: Sys, r: Role, i: nat, ch: Choice)
    requires CanRun(s, r, i, ch)
    ensures var t := AfterBody(c, r, s, i, ch);
            && t.core == s.core && At(t, Peer(r)) == At(s, Peer(r))
            && s.hist <= t.hist && (forall k :: StepDone(Peer(r), k) in t.hist <==> StepDone(Peer(r), k) in s.hist)
  {
    hide Body;
    BodySends(c, r, At(s, r), At(s, r).handlers[i], ch);
  }

  lemma PastGrows(o: Core, q: Role, n: Node, hist: seq<Happening>, later: seq<Happening>)
    requires DoneInv(o, q, n, hist) && ListenInv(q, n, hist)
    requires forall k :: StepDone(q, k) in later <==> StepDone(q, k) in hist
    ensures DoneInv(o, q, n, later) && ListenInv(q, n, later)
  {
    hide Assigned, AcksAt;
  }

  // ---------- A body keeps the past in order ----------

  lemma AppendEffect(c: Config, hist: seq<Happening>, log: seq<Happening>, r: Role, k: int, done: bool)
    requires HistInv(c, hist)
    requires log == [] || (log == [log[0]] && MayHappen(c, hist, log[0]))
    requires done ==> Achieved(r, k, hist + log)
    ensures HistInv(c, hist + log + if done then [StepDone(r, k)] else [])
  {
    hide HistInv, Achieved;
    if log != [] {
      Append(c, hist, log[0]);
    } else {
      assert hist + log == hist;
    }
    if done {
      Append(c, hist + log, StepDone(r, k));
    } else {
      assert hist + log + [] == hist + log;
    }
  }

  lemma SourceLog(c: Config, s: Sys, h: Handler, ch: Choice)
    requires CoreInv(s.core) && AgentInv(s, Target) && HistInv(c, s.hist)
    requires h.step == s.core.currentStep && Assigned(Source, h.step)
    ensures var e := SourceBody(c, s.source, h, ch);
            && (e.log != [] ==> MayHappen(c, s.hist, e.log[0]))
            && (e.pc == Finished ==> Achieved(Source, h.step, s.hist + e.log))
  {
    hide HistInv, AgentInv, CoreInv, SendTower, SendIdentity;
    if h.step == 9 {
      TakeoverIsDone(c, s);
    }
  }

  lemma TakeoverIsDone(c: Config, s: Sys)
    requires CoreInv(s.core) && AgentInv(s, Target) && HistInv(c, s.hist)
    requires s.core.currentStep == 9
    ensures WipeReady(s.hist)
  {
    hide CoreInv, WorkInv, StartedInv, DoneInv;
    EarlierStepsDone(s.core, Target, s.target, s.hist, 6);
    EarlierStepsDone(s.core, Target, s.target, s.hist, 7);
    EarlierStepsDone(s.core, Target, s.target, s.hist, 8);
  }

  /** Before step 6 the source has given up identity and votes and the key is stored. */
  lemma SourceIsInactive(c: Config, s: Sys)
    requires CoreInv(s.core) && AgentInv(s, Source) && AgentInv(s, Target) && HistInv(c, s.hist)
    requires s.core.currentStep >= 6
    ensures StepDone(Source, 2) in s.hist && StepDone(Source, 3) in s.hist
    ensures WentUnstaked in s.hist && VotersRemoved in s.hist && KeyStored(c.stakedKey) in s.hist
  {
    hide CoreInv, WorkInv, StartedInv, DoneInv;
    EarlierStepsDone(s.core, Source, s.source, s.hist, 2);
    EarlierStepsDone(s.core, Source, s.source, s.hist, 3);
    EarlierStepsDone(s.core, Target, s.target, s.hist, 5);
    assert Achieved(Target, 5, s.hist);
  }

  lemma TargetLog(c: Config, s: Sys, h: Handler, ch: Choice)
    requires CoreInv(s.core) && AgentInv(s, Source) && AgentInv(s, Target) && HistInv(c, s.hist)
    requires PipeInv(c, s.core, s.source, s.target, s.hist)
    requires h.step == s.core.currentStep && Assigned(Target, h.step) && h.pc in {Begun, GatePassed}
    requires h.pc == GatePassed ==> h.step == 6 && GateOpen(c, s.hist)
    requires s.target.host.knownPubkey.Some? ==> s.target.host.knownPubkey == DerivePubkey(c.suite, c.stakedKey)
    requires KeyStored(c.stakedKey) in s.hist ==> s.target.host.knownPubkey.Some?
    ensures var e := TargetBody(c, s.target, h, ch);
            && (e.log != [] && h.step != 8 ==> e.log == [e.log[0]] && MayHappen(c, s.hist, e.log[0]))
            && (e.log != [] && h.step == 8 ==> MayHappen(c, s.hist, e.log[0]) && (e.log == [e.log[0]] || VoteLog(e.log)))
            && (h.step == 8 ==> StepDone(Source, 2) in s.hist)
            && (e.pc == Finished ==> Achieved(Target, h.step, s.hist + e.log))
  {
    hide HistInv, AgentInv, CoreInv, PipeInv, Scan, ReceiveTower, ReceiveIdentity, SendVotingConfirmed, ShowsVoting,
      ShowsQuiet, DerivePubkey;
    if h.step == 4 {
      TowerIsTaken(c, s, ch);
    } else if h.step == 5 {
      IdentityIsTaken(c, s, ch);
    } else if h.step >= 6 {
      SourceIsInactive(c, s);
    }
  }

  /** The scan of step 4 finds the tower or nothing. */
  lemma TowerIsTaken(c: Config, s: Sys, ch: Choice)
    requires PipeInv(c, s.core, s.source, s.target, s.hist) && s.core.currentStep == 4
    ensures var e := TakeTower(c, s.target, ch);
            && (s.target.queue == [] ==> e.queue == [] && e.log == [] && e.pc in {Begun, Failing})
            && (e.queue == s.target.queue || e.queue == [])
            && (s.target.queue != [] ==> e.pc in {Finished, Failing})
            && (e.pc == Finished ==>
                  s.target.queue != [] && e.queue == [] && e.host.towerFile.Some?
                  && e.log == [TowerStored(e.host.towerFile.value)] && TowerRead(e.host.towerFile.value) in s.hist)
            && (e.pc != Finished ==> e.log == [])
            && e.host == s.target.host.(towerFile := e.host.towerFile)
  {
    hide ReceiveTower, ReceiveIdentity, KindAt, Executes, Relays, Payloads, Kept, Scan;
    var q := s.target.queue;
    QueueIsPipe(c, s);
    if q == [] {
      EmptyScan(TheReader(c), TowerKind);
    } else {
      SingleScan(TheReader(c), q[0], TowerKind);
    }
  }

  lemma IdentityIsTaken(c: Config, s: Sys, ch: Choice)
    requires PipeInv(c, s.core, s.source, s.target, s.hist) && s.core.currentStep == 5
    ensures var e := TakeIdentity(c, s.target, ch);
            && (s.target.queue == [] ==> e.queue == [] && e.log == [] && e.pc in {Begun, Failing})
            && (e.queue == s.target.queue || e.queue == [])
            && (s.target.queue != [] ==> e.pc in {Finished, Failing})
            && (e.pc == Finished ==>
                  && s.target.queue != [] && e.queue == []
                  && e.host.receivedKey == Some(c.stakedKey) && e.log == [KeyStored(c.stakedKey)]
                  && e.host.knownPubkey.Some? && e.host.knownPubkey == DerivePubkey(c.suite, c.stakedKey))
            && (e.pc != Finished ==> e.log == [] && e.host == s.target.host)
            && e.host.staked == s.target.host.staked && e.host.voter == s.target.host.voter
  {
    hide ReceiveTower, ReceiveIdentity, KindAt, Executes, Relays, Payloads, Kept, Scan;
    var q := s.target.queue;
    QueueIsPipe(c, s);
    if q == [] {
      EmptyScan(TheReader(c), IdentityKind);
    } else {
      SingleScan(TheReader(c), q[0], IdentityKind);
      ReceivedPubkey(c, q[0]);
    }
  }

  /** The public key that arrives with an identity is the one derived from it. */
  lemma ReceivedPubkey(c: Config, x: Sealed)
    ensures var r := ReceiveIdentity(c.suite, c.sessionKey, x);
            r.Ok? ==> DerivePubkey(c.suite, r.value.secret) == Some(r.value.pubkey)
  {
    hide Peek, DerivePubkey;
  }

  /** The queue holds at most one payload, the one of the step in progress. */
  lemma QueueIsPipe(c: Config, s: Sys)
    requires PipeInv(c, s.core, s.source, s.target, s.hist)
    ensures |s.target.queue| <= 1
    ensures s.target.queue != [] ==>
              && s.target.queue == [s.target.queue[0]]
              && BelongsTo(c, s.target.queue[0], s.core.currentStep, s.hist)
              && Relays(s.target.toAgent) == [] && Payloads(s.source.toHub) == []
  {
    hide BelongsTo, Relays, Payloads;
    var q, d, u := s.target.queue, Relays(s.target.toAgent), Payloads(s.source.toHub);
    assert |Pipe(s.source, s.target)| == |q| + |d| + |u|;
    if q != [] {
      assert Pipe(s.source, s.target)[0] == q[0];
    }
  }

  lemma EmptyScan(r: Reader, want: Kind)
    ensures Scan(r, [], want) == (None, [])
  {
  }

  lemma SingleScan(r: Reader, x: Sealed, want: Kind)
    requires KindAt(r, x) == Some(want)
    ensures Scan(r, [x], want) == (Some(x), [])
  {
    hide KindAt, Scan, First;
    NothingKept(r, want);
    ScanFinds(r, [], x, [], want);
    assert [] + [x] + [] == [x];
    assert Kept(r, []) + [] == [];
  }

  lemma BodyKeepsHist(c: Config, s: Sys, r: Role, i: nat, ch: Choice)
    requires SysInv(c, s) && CanRun(s, r, i, ch)
    ensures HistInv(c, AfterBody(c, r, s, i, ch).hist)
  {
    hide CoreInv, AgentInv, HistInv, PipeInv, VoteInv, CausalInv, SourceBody, TargetBody, Achieved, Assigned, Executes,
      IsVoteFrom;
    var n := At(s, r);
    var h := n.handlers[i];
    assert WorkInv(s.core, r, n) by { WorkOf(s, r); }
    OnlyWork(s.core, r, n, i);
    var e := Body(c, r, n, h, ch);
    if r == Source {
      SourceLog(c, s, h, ch);
      SourceOutline(c, n, h, ch);
      AppendEffect(c, s.hist, e.log, r, h.step, e.pc == Finished);
    } else {
      TargetLog(c, s, h, ch);
      TargetOutline(c, n, h, ch);
      if h.step == 8 && VoteLog(e.log) {
        Append(c, s.hist, e.log[0]);
        Append(c, s.hist + [e.log[0]], VotingSealed);
        assert s.hist + e.log == s.hist + [e.log[0]] + [VotingSealed];
        assert s.hist + e.log + [] == s.hist + e.log;
        AppendEffect(c, s.hist + e.log, [], r, h.step, e.pc == Finished);
      } else {
        AppendEffect(c, s.hist, e.log, r, h.step, e.pc == Finished);
      }
    }
  }

  lemma WorkOf(s: Sys, r: Role)
    requires AgentInv(s, Source) && AgentInv(s, Target)
    ensures WorkInv(s.core, r, At(s, r)) && StartedInv(s.core, r, At(s, r)) && DoneInv(s.core, r, At(s, r), s.hist)
    ensures ListenInv(r, At(s, r), s.hist) && AgentInv(s, r)
  {
  }

  // ---------- Payloads ----------

  lemma BelongsStays(c: Config, x: Sealed, k: int, hist: seq<Happening>, more: seq<Happening>)
    requires BelongsTo(c, x, k, hist)
    ensures BelongsTo(c, x, k, hist + more)
  {
    hide IsTower, IsIdentity;
    if k == 4 {
      var b :| TowerRead(b) in hist && IsTower(c, x, b);
      assert TowerRead(b) in hist + more;
    }
  }

  lemma TowerBelongs(c: Config, nonce: bytes, content: bytes, pubkey: string, hist: seq<Happening>)
    requires ValidConfig(c) && |nonce| == NONCE_LENGTH && TowerRead(content) in hist
    ensures BelongsTo(c, SendTower(c.suite, c.sessionKey, nonce, content, pubkey), 4, hist)
  {
    hide Peek, SealEnvelope, ToBase64, FromBase64;
    TowerTransfer(c.suite, c.sessionKey, nonce, content, pubkey);
    PeekOfSeal(c.suite, c.sessionKey, nonce, Tower(TowerFilename(pubkey), ToBase64(content)));
    assert IsTower(c, SendTower(c.suite, c.sessionKey, nonce, content, pubkey), content);
  }

  lemma IdentityBelongs(c: Config, nonce: bytes, pubkey: string, hist: seq<Happening>)
    requires ValidConfig(c) && |nonce| == NONCE_LENGTH && DerivePubkey(c.suite, c.stakedKey) == Some(pubkey)
    ensures BelongsTo(c, SendIdentity(c.suite, c.sessionKey, nonce, c.stakedKey, pubkey), 5, hist)
  {
    hide Peek, SealEnvelope, ToBase64, FromBase64;
    IdentityTransfer(c.suite, c.sessionKey, nonce, c.stakedKey, pubkey);
    PeekOfSeal(c.suite, c.sessionKey, nonce, Identity(pubkey, c.stakedKey));
  }

  lemma VoteIsVote(c: Config, ch: Choice, x: Sealed)
    requires ValidConfig(c) && |ch.nonce| == NONCE_LENGTH && IsVoteFrom(c, ch, x)
    ensures IsVote(c, x)
  {
    hide Peek, SealEnvelope;
    var pubkey :| x == SendVotingConfirmed(c.suite, c.sessionKey, ch.nonce, pubkey);
    PeekOfSeal(c.suite, c.sessionKey, ch.nonce, VotingConfirmed(pubkey));
  }

  /** A source body sends the payload of the step in progress, once. */
  lemma SourceSends(c: Config, s: Sys, h: Handler, ch: Choice)
    requires ValidConfig(c) && HostInv(c, s) && |ch.nonce| == NONCE_LENGTH
    ensures var e := SourceBody(c, s.source, h, ch);
            e.sent != [] ==>
              h.step in BILATERAL_STEPS && e.sent[0].Payload? && BelongsTo(c, e.sent[0].sealed, h.step, s.hist + e.log)
  {
    hide BelongsTo, SendTower, SendIdentity, DerivePubkey;
    var e := SourceBody(c, s.source, h, ch);
    if e.sent != [] && h.step == 4 {
      assert TowerRead(ch.content) in s.hist + e.log;
      TowerBelongs(c, ch.nonce, ch.content, StakedPubkey(c, s.source).value, s.hist + e.log);
    } else if e.sent != [] {
      IdentityBelongs(c, ch.nonce, StakedPubkey(c, s.source).value, s.hist + e.log);
    }
  }

  lemma AllBelongStill(c: Config, pipe: seq<Sealed>, k: int, hist: seq<Happening>, more: seq<Happening>)
    requires forall j :: 0 <= j < |pipe| ==> BelongsTo(c, pipe[j], k, hist)
    ensures forall j :: 0 <= j < |pipe| ==> BelongsTo(c, pipe[j], k, hist + more)
  {
    hide BelongsTo;
    forall j | 0 <= j < |pipe|
      ensures BelongsTo(c, pipe[j], k, hist + more)
    {
      BelongsStays(c, pipe[j], k, hist, more);
    }
  }

  /** What a body changes, field by field. */
  lemma BodyOutline(c: Config, s: Sys, r: Role, i: nat, ch: Choice)
    requires WorkInv(s.core, r, At(s, r)) && CanRun(s, r, i, ch)
    ensures var n := At(s, r);
            var h := n.handlers[0];
            var e := Body(c, r, n, h, ch);
            var t := AfterBody(c, r, s, i, ch);
            var done := if e.pc == Finished then [StepDone(r, h.step)] else [];
            && i == 0 && h.step == s.core.currentStep && Assigned(r, h.step) && Executes(n.toAgent) == []
            && n.handlers == [h] && t.core == s.core && t.hist == s.hist + (e.log + done) == s.hist + e.log + done
            && At(t, Peer(r)) == At(s, Peer(r)) && t.rolledBackAt == s.rolledBackAt
            && At(t, r) == n.(host := e.host, queue := e.queue, toHub := n.toHub + e.sent, handlers := [h.(pc := e.pc)])
  {
    hide WorkInv, Body, Executes, Assigned;
    OnlyWork(s.core, r, At(s, r), i);
  }

  lemma SourceBodyKeepsPipe(c: Config, s: Sys, i: nat, ch: Choice)
    requires ValidConfig(c) && SysInv(c, s) && CanRun(s, Source, i, ch)
    ensures var t := AfterBody(c, Source, s, i, ch); PipeInv(c, t.core, t.source, t.target, t.hist)
  {
    hide CoreInv, WorkInv, StartedInv, DoneInv, ListenInv, HistInv, VoteInv, CausalInv, SourceBody, Executes, Reports,
      Relays, Payloads, BelongsTo, Assigned, AfterBody;
    var n := s.source;
    var h := n.handlers[0];
    var e := SourceBody(c, n, h, ch);
    var t := AfterBody(c, Source, s, i, ch);
    WorkOf(s, Source);
    BodyOutline(c, s, Source, i, ch);
    BodySends(c, Source, n, h, ch);
    SourceOutline(c, n, h, ch);
    SourceSends(c, s, h, ch);
    var done := if e.pc == Finished then [StepDone(Source, h.step)] else [];
    var before, after := Pipe(s.source, s.target), Pipe(t.source, t.target);
    assert h.pc == Begun && MaySend(n);
    if e.sent == [] {
      assert after == before;
      AllBelongStill(c, before, s.core.currentStep, s.hist, e.log + done);
    } else {
      var x := e.sent[0].sealed;
      assert before == [] && after == before + [x];
      BelongsStays(c, x, h.step, s.hist + e.log, done);
      assert !MaySend(t.source);
    }
  }

  lemma TargetBodyKeepsPipe(c: Config, s: Sys, i: nat, ch: Choice)
    requires SysInv(c, s) && CanRun(s, Target, i, ch)
    ensures var t := AfterBody(c, Target, s, i, ch); PipeInv(c, t.core, t.source, t.target, t.hist)
  {
    hide CoreInv, WorkInv, StartedInv, DoneInv, ListenInv, HistInv, VoteInv, CausalInv, HostInv, Executes, Reports,
      Relays, Payloads, BelongsTo, Assigned, TargetBody, IsVoteFrom, AfterBody;
    var n := s.target;
    var h := n.handlers[0];
    var e := TargetBody(c, n, h, ch);
    var t := AfterBody(c, Target, s, i, ch);
    WorkOf(s, Target);
    BodyOutline(c, s, Target, i, ch);
    BodySends(c, Target, n, h, ch);
    TargetTakes(c, s, h, ch);
    var done := if e.pc == Finished then [StepDone(Target, h.step)] else [];
    var before, after := Pipe(s.source, s.target), Pipe(t.source, t.target);
    if e.queue == n.queue {
      assert after == before;
      AllBelongStill(c, before, s.core.currentStep, s.hist, e.log + done);
    } else {
      assert after == [] && before != [];
    }
  }

  /** A body of the target takes the one payload there is, or leaves everything, and
      finishes a bilateral step only with an empty pipe. */
  lemma TargetTakes(c: Config, s: Sys, h: Handler, ch: Choice)
    requires PipeInv(c, s.core, s.source, s.target, s.hist) && h.step == s.core.currentStep
    ensures var e := TargetBody(c, s.target, h, ch);
            && (e.queue == s.target.queue
                || (e.queue == [] && s.target.queue != [] && Relays(s.target.toAgent) == [] && Payloads(s.source.toHub) == []))
            && (h.step in BILATERAL_STEPS && e.pc == Finished ==> s.target.queue != [] && e.queue == [])
  {
    hide TakeTower, TakeIdentity, SendVotingConfirmed, BelongsTo, Relays, Payloads, PipeInv;
    QueueIsPipe(c, s);
    if h.step == 4 {
      TowerIsTaken(c, s, ch);
    } else if h.step == 5 {
      IdentityIsTaken(c, s, ch);
    }
  }

  lemma BodyKeepsVote(c: Config, s: Sys, r: Role, i: nat, ch: Choice)
    requires ValidConfig(c) && SysInv(c, s) && CanRun(s, r, i, ch)
    ensures var t := AfterBody(c, r, s, i, ch); VoteInv(c, t.source, t.target, t.hist)
  {
    hide CoreInv, AgentInv, DoneInv, HistInv, PipeInv, CausalInv, HostInv, SourceBody, TargetBody, Executes, Reports,
      Relays, Payloads, IsVote, IsVoteFrom;
    var n := At(s, r);
    var h := n.handlers[i];
    BodySends(c, r, n, h, ch);
    var e := Body(c, r, n, h, ch);
    if r == Source {
      SourceOutline(c, n, h, ch);
    } else {
      TargetOutline(c, n, h, ch);
      if e.sent != [] {
        VoteIsVote(c, ch, e.sent[0].sealed);
        assert VotingSealed in e.log;
      }
    }
  }

  lemma PayloadAheadAppend(ms: seq<AgentMsg>, more: seq<AgentMsg>)
    requires PayloadAhead(ms) && forall i :: 0 <= i < |more| ==> more[i] != Done(8)
    ensures PayloadAhead(ms + more)
  {
    forall i | 0 <= i < |ms + more| && (ms + more)[i] == Done(8)
      ensures Payloads((ms + more)[..i]) != []
    {
      assert i < |ms|;
      assert (ms + more)[..i] == ms[..i] && ms[i] == Done(8);
    }
  }

  lemma BodyKeepsCausal(c: Config, s: Sys, r: Role, i: nat, ch: Choice)
    requires SysInv(c, s) && CanRun(s, r, i, ch)
    ensures var t := AfterBody(c, r, s, i, ch); CausalInv(t.source, t.target)
  {
    hide CoreInv, DoneInv, HistInv, PipeInv, VoteInv, HostInv, SourceBody, TargetBody, Executes, Reports, Relays,
      Payloads, RelayAhead, PayloadAhead, IsVoteFrom, Assigned, AcksAt;
    var n := At(s, r);
    var h := n.handlers[i];
    OnlyWork(s.core, r, n, i);
    BodySends(c, r, n, h, ch);
    var e := Body(c, r, n, h, ch);
    if r == Target {
      TargetOutline(c, n, h, ch);
      if PayloadAhead(n.toHub) {
        PayloadAheadAppend(n.toHub, e.sent);
      }
    }
  }

  // ---------- The servers ----------

  lemma SourceHostEffect(c: Config, n: Node, h: Handler, ch: Choice)
    ensures var e := SourceBody(c, n, h, ch);
            && e.host.staked == (n.host.staked && WentUnstaked !in e.log)
            && e.host.voter == (n.host.voter && VotersRemoved !in e.log)
            && e.host.keyFile == (if KeyDestroyed in e.log then None else n.host.keyFile)
            && (KeyDestroyed in e.log ==> h.step == 9)
  {
    hide SendTower, SendIdentity, StakedPubkey;
  }

  /** The source logs none of what only the target can do. */
  lemma SourceLogs(c: Config, n: Node, h: Handler, ch: Choice)
    ensures var e := SourceBody(c, n, h, ch);
            (forall b :: KeyStored(b) !in e.log) && WentStaked !in e.log && VoterAdded !in e.log && e.pc != GatePassed
  {
    hide SendTower, SendIdentity, StakedPubkey;
  }

  lemma SourceBodyKeepsHost(c: Config, s: Sys, i: nat, ch: Choice)
    requires SysInv(c, s) && CanRun(s, Source, i, ch)
    ensures HostInv(c, AfterBody(c, Source, s, i, ch))
  {
    hide CoreInv, StartedInv, DoneInv, HistInv, PipeInv, VoteInv, CausalInv, SourceBody, Executes, Reports, Assigned,
      AcksAt, NoRollbackIn;
    OnlyWork(s.core, Source, s.source, i);
    SourceHostEffect(c, s.source, s.source.handlers[i], ch);
    SourceLogs(c, s.source, s.source.handlers[i], ch);
  }

  lemma TargetHostEffect(c: Config, s: Sys, h: Handler, ch: Choice)
    requires PipeInv(c, s.core, s.source, s.target, s.hist) && h.step == s.core.currentStep
    requires h.pc == GatePassed ==> h.step == 6 && GateOpen(c, s.hist)
    ensures var e := TargetBody(c, s.target, h, ch);
            && e.host.staked == (s.target.host.staked || WentStaked in e.log)
            && e.host.voter == (s.target.host.voter || VoterAdded in e.log)
            && (WentStaked in e.log ==> h.step == 6)
            && (if e.log != [] && e.log[0].KeyStored?
                then e.host.receivedKey == Some(c.stakedKey)
                     && e.host.knownPubkey.Some? && e.host.knownPubkey == DerivePubkey(c.suite, c.stakedKey)
                else e.host.receivedKey == s.target.host.receivedKey && e.host.knownPubkey == s.target.host.knownPubkey)
            && (e.log == [] || e.log == [e.log[0]] || VoteLog(e.log))
            && WentUnstaked !in e.log && VotersRemoved !in e.log && KeyDestroyed !in e.log
            && (e.pc == GatePassed ==> h.step == 6 && GateOpen(c, s.hist + e.log))
  {
    hide PipeInv, TakeTower, TakeIdentity, SendVotingConfirmed;
    if h.step == 4 {
      TowerIsTaken(c, s, ch);
      assert TakeTower(c, s.target, ch).pc != GatePassed;
    } else if h.step == 5 {
      IdentityIsTaken(c, s, ch);
      assert TakeIdentity(c, s.target, ch).pc != GatePassed;
    }
  }

  lemma TargetBodyKeepsGate(c: Config, s: Sys, i: nat, ch: Choice)
    requires SysInv(c, s) && CanRun(s, Target, i, ch)
    ensures GateInv(c, AfterBody(c, Target, s, i, ch))
  {
    hide CoreInv, WorkInv, StartedInv, DoneInv, ListenInv, HistInv, PipeInv, VoteInv, CausalInv, TargetBody, AfterBody,
      Executes, Assigned, UndoInv, ServersInv;
    WorkOf(s, Target);
    BodyOutline(c, s, Target, i, ch);
    TargetHostEffect(c, s, s.target.handlers[0], ch);
    StaysOpen(c, s.hist + TargetBody(c, s.target, s.target.handlers[0], ch).log, AfterBody(c, Target, s, i, ch).hist);
  }

  lemma StaysOpen(c: Config, before: seq<Happening>, after: seq<Happening>)
    requires before <= after
    ensures GateOpen(c, before) ==> GateOpen(c, after)
  {
    if GateOpen(c, before) && !c.skipQuietGate {
      var poll, pubkey :| SourceQuiet(poll, pubkey) in before;
      assert SourceQuiet(poll, pubkey) in after;
    }
  }

  lemma TargetBodyKeepsUndo(c: Config, s: Sys, i: nat, ch: Choice)
    requires SysInv(c, s) && CanRun(s, Target, i, ch)
    ensures UndoInv(c, AfterBody(c, Target, s, i, ch))
  {
    hide CoreInv, WorkInv, StartedInv, DoneInv, ListenInv, HistInv, PipeInv, VoteInv, CausalInv, TargetBody, AfterBody,
      Executes, Assigned, NoRollbackIn, GateOpen, ServersInv;
    WorkOf(s, Target);
    BodyOutline(c, s, Target, i, ch);
    TargetHostEffect(c, s, s.target.handlers[0], ch);
  }

  lemma TargetBodyKeepsServers(c: Config, s: Sys, i: nat, ch: Choice)
    requires SysInv(c, s) && CanRun(s, Target, i, ch)
    ensures ServersInv(c, AfterBody(c, Target, s, i, ch))
  {
    hide CoreInv, WorkInv, StartedInv, DoneInv, ListenInv, HistInv, PipeInv, VoteInv, CausalInv, TargetBody, AfterBody,
      Executes, Assigned, NoRollbackIn, GateOpen, UndoInv;
    WorkOf(s, Target);
    BodyOutline(c, s, Target, i, ch);
    var h := s.target.handlers[0];
    TargetHostEffect(c, s, h, ch);
    var e := TargetBody(c, s.target, h, ch);
    assert forall x :: x in AfterBody(c, Target, s, i, ch).hist <==>
        x in s.hist || x in e.log || (e.pc == Finished && x == StepDone(Target, s.core.currentStep));
  }

  lemma TargetBodyKeepsHost(c: Config, s: Sys, i: nat, ch: Choice)
    requires SysInv(c, s) && CanRun(s, Target, i, ch)
    ensures HostInv(c, AfterBody(c, Target, s, i, ch))
  {
    hide SysInv, CanRun, AfterBody, UndoInv, ServersInv, GateInv;
    TargetBodyKeepsUndo(c, s, i, ch);
    TargetBodyKeepsServers(c, s, i, ch);
    TargetBodyKeepsGate(c, s, i, ch);
  }

  lemma RunBodyKeepsInv(c: Config, s: Sys, r: Role, i: nat, ch: Choice)
    requires ValidConfig(c) && SysInv(c, s) && CanRun(s, r, i, ch)
    ensures SysInv(c, AfterBody(c, r, s, i, ch))
  {
    hide CoreInv, AgentInv, HistInv, PipeInv, VoteInv, CausalInv, HostInv, Body, CanRun;
    WorkOf(s, r);
    WorkOf(s, Peer(r));
    BodyKeepsAgent(c, s, r, i, ch);
    BodyKeepsPeer(c, s, r, i, ch);
    BodyKeepsHist(c, s, r, i, ch);
    BodyKeepsVote(c, s, r, i, ch);
    BodyKeepsCausal(c, s, r, i, ch);
    if r == Source {
      SourceBodyKeepsPipe(c, s, i, ch);
      SourceBodyKeepsHost(c, s, i, ch);
    } else {
      TargetBodyKeepsPipe(c, s, i, ch);
      TargetBodyKeepsHost(c, s, i, ch);
    }
  }

  // ---------- A handler reports ----------

  predicate CanReport(n: Node, i: nat) {
    i < |n.handlers| && n.handlers[i].pc in {Finished, Failing}
  }

  lemma ReportOutline(o: Core, r: Role, n: Node, i: nat)
    requires WorkInv(o, r, n) && CanReport(n, i)
    ensures var m := AfterReport(n, i);
            && m.handlers == []
            && Payloads(m.toHub) == Payloads(n.toHub)
            && Work(m) == (if n.open then [o.currentStep] else [])
            && Assigned(r, o.currentStep) && Executes(n.toAgent) == []
            && n.handlers[0].step == o.currentStep && n.handlers == [n.handlers[0]]
            && (m.toHub == n.toHub
                || (n.open && m.toHub == n.toHub + [m.toHub[|n.toHub|]] && IsReport(m.toHub[|n.toHub|])
                    && (m.toHub[|n.toHub|].Done? ==>
                          n.handlers[0].pc == Finished && m.toHub[|n.toHub|].step == o.currentStep)))
  {
    hide Executes, Reports, Payloads, Assigned, AcksAt;
    var m := AfterReport(n, i);
    OnlyWork(o, r, n, i);
    assert Reports(n.toHub) == [];
    if n.open {
      var x := m.toHub[|n.toHub|];
      UpConcat(n.toHub, [x]);
      UpOne(x);
      assert m.toHub == n.toHub + [x];
      assert Work(m) == [] + [] + [o.currentStep];
    } else {
      assert m.toHub == n.toHub;
      assert Work(m) == [];
    }
  }

  lemma ReportKeepsAgent(s: Sys, r: Role, i: nat)
    requires AgentInv(s, r) && CanReport(At(s, r), i)
    ensures AgentInv(Put(s, r, AfterReport(At(s, r), i)), r)
  {
    hide Executes, Reports, Payloads, Assigned, AcksAt, Work, AfterReport, IsReport;
    var n := At(s, r);
    var m := AfterReport(n, i);
    ReportOutline(s.core, r, n, i);
    assert n.handlers != [] && Work(n) != [] by { HandlersAreWork(n); }
    ReportFrame(n, i);
    assert At(Put(s, r, m), r) == m;
  }

  lemma HandlersAreWork(n: Node)
    ensures n.handlers != [] ==> Work(n) != []
  {
    hide Executes, Reports;
    assert |Work(n)| == |Executes(n.toAgent)| + |n.handlers| + |Reports(n.toHub)|;
  }

  lemma ReportFrame(n: Node, i: nat)
    requires i < |n.handlers|
    ensures var m := AfterReport(n, i);
            m == n.(handlers := m.handlers, toHub := m.toHub)
  {
  }

  lemma ReportKeepsCausal(c: Config, s: Sys, r: Role, i: nat)
    requires SysInv(c, s) && CanReport(At(s, r), i)
    ensures var t := Put(s, r, AfterReport(At(s, r), i)); CausalInv(t.source, t.target)
  {
    hide CoreInv, StartedInv, DoneInv, HistInv, PipeInv, VoteInv, HostInv, Executes, Reports, Relays, Payloads,
      RelayAhead, PayloadAhead, AfterReport, Assigned, AcksAt;
    var n := At(s, r);
    var m := AfterReport(n, i);
    ReportOutline(s.core, r, n, i);
    ReportFrame(n, i);
    if r == Target && !Confirmed(s.source) && m.toHub != n.toHub {
      var x := m.toHub[|n.toHub|];
      if x == Done(8) {
        assert n.handlers[0] == Handler(8, Finished);
        PayloadAheadReport(n.toHub, x);
      } else {
        PayloadAheadAppend(n.toHub, [x]);
      }
    }
  }

  lemma PayloadAheadReport(ms: seq<AgentMsg>, x: AgentMsg)
    requires PayloadAhead(ms) && Payloads(ms) != []
    ensures PayloadAhead(ms + [x])
  {
    forall i | 0 <= i < |ms + [x]| && (ms + [x])[i] == Done(8)
      ensures Payloads((ms + [x])[..i]) != []
    {
      if i < |ms| {
        assert (ms + [x])[..i] == ms[..i] && ms[i] == Done(8);
      } else {
        assert (ms + [x])[..i] == ms;
      }
    }
  }

  lemma ReportKeepsPipe(c: Config, s: Sys, r: Role, i: nat)
    requires SysInv(c, s) && CanReport(At(s, r), i)
    ensures var t := Put(s, r, AfterReport(At(s, r), i));
            PipeInv(c, t.core, t.source, t.target, t.hist) && VoteInv(c, t.source, t.target, t.hist)
  {
    hide CoreInv, StartedInv, DoneInv, HistInv, CausalInv, HostInv, Executes, Reports, Relays, Payloads, BelongsTo,
      AfterReport, Assigned, AcksAt, IsReport, IsVote, NoRollbackIn;
    var n := At(s, r);
    var m := AfterReport(n, i);
    ReportOutline(s.core, r, n, i);
    ReportFrame(n, i);
    var t := Put(s, r, m);
    assert Pipe(t.source, t.target) == Pipe(s.source, s.target);
  }

  lemma ReportKeepsHost(c: Config, s: Sys, r: Role, i: nat)
    requires SysInv(c, s) && CanReport(At(s, r), i)
    ensures HostInv(c, Put(s, r, AfterReport(At(s, r), i)))
  {
    hide CoreInv, StartedInv, DoneInv, HistInv, CausalInv, PipeInv, VoteInv, Executes, Reports, AfterReport, Assigned,
      AcksAt, IsReport, NoRollbackIn, GateOpen;
    ReportOutline(s.core, r, At(s, r), i);
    ReportFrame(At(s, r), i);
  }

  lemma ReportKeepsInv(c: Config, s: Sys, r: Role, i: nat)
    requires SysInv(c, s) && CanReport(At(s, r), i)
    ensures SysInv(c, Put(s, r, AfterReport(At(s, r), i)))
  {
    hide CoreInv, WorkInv, StartedInv, DoneInv, ListenInv, HistInv, PipeInv, VoteInv, CausalInv, HostInv, AfterReport,
      CanReport;
    WorkOf(s, r);
    ReportKeepsAgent(s, r, i);
    ReportKeepsCausal(c, s, r, i);
    ReportKeepsPipe(c, s, r, i);
    ReportKeepsHost(c, s, r, i);
  }

  // ---------- A rollback handler finishes ----------

  lemma RollbackFrame(n: Node, i: nat, ok: bool, took: bool)
    requires i < |n.rollbacks|
    ensures var m := AfterRollback(n, i, ok, took);
            && m == n.(host := m.host, rollbacks := m.rollbacks, toHub := m.toHub)
            && Reports(m.toHub) == Reports(n.toHub) && Payloads(m.toHub) == Payloads(n.toHub)
            && n.toHub <= m.toHub && (forall j :: |n.toHub| <= j < |m.toHub| ==> m.toHub[j].RollbackDone?)
  {
    hide Reports, Payloads;
    RollbackDoneIsNoReport(n.toHub, AfterRollback(n, i, ok, took).toHub);
  }

  lemma RollbackKeepsInv(c: Config, s: Sys, r: Role, i: nat, ok: bool, took: bool)
    requires SysInv(c, s) && i < |At(s, r).rollbacks|
    ensures SysInv(c, Put(s, r, AfterRollback(At(s, r), i, ok, took)))
  {
    hide CoreInv, WorkInv, StartedInv, DoneInv, ListenInv, HistInv, Executes, Reports, Relays, Payloads, BelongsTo,
      AfterRollback, IsVote, RelayAhead, PayloadAhead, HostInv;
    var n := At(s, r);
    var m := AfterRollback(n, i, ok, took);
    RollbackFrame(n, i, ok, took);
    var t := Put(s, r, m);
    RollbackKeepsAgent(s, r, i, ok, took);
    assert Pipe(t.source, t.target) == Pipe(s.source, s.target);
    TakePayloadAhead(n.toHub, m.toHub);
    RollbackKeepsHost(c, s, r, i, ok, took);
  }

  lemma RollbackKeepsAgent(s: Sys, r: Role, i: nat, ok: bool, took: bool)
    requires AgentInv(s, r) && i < |At(s, r).rollbacks|
    ensures AgentInv(Put(s, r, AfterRollback(At(s, r), i, ok, took)), r)
  {
    hide Executes, Reports, Payloads, AfterRollback, Assigned, AcksAt;
    var n := At(s, r);
    var m := AfterRollback(n, i, ok, took);
    RollbackFrame(n, i, ok, took);
    assert At(Put(s, r, m), r) == m && Work(m) == Work(n);
  }

  lemma RollbackKeepsHost(c: Config, s: Sys, r: Role, i: nat, ok: bool, took: bool)
    requires HostInv(c, s) && i < |At(s, r).rollbacks|
    ensures HostInv(c, Put(s, r, AfterRollback(At(s, r), i, ok, took)))
  {
    hide NoRollbackIn;
    assert s.rolledBackAt.Some?;
  }

  // ---------- Listening, losing the connection, exiting ----------

  lemma ListenKeepsAgent(o: Core, r: Role, n: Node, hist: seq<Happening>)
    requires WorkInv(o, r, n) && StartedInv(o, r, n) && DoneInv(o, r, n, hist) && ListenInv(r, n, hist)
    ensures var m := n.(listening := true);
            WorkInv(o, r, m) && StartedInv(o, r, m) && DoneInv(o, r, m, hist) && ListenInv(r, m, hist)
  {
    hide Executes, Reports, Assigned, AcksAt;
    assert Work(n.(listening := true)) == Work(n);
  }

  lemma ListenKeepsHost(c: Config, s: Sys, r: Role)
    requires HostInv(c, s)
    ensures HostInv(c, Put(s, r, At(s, r).(listening := true)))
  {
    hide NoRollbackIn, GateOpen;
  }

  lemma ListenKeepsInv(c: Config, s: Sys, r: Role)
    requires SysInv(c, s)
    ensures SysInv(c, Put(s, r, At(s, r).(listening := true)))
  {
    hide CoreInv, HistInv, WorkInv, StartedInv, DoneInv, ListenInv, Executes, Reports, Relays, Payloads, BelongsTo, IsVote,
      RelayAhead, PayloadAhead, NoRollbackIn, HostInv;
    var t := Put(s, r, At(s, r).(listening := true));
    ListenKeepsHost(c, s, r);
    ListenKeepsAgent(s.core, r, At(s, r), s.hist);
    assert Pipe(t.source, t.target) == Pipe(s.source, s.target);
  }

  /** A prefix of a channel carries a prefix of its steps, reports and payloads. */
  lemma CutDown(ms: seq<HubMsg>, k: nat)
    requires k <= |ms|
    ensures Executes(ms) == Executes(ms[..k]) + Executes(ms[k..])
    ensures Relays(ms) == Relays(ms[..k]) + Relays(ms[k..])
    ensures NoRollbackIn(ms) ==> NoRollbackIn(ms[..k])
    ensures RelayAhead(ms) ==> RelayAhead(ms[..k])
  {
    assert ms == ms[..k] + ms[k..];
    DownConcat(ms[..k], ms[k..]);
    if RelayAhead(ms) {
      forall i | 0 <= i < k && ms[..k][i] == Execute(9)
        ensures Relays(ms[..k][..i]) != []
      {
        assert ms[..k][..i] == ms[..i] && ms[i] == Execute(9);
      }
    }
  }

  lemma CutUp(ms: seq<AgentMsg>, k: nat)
    requires k <= |ms|
    ensures Reports(ms) == Reports(ms[..k]) + Reports(ms[k..])
    ensures Payloads(ms) == Payloads(ms[..k]) + Payloads(ms[k..])
    ensures PayloadAhead(ms) ==> PayloadAhead(ms[..k])
  {
    assert ms == ms[..k] + ms[k..];
    UpConcat(ms[..k], ms[k..]);
    if PayloadAhead(ms) {
      forall i | 0 <= i < k && ms[..k][i] == Done(8)
        ensures Payloads(ms[..k][..i]) != []
      {
        assert ms[..k][..i] == ms[..i] && ms[i] == Done(8);
      }
    }
  }

  /** What is left of an agent after its connection is cut, or after it exits. */
  predicate CutFrom(n: Node, m: Node) {
    && !m.open && m.queue == n.queue && m.peerVotingConfirmed == n.peerVotingConfirmed
    && m.started == n.started && m.listening == n.listening
    && (m.handlers == n.handlers || m.handlers == []) && (m.rollbacks == n.rollbacks || m.rollbacks == [])
    && m.toHub <= n.toHub && m.toAgent <= n.toAgent
    && (m.host == n.host || m.host == n.host.(receivedKey := None))
    && (n.exited ==> m.exited) && (m.host != n.host ==> m.exited)
  }

  lemma CutOutline(n: Node, m: Node)
    requires CutFrom(n, m)
    ensures (Executes(m.toAgent) == Executes(n.toAgent) || |Executes(m.toAgent)| < |Executes(n.toAgent)|)
    ensures Executes(m.toAgent) <= Executes(n.toAgent) && Reports(m.toHub) <= Reports(n.toHub)
    ensures Relays(m.toAgent) <= Relays(n.toAgent) && Payloads(m.toHub) <= Payloads(n.toHub)
    ensures NoRollbackIn(n.toAgent) ==> NoRollbackIn(m.toAgent)
    ensures RelayAhead(n.toAgent) ==> RelayAhead(m.toAgent)
    ensures PayloadAhead(n.toHub) ==> PayloadAhead(m.toHub)
  {
    hide Executes, Reports, Relays, Payloads, NoRollbackIn, RelayAhead, PayloadAhead;
    CutDown(n.toAgent, |m.toAgent|);
    CutUp(n.toHub, |m.toHub|);
    assert n.toAgent[..|m.toAgent|] == m.toAgent;
    assert n.toHub[..|m.toHub|] == m.toHub;
  }

  lemma CutKeepsAgent(o: Core, r: Role, n: Node, m: Node, hist: seq<Happening>)
    requires WorkInv(o, r, n) && StartedInv(o, r, n) && DoneInv(o, r, n, hist) && ListenInv(r, n, hist)
    requires CutFrom(n, m)
    ensures WorkInv(o, r, m) && StartedInv(o, r, m) && DoneInv(o, r, m, hist) && ListenInv(r, m, hist)
  {
    hide Executes, Reports, Relays, Payloads, Assigned, AcksAt;
    CutOutline(n, m);
    CutWork(n, m);
  }

  lemma CutWork(n: Node, m: Node)
    requires CutFrom(n, m) && |Work(n)| <= 1
    ensures Work(m) == Work(n) || Work(m) == []
  {
    hide Executes, Reports, Relays, Payloads;
    CutOutline(n, m);
    var a, b, d := Executes(n.toAgent), StepsOf(n.handlers), Reports(n.toHub);
    var a', b', d' := Executes(m.toAgent), StepsOf(m.handlers), Reports(m.toHub);
    assert |Work(n)| == |a| + |b| + |d| && |Work(m)| == |a'| + |b'| + |d'|;
    if Work(m) != [] {
      assert a' == a && b' == b && d' == d;
    }
  }

  lemma CutKeepsPipe(c: Config, s: Sys, r: Role, m: Node)
    requires PipeInv(c, s.core, s.source, s.target, s.hist) && VoteInv(c, s.source, s.target, s.hist)
    requires CutFrom(At(s, r), m)
    ensures var t := Put(s, r, m);
            PipeInv(c, t.core, t.source, t.target, t.hist) && VoteInv(c, t.source, t.target, t.hist)
  {
    hide Executes, Reports, Relays, Payloads, BelongsTo, IsVote;
    CutOutline(At(s, r), m);
    var t := Put(s, r, m);
    var before, after := Pipe(s.source, s.target), Pipe(t.source, t.target);
    assert |before| == |s.target.queue| + |Relays(s.target.toAgent)| + |Payloads(s.source.toHub)|;
    assert |after| == |t.target.queue| + |Relays(t.target.toAgent)| + |Payloads(t.source.toHub)|;
    if after != [] {
      assert t.target.queue == s.target.queue && Relays(t.target.toAgent) == Relays(s.target.toAgent);
      assert Payloads(t.source.toHub) == Payloads(s.source.toHub);
      assert after == before;
    }
    assert MaySend(t.source) ==> MaySend(s.source);
  }

  lemma CutKeepsRest(c: Config, s: Sys, r: Role, m: Node)
    requires CausalInv(s.source, s.target) && HostInv(c, s)
    requires CutFrom(At(s, r), m)
    ensures var t := Put(s, r, m); CausalInv(t.source, t.target) && HostInv(c, t)
  {
    hide Executes, Reports, Relays, Payloads, RelayAhead, PayloadAhead, NoRollbackIn;
    CutOutline(At(s, r), m);
  }

  lemma CutKeepsInv(c: Config, s: Sys, r: Role, m: Node)
    requires SysInv(c, s) && CutFrom(At(s, r), m)
    ensures SysInv(c, Put(s, r, m))
  {
    hide CoreInv, WorkInv, StartedInv, DoneInv, ListenInv, HistInv, PipeInv, VoteInv, CausalInv, HostInv, CutFrom;
    CutKeepsAgent(s.core, r, At(s, r), m, s.hist);
    CutKeepsPipe(c, s, r, m);
    CutKeepsRest(c, s, r, m);
  }

  // ---------- Every reachable state ----------

  lemma InitHasInv(c: Config, createdAt: int)
    ensures SysInv(c, Init(c, createdAt))
  {
    hide HostInv, AgentInv;
    var s := Init(c, createdAt);
    InitHasHostInv(c, createdAt);
    InitHasAgentInv(c, createdAt, Source);
    InitHasAgentInv(c, createdAt, Target);
    assert Pipe(s.source, s.target) == [];
  }

  lemma InitHasAgentInv(c: Config, createdAt: int, r: Role)
    ensures AgentInv(Init(c, createdAt), r)
  {
    assert Work(At(Init(c, createdAt), r)) == [];
  }

  lemma InitHasHostInv(c: Config, createdAt: int)
    ensures HostInv(c, Init(c, createdAt))
  {
  }

  lemma NextKeepsInv(c: Config, s: Sys, a: Action)
    requires ValidConfig(c) && SysInv(c, s) && Enabled(s, a)
    ensures SysInv(c, Next(c, s, a))
  {
    hide SysInv, HubStep, HubHandles, AgentHandles, AfterBody, AfterReport, AfterRollback;
    match a
    case HubCall(call) => OutsideCallKeepsInv(c, s, call);
    case HubReceive(r, now) => HubReceiveKeepsInv(c, s, r, now);
    case AgentReceive(r) => AgentReceiveKeepsInv(c, s, r);
    case RunBody(r, i, ch) => RunBodyKeepsInv(c, s, r, i, ch);
    case Report(r, i) => ReportKeepsInv(c, s, r, i);
    case RunRollback(r, i, ok, took) => RollbackKeepsInv(c, s, r, i, ok, took);
    case Listen(r) => ListenKeepsInv(c, s, r);
    case Disconnect(r, keepUp, keepDown) => CutKeepsInv(c, s, r, AfterDisconnect(At(s, r), keepUp, keepDown));
    case Exit(r, wipes) => CutKeepsInv(c, s, r, AfterExit(At(s, r), wipes));
  }

  /** The invariant holds in every state any sequence of actions leads to. */
  lemma {:induction false} ReachableHasInv(c: Config, createdAt: int, actions: seq<Action>, s: Sys)
    requires ValidConfig(c) && LeadsTo(c, createdAt, actions, s)
    ensures SysInv(c, s)
  {
    if actions == [] {
      InitHasInv(c, createdAt);
    } else {
      var before := actions[..|actions| - 1];
      var t := Execution(c, Init(c, createdAt), before).value;
      ReachableHasInv(c, createdAt, before, t);
      NextKeepsInv(c, t, actions[|actions| - 1]);
    }
  }
}
