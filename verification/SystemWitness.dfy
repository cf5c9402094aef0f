/** Runs of the composed system that show where its guarantees end: a rollback begun
    at step 6 or later can leave both validators on the staked identity, one begun at
    step 9 can lose the key, and nothing earlier can; and a migration can complete. */
module SystemWitness {
  import opened Protocol
  import opened Base58
  import opened Envelope
  import opened PayloadQueue
  import opened OrchestratorSpec
  import opened HubGlue
  import opened QuietGate
  import opened VotingCheck
  import opened System
  import opened SystemInv
  import opened SystemBodies
  import opened SystemTheorems

  /** A configuration with which the handover can go through. */
  ghost predicate Usable(c: Config) {
    ValidConfig(c) && c.hasKeypair && |c.stakedKey| == SECRET_KEY_LENGTH
  }

  /** A random nonce, and a world in which everything succeeds. */
  const NONCE: bytes := seq(NONCE_LENGTH, i => 0)

  const ALL_WELL := Choice(true, true, false, Returned(Some([])), [], NONCE, "")

  // ---------- The start of a step ----------

  predicate Calm(n: Node) {
    && n.up && !n.exited && n.listening && n.open
    && n.toHub == [] && n.handlers == [] && n.rollbacks == [] && n.queue == []
  }

  /** Step `k` has just been dispatched, nothing has gone wrong, nothing else is under way. */
  predicate Ready(c: Config, s: Sys, k: int) {
    && 1 <= k <= TOTAL_STEPS
    && s.core.state == Migrating && s.core.currentStep == k && s.core.acks == map[]
    && s.rolledBackAt == None
    && Calm(s.source) && Calm(s.target)
    && s.source.toAgent == (if Assigned(Source, k) then [Execute(k)] else [])
    && s.target.toAgent == (if Assigned(Target, k) then [Execute(k)] else [])
    && s.source.host.keyFile == Some(c.stakedKey)
    && (k == 9 ==> s.source.peerVotingConfirmed)
    && (k > 5 ==> s.target.host.keyPathSet && s.target.host.knownPubkey.Some?)
    && (k > 6 ==> s.target.host.staked)
  }

  /** The ack that completes step `k`: the one expected, or the second of two. */
  predicate LastAck(o: Core, r: Role, k: int) {
    && o.state == Migrating && o.currentStep == k
    && o.acks == if k in BILATERAL_STEPS then map[k := {Peer(r)}] else map[]
  }

  lemma LastAckAdvances(o: Core, r: Role, k: int, now: int)
    requires LastAck(o, r, k) && 1 <= k < TOTAL_STEPS
    ensures var out := Apply(o, StepComplete(k, r, now));
            && out.core.state == Migrating && out.core.currentStep == k + 1 && out.core.acks == map[]
            && out.events == [StepCompleted(k), ExecuteStep(ExecutorOf(k + 1), k + 1)]
  {
    if k in BILATERAL_STEPS {
      assert Source in {Peer(r)} + {r} && Target in {Peer(r)} + {r};
      assert o.acks - {k} == map[];
    }
  }

  /** Completing step `k` dispatches the next one to exactly the agents assigned to it. */
  lemma Advances(s: Sys, r: Role, k: int, now: int)
    requires LastAck(s.core, r, k) && 1 <= k < TOTAL_STEPS
    requires s.source.open && s.target.open
    ensures var t := HubStep(s, StepComplete(k, r, now));
            && t.core.state == Migrating && t.core.currentStep == k + 1 && t.core.acks == map[]
            && t.rolledBackAt == s.rolledBackAt
            && t.source == s.source.(toAgent := s.source.toAgent + if Assigned(Source, k + 1) then [Execute(k + 1)] else [])
            && t.target == s.target.(toAgent := s.target.toAgent + if Assigned(Target, k + 1) then [Execute(k + 1)] else [])
  {
    hide AllMessagesFor, Apply, LastAck;
    var e, f := StepCompleted(k), ExecuteStep(ExecutorOf(k + 1), k + 1);
    LastAckAdvances(s.core, r, k, now);
    TwoEventsSend(Source, e, f);
    TwoEventsSend(Target, e, f);
  }

  /** An agent takes its `Execute(k)`. */
  lemma Accepts(c: Config, s: Sys, r: Role, k: int, rest: seq<HubMsg>) returns (t: Sys)
    requires Reachable(c, s)
    requires At(s, r).up && At(s, r).listening && At(s, r).handlers == [] && At(s, r).toAgent == [Execute(k)] + rest
    ensures Reachable(c, t)
    ensures t == Put(s, r, At(s, r).(toAgent := rest, handlers := [Handler(k, Begun)], started := At(s, r).started + [k]))
  {
    t := Next(c, s, AgentReceive(r));
    Onward(c, s, AgentReceive(r));
  }

  /** A finished handler reports and the hub takes the report. */
  lemma ReportsBack(c: Config, s: Sys, r: Role, k: int) returns (t: Sys)
    requires Reachable(c, s)
    requires At(s, r).up && At(s, r).open && At(s, r).handlers == [Handler(k, Finished)] && At(s, r).toHub == []
    ensures Reachable(c, t)
    ensures t == HubStep(Put(s, r, At(s, r).(handlers := [])), StepComplete(k, r, 0))
  {
    hide HubStep, Reachable;
    var u := Next(c, s, Report(r, 0));
    Onward(c, s, Report(r, 0));
    assert u == Put(s, r, At(s, r).(handlers := [], toHub := [Done(k)]));
    assert At(u, r).toHub[1..] == [];
    assert Put(u, r, At(u, r).(toHub := At(u, r).toHub[1..])) == Put(s, r, At(s, r).(handlers := []));
    t := Next(c, u, HubReceive(r, 0));
    Onward(c, u, HubReceive(r, 0));
  }

  /** The hub relays the only payload an agent has sent. */
  lemma RelaysPayload(c: Config, s: Sys, r: Role, x: Sealed) returns (t: Sys)
    requires Reachable(c, s)
    requires At(s, r).toHub == [Payload(x)] && At(s, Peer(r)).open
    ensures Reachable(c, t)
    ensures var q := At(s, Peer(r));
            t == Put(Put(s, r, At(s, r).(toHub := [])), Peer(r), q.(toAgent := q.toAgent + [Relay(x)]))
  {
    hide HubStep, Reachable;
    t := Next(c, s, HubReceive(r, 0));
    Onward(c, s, HubReceive(r, 0));
  }

  // ---------- One step after another ----------

  /** Steps 1, 2, 3 and 7: one agent works and reports. */
  lemma OneAgentStep(c: Config, s: Sys, k: int) returns (t: Sys)
    requires Reachable(c, s) && Ready(c, s, k) && k in {1, 2, 3, 7}
    ensures Reachable(c, t) && Ready(c, t, k + 1)
  {
    hide Reachable, HubStep, TakeTower, TakeIdentity, SendVotingConfirmed, SendTower, SendIdentity, StakedPubkey, ShowsQuiet;
    var r := ExecutorOf(k);
    var a := Accepts(c, s, r, k, []);
    var b := Next(c, a, RunBody(r, 0, ALL_WELL));
    Onward(c, a, RunBody(r, 0, ALL_WELL));
    t := ReportsBack(c, b, r, k);
    Advances(Put(b, r, At(b, r).(handlers := [])), r, k, 0);
  }

  /** Steps 4 and 5 on the source: the payload is on its way and the source is done. */
  lemma SourceSendsIts(c: Config, s: Sys, k: int) returns (t: Sys, x: Sealed, hist: seq<Happening>)
    requires Usable(c) && Reachable(c, s) && Ready(c, s, k) && k in BILATERAL_STEPS
    ensures Reachable(c, t)
    ensures BelongsTo(c, x, k, hist)
    ensures t.core == s.core.(acks := map[k := {Source}]) && t.rolledBackAt == None
    ensures Calm(t.source) && t.source.toAgent == [] && t.source.host == s.source.host
    ensures t.target == s.target.(toAgent := [Execute(k), Relay(x)])
  {
    hide Reachable, HubStep, SourceBody, BelongsTo;
    var a := Accepts(c, s, Source, k, []);
    var b := Next(c, a, RunBody(Source, 0, ALL_WELL));
    Onward(c, a, RunBody(Source, 0, ALL_WELL));
    x := SourceBodySends(c, a.source, k, s.hist);
    hist := s.hist + SourceBody(c, a.source, Handler(k, Begun), ALL_WELL).log;
    var d := RelaysPayload(c, b, Source, x);
    t := ReportsBack(c, d, Source, k);
    FirstAckWaits(d.(source := d.source.(handlers := [])), Source, k);
  }

  lemma SourceBodySends(c: Config, n: Node, k: int, hist: seq<Happening>) returns (x: Sealed)
    requires Usable(c) && k in BILATERAL_STEPS && n.host.keyFile == Some(c.stakedKey) && n.open
    ensures var e := SourceBody(c, n, Handler(k, Begun), ALL_WELL);
            && e.host == n.host && e.queue == n.queue && e.sent == [Payload(x)] && e.pc == Finished
            && BelongsTo(c, x, k, hist + e.log)
  {
    hide BelongsTo, SendTower, SendIdentity;
    var e := SourceBody(c, n, Handler(k, Begun), ALL_WELL);
    var pubkey := DerivePubkey(c.suite, c.stakedKey).value;
    x := e.sent[0].sealed;
    if k == 4 {
      TowerBelongs(c, NONCE, [], pubkey, hist + e.log);
    } else {
      IdentityBelongs(c, NONCE, pubkey, hist + e.log);
    }
  }

  /** The first of two acks is only recorded. */
  lemma FirstAckWaits(s: Sys, r: Role, k: int)
    requires s.core.state == Migrating && s.core.currentStep == k && k in BILATERAL_STEPS && s.core.acks == map[]
    ensures HubStep(s, StepComplete(k, r, 0)) == s.(core := s.core.(acks := map[k := {r}]))
  {
    assert {} + {r} == {r};
    assert s.core.acks[k := {r}] == map[k := {r}];
    assert s.source.toAgent + [] == s.source.toAgent && s.target.toAgent + [] == s.target.toAgent;
  }

  lemma PayloadIsQueued(c: Config, n: Node, k: int, x: Sealed, hist: seq<Happening>)
    requires BelongsTo(c, x, k, hist) && n.listening && n.toAgent == [Relay(x)]
    ensures AgentHandles(c, Target, n) == n.(toAgent := [], queue := n.queue + [x])
  {
    hide KindAt, ReceiveTower, ReceiveIdentity;
  }

  lemma PayloadIsTaken(c: Config, n: Node, k: int, x: Sealed, hist: seq<Happening>)
    requires BelongsTo(c, x, k, hist) && n.queue == [x] && k in BILATERAL_STEPS
    ensures var e := TargetBody(c, n, Handler(k, Begun), ALL_WELL);
            && e.queue == [] && e.sent == [] && e.pc == Finished
            && (k == 5 ==> e.host.keyPathSet && e.host.knownPubkey.Some?)
  {
    hide KindAt, ReceiveTower, ReceiveIdentity, Scan;
    SingleScan(TheReader(c), x, if k == 4 then TowerKind else IdentityKind);
  }

  lemma BilateralStep(c: Config, s: Sys, k: int) returns (t: Sys)
    requires Usable(c) && Reachable(c, s) && Ready(c, s, k) && k in BILATERAL_STEPS
    ensures Reachable(c, t) && Ready(c, t, k + 1)
  {
    hide Reachable, HubStep, TargetBody, BelongsTo, AgentHandles, Usable;
    var a, x, hist := SourceSendsIts(c, s, k);
    var b := Accepts(c, a, Target, k, [Relay(x)]);
    var d := Next(c, b, AgentReceive(Target));
    Onward(c, b, AgentReceive(Target));
    PayloadIsQueued(c, b.target, k, x, hist);
    assert d.target.queue == [x];
    var e := Next(c, d, RunBody(Target, 0, ALL_WELL));
    Onward(c, d, RunBody(Target, 0, ALL_WELL));
    PayloadIsTaken(c, d.target, k, x, hist);
    t := ReportsBack(c, e, Target, k);
    Advances(e.(target := e.target.(handlers := [])), Target, k, 0);
  }

  /** Step 6 up to the point where the target is on the staked identity, for any
      answer of the cluster that the gate accepts. */
  lemma Activates(c: Config, s: Sys, poll: Poll) returns (t: Sys)
    requires Reachable(c, s) && Ready(c, s, 6)
    requires c.skipQuietGate || ShowsQuiet(poll, s.target.host.knownPubkey.value)
    ensures Reachable(c, t)
    ensures t.core == s.core && t.source == s.source && t.rolledBackAt == None
    ensures !c.skipQuietGate ==> SourceQuiet(poll, s.target.host.knownPubkey.value) in t.hist
    ensures var n := t.target;
            && n == s.target.(toAgent := [], started := n.started, handlers := [Handler(6, Finished)],
                              host := s.target.host.(staked := true))
  {
    hide Reachable, ShowsQuiet, TakeTower, TakeIdentity, SendVotingConfirmed, SourceBody, HubStep;
    var a := Accepts(c, s, Target, 6, []);
    var ch := ALL_WELL.(poll := poll);
    var b := Next(c, a, RunBody(Target, 0, ch));
    Onward(c, a, RunBody(Target, 0, ch));
    assert b.target.handlers == [Handler(6, GatePassed)];
    t := Next(c, b, RunBody(Target, 0, ch));
    Onward(c, b, RunBody(Target, 0, ch));
  }

  lemma ActivationStep(c: Config, s: Sys) returns (t: Sys)
    requires Reachable(c, s) && Ready(c, s, 6)
    ensures Reachable(c, t) && Ready(c, t, 7)
  {
    hide Reachable, HubStep;
    var a := Activates(c, s, Returned(Some([])));
    t := ReportsBack(c, a, Target, 6);
    Advances(a.(target := a.target.(handlers := [])), Target, 6, 0);
  }

  /** Step 8: the confirmation reaches the source ahead of step 9. */
  lemma VerificationStep(c: Config, s: Sys, poll: Poll) returns (t: Sys)
    requires Usable(c) && Reachable(c, s) && Ready(c, s, 8) && ShowsVoting(poll, s.target.host.knownPubkey.value)
    ensures Reachable(c, t) && Ready(c, t, 9)
    ensures VotingSeen(poll, s.target.host.knownPubkey.value) in t.hist
  {
    hide Reachable, HubStep, SendVotingConfirmed, IsVote, ShowsVoting;
    var ch := ALL_WELL.(poll := poll);
    var a := Accepts(c, s, Target, 8, []);
    var b, x := ConfirmsVoting(c, a, ch);
    var d := RelaysPayload(c, b, Target, x);
    var e := ReportsBack(c, d, Target, 8);
    Advances(d.(target := d.target.(handlers := [])), Target, 8, 0);
    CallsAddNoHistory(d.(target := d.target.(handlers := [])), StepComplete(8, Target, 0));
    assert e.source.toAgent == [Relay(x), Execute(9)];
    t := Next(c, e, AgentReceive(Source));
    Onward(c, e, AgentReceive(Source));
    ConfirmationIsNoted(c, e.source, x);
  }

  lemma CallsAddNoHistory(s: Sys, call: Call)
    ensures HubStep(s, call).hist == s.hist
  {
  }

  /** The check passes and the confirmation is sent. */
  lemma ConfirmsVoting(c: Config, a: Sys, ch: Choice) returns (b: Sys, x: Sealed)
    requires Usable(c) && Reachable(c, a) && a.target.host.knownPubkey.Some? && |ch.nonce| == NONCE_LENGTH
    requires a.target.up && a.target.open && a.target.handlers == [Handler(8, Begun)] && a.target.toHub == []
    requires ShowsVoting(ch.poll, a.target.host.knownPubkey.value)
    ensures Reachable(c, b) && IsVote(c, x)
    ensures b == a.(hist := b.hist,
                    target := a.target.(handlers := [Handler(8, Finished)], toHub := [Payload(x)]))
    ensures VotingSeen(ch.poll, a.target.host.knownPubkey.value) in b.hist
  {
    hide Reachable, HubStep, SendVotingConfirmed, IsVote, ShowsVoting;
    b := Next(c, a, RunBody(Target, 0, ch));
    Onward(c, a, RunBody(Target, 0, ch));
    x := b.target.toHub[0].sealed;
    VoteIsVote(c, ch, x);
  }

  /** Some look at the cluster does show the key voting. */
  lemma VotesAt(c: Config, s: Sys) returns (t: Sys)
    requires Usable(c) && Reachable(c, s) && Ready(c, s, 8)
    ensures Reachable(c, t) && Ready(c, t, 9)
  {
    hide Reachable, HubStep;
    t := VerificationStep(c, s, Returned(Some([Validator(s.target.host.knownPubkey.value, Some(false), Some(1))])));
  }

  lemma ConfirmationIsNoted(c: Config, n: Node, x: Sealed)
    requires IsVote(c, x) && n.listening && n.toAgent == [Relay(x), Execute(9)]
    ensures AgentHandles(c, Source, n) == n.(toAgent := [Execute(9)], peerVotingConfirmed := true)
  {
    hide KindAt;
  }

  // ---------- From create to any step ----------

  /** A call whose events send the agents nothing. */
  lemma SilentCall(c: Config, s: Sys, call: Call) returns (t: Sys)
    requires Reachable(c, s) && FromOutside(call)
    requires var events := Apply(s.core, call).events;
             events == [] || (events == [events[0]] && events[0].StateChange? && events[0].to !in {Preflight, Rollback})
    ensures Reachable(c, t) && t == s.(core := Apply(s.core, call).core)
  {
    hide Reachable, Apply;
    var events := Apply(s.core, call).events;
    if events != [] {
      OneEventSends(Source, events[0]);
      OneEventSends(Target, events[0]);
    }
    assert s.source.toAgent + [] == s.source.toAgent && s.target.toAgent + [] == s.target.toAgent;
    t := Next(c, s, HubCall(call));
    Onward(c, s, HubCall(call));
  }

  /** Both agents are up, listen and are connected. */
  lemma Connected(c: Config) returns (s: Sys)
    ensures Reachable(c, s)
    ensures s.core == Fresh(0).(state := Pairing, agents := PerRole(true, true)) && s.rolledBackAt == None
    ensures Calm(s.source) && Calm(s.target) && s.source.toAgent == [] && s.target.toAgent == []
    ensures s.source.host.keyFile == Some(c.stakedKey)
  {
    hide Reachable, HubStep;
    var i := Init(c, 0);
    Beginning(c, i);
    var a := Next(c, i, Listen(Source));
    Onward(c, i, Listen(Source));
    var b := Next(c, a, Listen(Target));
    Onward(c, a, Listen(Target));
    b := SilentCall(c, b, AgentConnected(Source));
    s := SilentCall(c, b, AgentConnected(Target));
  }

  /** The codes are confirmed and the checks pass. */
  lemma Handshake(c: Config) returns (s: Sys)
    ensures Reachable(c, s)
    ensures s.core.state == AwaitingWindow && s.core.acks == map[] && s.rolledBackAt == None
    ensures Calm(s.source) && Calm(s.target) && s.source.toAgent == [RunPreflight] && s.target.toAgent == [RunPreflight]
    ensures s.source.host.keyFile == Some(c.stakedKey)
  {
    hide Reachable, HubStep;
    var b := Connected(c);
    b := SilentCall(c, b, SasConfirmed(Source));
    var d := CodesConfirmed(c, b);
    d := SilentCall(c, d, PreflightResult(Source, []));
    s := SilentCall(c, d, PreflightResult(Target, []));
  }

  lemma Beginning(c: Config, i: Sys)
    requires LeadsTo(c, 0, [], i)
    ensures Reachable(c, i)
  {
  }

  lemma CodesConfirmed(c: Config, s: Sys) returns (t: Sys)
    requires Reachable(c, s) && s.core.state == Pairing && s.core.sas == PerRole(true, false)
    requires s.source.open && s.target.open && s.source.toAgent == [] && s.target.toAgent == []
    ensures Reachable(c, t)
    ensures t == s.(core := s.core.(state := Preflight, sas := PerRole(true, true)),
                    source := s.source.(toAgent := [RunPreflight]), target := s.target.(toAgent := [RunPreflight]))
  {
    hide Reachable;
    OneEventSends(Source, StateChange(Pairing, Preflight));
    OneEventSends(Target, StateChange(Pairing, Preflight));
    t := Next(c, s, HubCall(SasConfirmed(Target)));
    Onward(c, s, HubCall(SasConfirmed(Target)));
  }

  lemma IgnoresPreflight(c: Config, s: Sys, r: Role) returns (t: Sys)
    requires Reachable(c, s) && At(s, r).up && At(s, r).toAgent == [RunPreflight]
    ensures Reachable(c, t) && t == Put(s, r, At(s, r).(toAgent := []))
  {
    t := Next(c, s, AgentReceive(r));
    Onward(c, s, AgentReceive(r));
  }

  lemma WindowOpens(s: Sys)
    requires s.core.state == AwaitingWindow && s.core.acks == map[] && s.source.open && s.target.open
    ensures var t := HubStep(s, StartMigration(0));
            && t.core.state == Migrating && t.core.currentStep == 1 && t.core.acks == map[]
            && t.rolledBackAt == s.rolledBackAt
            && t.source == s.source.(toAgent := s.source.toAgent + [Execute(1)])
            && t.target == s.target.(toAgent := s.target.toAgent + [])
  {
    hide AllMessagesFor;
    var e, f := StateChange(AwaitingWindow, Migrating), ExecuteStep(Source, 1);
    TwoEventsSend(Source, e, f);
    TwoEventsSend(Target, e, f);
  }

  lemma FirstStep(c: Config) returns (t: Sys)
    requires Usable(c)
    ensures Reachable(c, t) && Ready(c, t, 1)
  {
    hide Reachable, HubStep;
    var s := Handshake(c);
    s := IgnoresPreflight(c, s, Source);
    s := IgnoresPreflight(c, s, Target);
    t := Next(c, s, HubCall(StartMigration(0)));
    Onward(c, s, HubCall(StartMigration(0)));
    WindowOpens(s);
  }

  /** Every step can be reached without anything going wrong. */
  lemma GetsTo(c: Config, k: int) returns (t: Sys)
    requires Usable(c) && 1 <= k <= TOTAL_STEPS
    ensures Reachable(c, t) && Ready(c, t, k)
    decreases k
  {
    hide Reachable, Ready, Usable;
    if k == 1 {
      t := FirstStep(c);
    } else {
      var s := GetsTo(c, k - 1);
      if k - 1 in BILATERAL_STEPS {
        t := BilateralStep(c, s, k - 1);
      } else if k - 1 == 6 {
        t := ActivationStep(c, s);
      } else if k - 1 == 8 {
        t := VotesAt(c, s);
      } else {
        t := OneAgentStep(c, s, k - 1);
      }
    }
  }

  /** A migration can complete; `CompleteIsHandedOver` says what it then achieved. */
  lemma CanComplete(c: Config) returns (t: Sys)
    requires Usable(c)
    ensures Reachable(c, t) && t.core.state == Complete
  {
    hide Reachable, HubStep, Usable;
    var s := GetsTo(c, 9);
    var a := KeyIsDestroyed(c, s);
    t := ReportsBack(c, a, Source, 9);
    LastAckCompletes(a.(source := a.source.(handlers := [])));
  }

  /** Step 9 up to the point where the source's key file is gone. */
  lemma KeyIsDestroyed(c: Config, s: Sys) returns (t: Sys)
    requires Usable(c) && Reachable(c, s) && Ready(c, s, 9)
    ensures Reachable(c, t)
    ensures t.core == s.core && t.target == s.target && t.rolledBackAt == None && s.hist <= t.hist
    ensures var n := t.source;
            n == s.source.(toAgent := [], started := n.started, handlers := [Handler(9, Finished)],
                           host := s.source.host.(keyFile := None))
  {
    hide Reachable;
    var a := Accepts(c, s, Source, 9, []);
    t := Next(c, a, RunBody(Source, 0, ALL_WELL));
    Onward(c, a, RunBody(Source, 0, ALL_WELL));
  }

  lemma LastAckCompletes(s: Sys)
    requires s.core.state == Migrating && s.core.currentStep == 9
    ensures HubStep(s, StepComplete(9, Source, 0)).core.state == Complete
  {
  }

  /** Some run activates the target after the gate accepted this answer. */
  ghost predicate ActivatesOn(c: Config, poll: Poll) {
    exists s, pubkey :: Reachable(c, s) && s.target.host.staked && SourceQuiet(poll, pubkey) in s.hist
                        && DerivePubkey(c.suite, c.stakedKey) == Some(pubkey)
  }

  /** The answers on which a target can be activated are exactly those that pass the
      gate's test; so a list that is missing, or one that names the source twice, can
      let it through although the source was not seen quiet. */
  lemma ActivatesExactly(c: Config, poll: Poll)
    requires Usable(c) && !c.skipQuietGate
    ensures ActivatesOn(c, poll) <==> ShowsQuiet(poll, DerivePubkey(c.suite, c.stakedKey).value)
    ensures ActivatesOn(c, Returned(None))
  {
    hide Reachable, ShowsQuiet, DerivePubkey;
    var k := DerivePubkey(c.suite, c.stakedKey).value by { KeyHasPubkey(c); }
    if ActivatesOn(c, poll) {
      var s, pubkey :| Reachable(c, s) && s.target.host.staked && SourceQuiet(poll, pubkey) in s.hist
                       && DerivePubkey(c.suite, c.stakedKey) == Some(pubkey);
      QuietPollsPassed(c, s, poll, pubkey);
    }
    if ShowsQuiet(poll, k) {
      CanActivateOn(c, poll, k);
    }
    UnseenSourcesPass(k);
    CanActivateOn(c, Returned(None), k);
  }

  lemma KeyHasPubkey(c: Config)
    requires Usable(c)
    ensures DerivePubkey(c.suite, c.stakedKey).Some?
  {
  }

  lemma QuietPollsPassed(c: Config, s: Sys, poll: Poll, pubkey: string)
    requires ValidConfig(c) && Reachable(c, s) && SourceQuiet(poll, pubkey) in s.hist
    ensures PassedOnStakedKey(c, poll, pubkey)
  {
    hide CoreInv, AgentInv, PipeInv, VoteInv, CausalInv, HostInv, PassedOnStakedKey, Achieved, ActivationReady, WipeReady;
    ReachableInv(c, s);
  }

  lemma CanActivateOn(c: Config, poll: Poll, k: string)
    requires Usable(c) && !c.skipQuietGate && ShowsQuiet(poll, k) && DerivePubkey(c.suite, c.stakedKey) == Some(k)
    ensures ActivatesOn(c, poll)
  {
    hide Reachable, ShowsQuiet, DerivePubkey;
    var s := GetsTo(c, 6);
    KnownPubkeyIsDerived(c, s);
    var t := Activates(c, s, poll);
  }

  lemma KnownPubkeyIsDerived(c: Config, s: Sys)
    requires ValidConfig(c) && Reachable(c, s) && s.target.host.knownPubkey.Some?
    ensures s.target.host.knownPubkey == DerivePubkey(c.suite, c.stakedKey)
  {
    hide CoreInv, AgentInv, HistInv, PipeInv, VoteInv, CausalInv, DerivePubkey;
    ReachableInv(c, s);
  }

  /** Some run wipes the source's key file after step 8 looked at this answer. */
  ghost predicate WipesOn(c: Config, poll: Poll) {
    exists s, pubkey :: Reachable(c, s) && s.source.host.keyFile.None? && VotingSeen(poll, pubkey) in s.hist
                        && DerivePubkey(c.suite, c.stakedKey) == Some(pubkey)
  }

  /** The answers on which the source's key can be wiped are exactly those whose first
      entry for the staked key's public half votes; a later entry that does not, or
      another server voting with that key, makes no difference. */
  lemma WipesExactly(c: Config, poll: Poll)
    requires Usable(c)
    ensures WipesOn(c, poll) <==> ShowsVoting(poll, DerivePubkey(c.suite, c.stakedKey).value)
  {
    hide Reachable, ShowsVoting, DerivePubkey;
    var k := DerivePubkey(c.suite, c.stakedKey).value by { KeyHasPubkey(c); }
    if WipesOn(c, poll) {
      var s, pubkey :| Reachable(c, s) && s.source.host.keyFile.None? && VotingSeen(poll, pubkey) in s.hist
                       && DerivePubkey(c.suite, c.stakedKey) == Some(pubkey);
      VotesSeenPassed(c, s, poll, pubkey);
    }
    if ShowsVoting(poll, k) {
      CanWipeOn(c, poll, k);
    }
  }

  lemma VotesSeenPassed(c: Config, s: Sys, poll: Poll, pubkey: string)
    requires ValidConfig(c) && Reachable(c, s) && VotingSeen(poll, pubkey) in s.hist
    ensures VotedOnStakedKey(c, poll, pubkey)
  {
    hide CoreInv, AgentInv, PipeInv, VoteInv, CausalInv, HostInv, VotedOnStakedKey, Achieved, ActivationReady, WipeReady;
    ReachableInv(c, s);
  }

  lemma CanWipeOn(c: Config, poll: Poll, k: string)
    requires Usable(c) && ShowsVoting(poll, k) && DerivePubkey(c.suite, c.stakedKey) == Some(k)
    ensures WipesOn(c, poll)
  {
    hide Reachable, ShowsVoting, DerivePubkey;
    var s := GetsTo(c, 8);
    KnownPubkeyIsDerived(c, s);
    var t := VerificationStep(c, s, poll);
    t := KeyIsDestroyed(c, t);
  }

  // ---------- Rollbacks ----------

  const SOURCE_ROLLBACK: seq<HubMsg> := [
    RollbackFlag, ExecuteRollback(RestoreSourceIdentity), RollbackFlag, ExecuteRollback(ReaddAuthorizedVoterSource),
    RollbackFlag, RollbackFlag, ExecuteRollback(VerifySourceVoting)]

  const TARGET_ROLLBACK: seq<HubMsg> := [
    RollbackFlag, RollbackFlag, RollbackFlag, ExecuteRollback(RemoveTransferredFilesTarget), RollbackFlag]

  function RollbackMessages(r: Role): seq<HubMsg> {
    if r == Source then SOURCE_ROLLBACK else TARGET_ROLLBACK
  }

  lemma TableMessages(r: Role)
    ensures AllMessagesFor(r, IssueAll(ROLLBACK_SEQUENCE)) == RollbackMessages(r)
  {
    hide AllMessagesFor;
    var t := ROLLBACK_SEQUENCE;
    var a, b := [RollbackIssued(t[0]), RollbackIssued(t[1])], [RollbackIssued(t[2]), RollbackIssued(t[3])];
    assert IssueAll(t) == a + b;
    MessagesConcat(r, a, b);
    TwoEventsSend(r, a[0], a[1]);
    TwoEventsSend(r, b[0], b[1]);
  }

  /** What a rollback tells each agent: every step to its executor, a bare flag to
      the other; nothing tells the target to give up the staked identity. */
  lemma RollbackSends(o: Core, r: Role, reason: Reason)
    requires o.state == Migrating && ShouldRollback(o.currentStep)
    ensures AllMessagesFor(r, RollBack(o, [], reason).events) == RollbackMessages(r)
  {
    hide AllMessagesFor;
    var enter := [StateChange(Migrating, Rollback)];
    var table := IssueAll(ROLLBACK_SEQUENCE);
    var leave := [StateChange(Rollback, Failed), SessionFailed(reason)];
    assert RollBack(o, [], reason).events == enter + table + leave;
    MessagesConcat(r, enter + table, leave);
    MessagesConcat(r, enter, table);
    OneEventSends(r, enter[0]);
    TableMessages(r);
    TwoEventsSend(r, leave[0], leave[1]);
  }

  /** An operator aborts at step `k`. */
  lemma Aborts(c: Config, s: Sys) returns (t: Sys)
    requires Reachable(c, s) && s.core.state == Migrating && ShouldRollback(s.core.currentStep)
    requires s.source.open && s.target.open
    ensures Reachable(c, t) && t.rolledBackAt == Some(s.core.currentStep)
    ensures t.source == s.source.(toAgent := s.source.toAgent + SOURCE_ROLLBACK)
    ensures t.target == s.target.(toAgent := s.target.toAgent + TARGET_ROLLBACK)
  {
    hide Reachable, AllMessagesFor;
    RollbackSends(s.core, Source, Plain(""));
    RollbackSends(s.core, Target, Plain(""));
    RollBackEntersRollback(s.core, [], Plain(""));
    t := Next(c, s, HubCall(Abort("")));
    Onward(c, s, HubCall(Abort("")));
  }

  /** The target is staked; the source is idle and still has its key file. */
  predicate Armed(c: Config, s: Sys) {
    && s.core.state == Migrating && s.core.currentStep >= 6 && s.rolledBackAt == None
    && s.target.host.staked && s.target.open
    && s.source.up && s.source.listening && s.source.open
    && s.source.toAgent == [] && s.source.rollbacks == [] && s.source.host.keyFile.Some?
  }

  lemma GetsArmed(c: Config, k: int) returns (t: Sys)
    requires Usable(c) && 6 <= k <= 9
    ensures Reachable(c, t) && Armed(c, t) && t.core.currentStep == k
  {
    hide Reachable, Usable;
    t := GetsTo(c, k);
    if k == 6 {
      t := Activates(c, t, Returned(Some([])));
    } else if k == 9 {
      t := Accepts(c, t, Source, 9, []);
    }
  }

  /** An abort then puts the source back on the staked identity beside the target. */
  lemma SourceIsRestored(c: Config, s: Sys) returns (t: Sys)
    requires c.hasKeypair && Reachable(c, s) && Armed(c, s)
    ensures Reachable(c, t) && t.rolledBackAt == Some(s.core.currentStep)
    ensures t.source.host.staked && t.target.host.staked
  {
    hide Reachable;
    var a := Aborts(c, s);
    assert a.source.toAgent == SOURCE_ROLLBACK;
    var b := Next(c, a, AgentReceive(Source));
    Onward(c, a, AgentReceive(Source));
    assert b.source == a.source.(toAgent := SOURCE_ROLLBACK[1..]);
    var d := Next(c, b, AgentReceive(Source));
    Onward(c, b, AgentReceive(Source));
    assert d.source.rollbacks == [RestoreSourceIdentity] && d.target == a.target;
    t := RollbackStepSucceeds(c, d, Source, false);
  }

  /** A rollback at step 9 can meet a source whose key file is already destroyed. */
  lemma KeyIsLost(c: Config) returns (t: Sys)
    requires Usable(c)
    ensures Reachable(c, t) && t.rolledBackAt == Some(9) && t.target.up && !t.target.exited
    ensures t.source.host.keyFile == None && t.target.host.receivedKey == None
  {
    hide Reachable, Usable, HubStep;
    var s := GetsTo(c, 9);
    var a := KeyIsDestroyed(c, s);
    var b := Aborts(c, a);
    var d := TargetIsToldToRemove(c, b);
    t := RollbackStepSucceeds(c, d, Target, false);
  }

  lemma TargetIsToldToRemove(c: Config, s: Sys) returns (t: Sys)
    requires Reachable(c, s)
    requires s.target.up && s.target.listening && s.target.rollbacks == [] && s.target.toAgent == TARGET_ROLLBACK
    ensures Reachable(c, t) && t.source == s.source && t.rolledBackAt == s.rolledBackAt
    ensures t.target == s.target.(toAgent := [RollbackFlag], rollbacks := [RemoveTransferredFilesTarget])
  {
    hide Reachable;
    t := s;
    for n := 0 to 3
      invariant Reachable(c, t) && t == s.(target := s.target.(toAgent := TARGET_ROLLBACK[n..]))
    {
      t := TargetIgnoresFlag(c, t);
      assert TARGET_ROLLBACK[n..][1..] == TARGET_ROLLBACK[n + 1..];
    }
    var u := Next(c, t, AgentReceive(Target));
    Onward(c, t, AgentReceive(Target));
    t := u;
  }

  lemma TargetIgnoresFlag(c: Config, s: Sys) returns (t: Sys)
    requires Reachable(c, s) && s.target.up && s.target.toAgent != [] && s.target.toAgent[0] == RollbackFlag
    ensures Reachable(c, t) && t == s.(target := s.target.(toAgent := s.target.toAgent[1..]))
  {
    t := Next(c, s, AgentReceive(Target));
    Onward(c, s, AgentReceive(Target));
  }

  // ---------- What a rollback can put right ----------

  /** The rollback steps a stretch of messages asks for. */
  function NamesIn(ms: seq<HubMsg>): seq<RollbackName> {
    if ms == [] then []
    else if ms[0].ExecuteRollback? then [ms[0].name] + NamesIn(ms[1..])
    else NamesIn(ms[1..])
  }

  /** A message of a rollback that the agent acts on or ignores, but does not refuse. */
  predicate Accepted(c: Config, r: Role, n: Node, m: HubMsg) {
    || m.RollbackFlag? || m.Execute?
    || (m.ExecuteRollback? && (m.name == RemoveTransferredFilesTarget <==> r == Target)
        && (r == Source ==> c.hasKeypair && c.hasVoteKeypair && n.host.keyFile.Some?))
  }

  /** The same server, connection and reports; nothing unread but `rest`. */
  predicate TookMessages(s: Sys, r: Role, t: Sys, rest: seq<HubMsg>, names: seq<RollbackName>) {
    && At(t, Peer(r)) == At(s, Peer(r)) && t.rolledBackAt == s.rolledBackAt
    && At(t, r).up == At(s, r).up && At(t, r).listening == At(s, r).listening && At(t, r).open == At(s, r).open
    && At(t, r).host == At(s, r).host && At(t, r).toAgent == rest && At(t, r).rollbacks == names
  }

  lemma TakesOne(c: Config, s: Sys, r: Role) returns (t: Sys)
    requires Reachable(c, s) && At(s, r).up && At(s, r).listening && At(s, r).toAgent != []
    requires Accepted(c, r, At(s, r), At(s, r).toAgent[0])
    ensures Reachable(c, t)
    ensures var ms := At(s, r).toAgent;
            TookMessages(s, r, t, ms[1..], At(s, r).rollbacks + if ms[0].ExecuteRollback? then [ms[0].name] else [])
  {
    hide Reachable, KindAt, HubHandles, AfterBody;
    t := Next(c, s, AgentReceive(r));
    Onward(c, s, AgentReceive(r));
    assert At(s, r).rollbacks + [] == At(s, r).rollbacks;
  }

  /** An agent works through everything it has been sent. */
  lemma {:induction false} TakesAll(c: Config, s: Sys, r: Role) returns (t: Sys)
    requires Reachable(c, s) && At(s, r).up && At(s, r).listening
    requires forall i :: 0 <= i < |At(s, r).toAgent| ==> Accepted(c, r, At(s, r), At(s, r).toAgent[i])
    ensures Reachable(c, t)
    ensures TookMessages(s, r, t, [], At(s, r).rollbacks + NamesIn(At(s, r).toAgent))
    decreases |At(s, r).toAgent|
  {
    hide Reachable;
    var ms := At(s, r).toAgent;
    if ms == [] {
      t := s;
      assert At(s, r).rollbacks + [] == At(s, r).rollbacks;
    } else {
      var u := TakesOne(c, s, r);
      assert forall i :: 0 <= i < |ms[1..]| ==> ms[1..][i] == ms[i + 1];
      t := TakesAll(c, u, r);
      var first := if ms[0].ExecuteRollback? then [ms[0].name] else [];
      assert At(s, r).rollbacks + first + NamesIn(ms[1..]) == At(s, r).rollbacks + NamesIn(ms);
    }
  }

  lemma {:induction false} NamesConcat(a: seq<HubMsg>, b: seq<HubMsg>)
    ensures NamesIn(a + b) == NamesIn(a) + NamesIn(b)
  {
    if a == [] {
      assert a + b == b;
    } else {
      assert (a + b)[1..] == a[1..] + b;
      NamesConcat(a[1..], b);
    }
  }

  lemma NamesOfTables()
    ensures NamesIn(SOURCE_ROLLBACK) == [RestoreSourceIdentity, ReaddAuthorizedVoterSource, VerifySourceVoting]
    ensures NamesIn(TARGET_ROLLBACK) == [RemoveTransferredFilesTarget]
  {
    var a, b := [RollbackFlag, ExecuteRollback(RestoreSourceIdentity)], [RollbackFlag, ExecuteRollback(ReaddAuthorizedVoterSource)];
    var d := [RollbackFlag, RollbackFlag, ExecuteRollback(VerifySourceVoting)];
    assert SOURCE_ROLLBACK == a + b + d;
    NamesConcat(a + b, d);
    NamesConcat(a, b);
    var e, f := [RollbackFlag, RollbackFlag, RollbackFlag], [ExecuteRollback(RemoveTransferredFilesTarget), RollbackFlag];
    assert TARGET_ROLLBACK == e + f;
    NamesConcat(e, f);
    assert a[1..] == [a[1]] && b[1..] == [b[1]] && d[1..] == [d[1], d[2]] && d[1..][1..] == [d[2]];
    assert e[1..] == [e[1], e[2]] && e[1..][1..] == [e[2]] && f[1..] == [f[1]];
  }

  /** The first rollback handler of an agent finishes well. */
  lemma RollbackStepSucceeds(c: Config, s: Sys, r: Role, took: bool) returns (t: Sys)
    requires Reachable(c, s) && At(s, r).up && At(s, r).rollbacks != []
    ensures Reachable(c, t) && At(t, Peer(r)) == At(s, Peer(r)) && t.rolledBackAt == s.rolledBackAt
    ensures At(t, r).up && At(t, r).exited == At(s, r).exited && At(t, r).rollbacks == At(s, r).rollbacks[1..]
    ensures var host := At(s, r).host;
            At(t, r).host == match At(s, r).rollbacks[0]
                             case RestoreSourceIdentity => host.(staked := true)
                             case ReaddAuthorizedVoterSource => host.(voter := true)
                             case RemoveTransferredFilesTarget => host.(receivedKey := None, towerFile := None)
                             case VerifySourceVoting => host
  {
    hide Reachable;
    t := Next(c, s, RunRollback(r, 0, true, took));
    Onward(c, s, RunRollback(r, 0, true, took));
  }

  /** An abort at step `k`, and both agents have taken all its instructions. */
  lemma InstructionsTaken(c: Config, k: int) returns (t: Sys)
    requires Usable(c) && c.hasVoteKeypair && 2 <= k <= TOTAL_STEPS
    ensures Reachable(c, t) && t.rolledBackAt == Some(k)
    ensures t.source.up && t.source.rollbacks == [RestoreSourceIdentity, ReaddAuthorizedVoterSource, VerifySourceVoting]
    ensures t.target.up && t.target.rollbacks == [RemoveTransferredFilesTarget]
    ensures t.source.host.keyFile == Some(c.stakedKey)
  {
    hide Reachable, Assigned, NamesIn, Accepted;
    var s := GetsTo(c, k);
    var a := Aborts(c, s);
    NamesOfTables();
    NamesConcat(s.source.toAgent, SOURCE_ROLLBACK);
    NamesConcat(s.target.toAgent, TARGET_ROLLBACK);
    OnlyExecutes(s.source.toAgent, k);
    OnlyExecutes(s.target.toAgent, k);
    TablesAreAccepted(c, Source, a.source, s.source.toAgent, k);
    TablesAreAccepted(c, Target, a.target, s.target.toAgent, k);
    var b := TakesAll(c, a, Source);
    t := TakesAll(c, b, Target);
  }

  /** From every step on, a rollback whose handlers succeed puts the source back on
      the staked identity with its voter and key, and removes what the target was
      sent; begun before step 6, it leaves the target off the staked identity. */
  lemma RollbackCanRestore(c: Config, k: int, took: bool) returns (t: Sys)
    requires Usable(c) && c.hasVoteKeypair && 2 <= k <= TOTAL_STEPS
    ensures Reachable(c, t) && t.rolledBackAt == Some(k)
    ensures t.source.host.staked && t.source.host.voter && t.source.host.keyFile == Some(c.stakedKey)
    ensures t.target.host.receivedKey == None && t.target.host.towerFile == None
    ensures k < 6 ==> !t.target.host.staked
  {
    hide Reachable;
    var b := InstructionsTaken(c, k);
    b := RollbackStepSucceeds(c, b, Source, took);
    b := RollbackStepSucceeds(c, b, Source, took);
    t := RollbackStepSucceeds(c, b, Target, took);
    if k < 6 {
      NeverStakedBeforeSix(c, t);
    }
  }

  lemma OnlyExecutes(ms: seq<HubMsg>, k: int)
    requires ms == [] || ms == [Execute(k)]
    ensures NamesIn(ms) == []
  {
    if ms != [] {
      assert ms[1..] == [];
    }
  }

  lemma TablesAreAccepted(c: Config, r: Role, n: Node, first: seq<HubMsg>, k: int)
    requires c.hasKeypair && c.hasVoteKeypair && (first == [] || first == [Execute(k)]) && n.toAgent == first + RollbackMessages(r)
    requires r == Source ==> n.host.keyFile.Some?
    ensures forall i :: 0 <= i < |n.toAgent| ==> Accepted(c, r, n, n.toAgent[i])
  {
    assert forall i :: |first| <= i < |n.toAgent| ==> n.toAgent[i] == RollbackMessages(r)[i - |first|];
  }

  lemma NeverStakedBeforeSix(c: Config, s: Sys)
    requires ValidConfig(c) && Reachable(c, s) && s.rolledBackAt.Some? && s.rolledBackAt.value < 6
    ensures !s.target.host.staked
  {
    hide HistInv, CoreInv, AgentInv, PipeInv, VoteInv, CausalInv;
    ReachableInv(c, s);
  }

  // ---------- Exactly when ----------

  /** Some run has a rollback begun at step `k` and both validators on the staked identity. */
  ghost predicate DualIdentityAfter(c: Config, k: int) {
    exists s :: Reachable(c, s) && s.rolledBackAt == Some(k) && s.source.host.staked && s.target.host.staked
  }

  /** Some run leaves the key on neither server, with the target's agent exited or
      not and the rollback, if any, begun where `at` says. */
  ghost predicate KeyGone(c: Config, exited: bool, at: Option<int>) {
    exists s :: Reachable(c, s) && s.target.exited == exited && s.rolledBackAt == at
                && s.source.host.keyFile == None && s.target.host.receivedKey == None
  }

  /** The single-identity promise fails for rollbacks begun at steps 6 to 9, each of
      them, and for no others. */
  lemma DualIdentityExactly(c: Config, k: int)
    requires Usable(c)
    ensures DualIdentityAfter(c, k) <==> 6 <= k <= 9
  {
    hide Reachable;
    if DualIdentityAfter(c, k) {
      var s :| Reachable(c, s) && s.rolledBackAt == Some(k) && s.source.host.staked && s.target.host.staked;
      RollbackStepInRange(c, s);
      if k < 6 {
        SingleIdentity(c, s);
      }
    }
    if 6 <= k <= 9 {
      var s := GetsArmed(c, k);
      s := SourceIsRestored(c, s);
    }
  }

  lemma RollbackStepInRange(c: Config, s: Sys)
    requires ValidConfig(c) && Reachable(c, s) && s.rolledBackAt.Some?
    ensures 0 <= s.rolledBackAt.value <= 9
  {
    hide AgentInv, HistInv, PipeInv, VoteInv, CausalInv;
    ReachableInv(c, s);
  }

  /** The key ends up on neither server in exactly two ways: a rollback begun at
      step 9, or an exit of the target's agent after the source's wipe. */
  lemma KeyGoneExactly(c: Config, exited: bool, at: Option<int>)
    requires Usable(c)
    ensures KeyGone(c, exited, at) <==> at == Some(9) || (exited && at == None)
  {
    hide Reachable, Enabled, Next;
    if KeyGone(c, exited, at) {
      var s :| Reachable(c, s) && s.target.exited == exited && s.rolledBackAt == at
               && s.source.host.keyFile == None && s.target.host.receivedKey == None;
      WipedMeansNinth(c, s);
      if !exited && at != Some(9) {
        KeyConservation(c, s);
      }
    }
    if at == Some(9) {
      var s := KeyIsLost(c);
      if exited {
        s := TargetExits(c, s);
      }
    } else if exited && at == None {
      var s := GetsTo(c, 9);
      s := KeyIsDestroyed(c, s);
      s := TargetExits(c, s);
    }
  }

  lemma WipedMeansNinth(c: Config, s: Sys)
    requires ValidConfig(c) && Reachable(c, s) && s.source.host.keyFile == None
    ensures s.rolledBackAt == None || s.rolledBackAt == Some(9)
  {
    hide AgentInv, HistInv, PipeInv, VoteInv, CausalInv, CoreInv;
    ReachableInv(c, s);
  }

  lemma TargetExits(c: Config, s: Sys) returns (t: Sys)
    requires Reachable(c, s) && s.target.up
    ensures Reachable(c, t) && t.target.exited && t.target.host.receivedKey == None
    ensures t.source == s.source && t.rolledBackAt == s.rolledBackAt
  {
    hide Reachable;
    t := Next(c, s, Exit(Target, true));
    Onward(c, s, Exit(Target, true));
  }
}
