/** Whole lives of the agent's process: begun anywhere a run of the system has got to,
    with the hub, the peer and the connections moving at every wait, its code stays
    within the runs of the system, so what holds of them holds of its server. */
module AgentRuns {
  import opened Protocol
  import opened Envelope
  import opened QuietGate
  import opened System
  import opened SystemInv
  import opened SystemTheorems
  import opened SystemWitness
  import opened Agent

  /** What wakes the process: moves around it while it idles, or a step handler's turn. */
  datatype Episode = Idle(turns: seq<Action>) | Work(i: nat, world: World)

  // ---------- The processes there are ----------

  /** A process that is up has not exited, and has only its own rollback steps to do. */
  predicate LiveNode(r: Role, n: Node) {
    n.up ==> !n.exited && OwnRollbacks(r, n.rollbacks)
  }

  lemma HandlesKeepLive(c: Config, r: Role, n: Node)
    requires n.toAgent != [] && LiveNode(r, n)
    ensures LiveNode(r, AgentHandles(c, r, n))
  {
  }

  lemma RollbackKeepsLive(r: Role, n: Node, i: nat, ok: bool, took: bool)
    requires i < |n.rollbacks| && LiveNode(r, n)
    ensures LiveNode(r, AfterRollback(n, i, ok, took))
  {
  }

  lemma NextKeepsLive(c: Config, s: Sys, a: Action, r: Role)
    requires Enabled(s, a) && LiveNode(r, At(s, r))
    ensures LiveNode(r, At(Next(c, s, a), r))
  {
    hide HubStep, HubHandles, AgentHandles, AfterRollback, Body, OwnRollbacks;
    match a
    case HubCall(call) => CallsOnlySend(s, call, r);
    case HubReceive(q, now) => HandlingOnlySends(s, q, now, r);
    case AgentReceive(q) =>
      if q == r {
        HandlesKeepLive(c, r, At(s, r));
      }
    case RunRollback(q, i, ok, took) =>
      if q == r {
        RollbackKeepsLive(r, At(s, r), i, ok, took);
      }
    case _ =>
  }

  /** Every process that is up and listens in a run can be taken over by the code. */
  lemma {:induction false} RunKeepsLive(c: Config, createdAt: int, actions: seq<Action>, s: Sys, r: Role)
    requires LeadsTo(c, createdAt, actions, s)
    ensures LiveNode(r, At(s, r))
  {
    hide LiveNode, Enabled, Next;
    if actions == [] {
      InitIsLive(c, createdAt, r);
    } else {
      var before := actions[..|actions| - 1];
      var t := Execution(c, Init(c, createdAt), before).value;
      RunKeepsLive(c, createdAt, before, t, r);
      NextKeepsLive(c, t, actions[|actions| - 1], r);
    }
  }

  lemma InitIsLive(c: Config, createdAt: int, r: Role)
    ensures LiveNode(r, At(Init(c, createdAt), r))
  {
  }

  lemma ReachableIsLive(c: Config, s: Sys, r: Role)
    requires Reachable(c, s)
    ensures LiveNode(r, At(s, r))
  {
    hide LiveNode, LeadsTo;
    var createdAt, actions :| LeadsTo(c, createdAt, actions, s);
    RunKeepsLive(c, createdAt, actions, s, r);
  }

  // ---------- What an execution leads to ----------

  lemma {:induction false} ExecutionReaches(c: Config, origin: Sys, acts: seq<Action>, system: Sys)
    requires Reachable(c, origin) && Leads(c, origin, acts, system)
    ensures Reachable(c, system)
  {
    hide Reachable, Enabled, Next;
    if acts != [] {
      var before := acts[..|acts| - 1];
      var s := Execution(c, origin, before).value;
      ExecutionReaches(c, origin, before, s);
      Onward(c, s, acts[|acts| - 1]);
    }
  }

  /** What the target's server may rely on: it holds the staked identity only after a
      poll passed the gate on the staked key, unless the gate was skipped, and shares it
      with the source only after a rollback begun at step 6 or later. */
  ghost predicate TargetSafe(c: Config, server: Host, s: Sys) {
    && (server.staked && !c.skipQuietGate ==> QuietPollSeen(c, s.hist))
    && (server.staked && s.source.host.staked ==> s.rolledBackAt.Some? && s.rolledBackAt.value >= 6)
  }

  /** And the source's: its key file is gone only after the target took over and a look
      at the cluster showed the staked key voting, and then the target still has the
      key, unless its process exited or a rollback began at step 9. */
  ghost predicate SourceSafe(c: Config, server: Host, s: Sys) {
    && (server.keyFile.None? ==> s.target.host.staked && s.target.host.voter && VotePollSeen(c, s.hist))
    && (server.keyFile.None? && s.target.host.receivedKey.None? ==> s.target.exited || s.rolledBackAt == Some(9))
    && (server.staked && s.target.host.staked ==> s.rolledBackAt.Some? && s.rolledBackAt.value >= 6)
  }

  lemma ReachableIsSafe(c: Config, s: Sys)
    requires ValidConfig(c) && Reachable(c, s)
    ensures TargetSafe(c, s.target.host, s) && SourceSafe(c, s.source.host, s)
  {
    hide Reachable, QuietPollSeen, VotePollSeen, Before;
    ActivationIsGuarded(c, s);
    WipeOnlyAfterTakeover(c, s);
    if s.rolledBackAt.None? || s.rolledBackAt.value < 6 {
      SingleIdentity(c, s);
    }
    if !s.target.exited && s.rolledBackAt != Some(9) {
      KeyConservation(c, s);
    }
    if s.target.host.staked && !c.skipQuietGate {
      var k :| 0 <= k < |s.hist| && s.hist[k] == WentStaked;
      PollStaysSeen(c, s.hist, k);
    }
    if s.source.host.keyFile.None? {
      var k :| 0 <= k < |s.hist| && s.hist[k] == KeyDestroyed;
      VoteStaysSeen(c, s.hist, k);
    }
  }

  lemma PollStaysSeen(c: Config, hist: seq<Happening>, k: nat)
    requires k <= |hist| && QuietPollSeen(c, hist[..k])
    ensures QuietPollSeen(c, hist)
  {
    hide PassedOnStakedKey;
    var poll, pubkey :| SourceQuiet(poll, pubkey) in hist[..k] && PassedOnStakedKey(c, poll, pubkey);
    assert SourceQuiet(poll, pubkey) in hist;
  }

  lemma VoteStaysSeen(c: Config, hist: seq<Happening>, k: nat)
    requires k <= |hist| && VotePollSeen(c, hist[..k])
    ensures VotePollSeen(c, hist)
  {
    hide VotedOnStakedKey;
    var poll, pubkey :| VotingSeen(poll, pubkey) in hist[..k] && VotedOnStakedKey(c, poll, pubkey);
    assert VotingSeen(poll, pubkey) in hist;
  }

  // ---------- Lives ----------

  /** A handler found past its gate goes on with the command, one that was only to
      report reports. */
  method Resume(p: AgentProcess, i: nat, w: World)
    requires p.Follows() && i < |p.handlers| && p.handlers[i].pc != Begun && |w.outcome.nonce| == NONCE_LENGTH
    modifies p, p.pendingPayloads
    ensures p.Follows() && p.origin == old(p.origin)
  {
    hide Leads;
    if p.handlers[i] == Handler(6, GatePassed) && p.role == Target {
      p.SetIdentity(i, w.outcome);
    }
    p.OnTurns(w.returning);
    if p.handlers[i].pc in {Finished, Failing} {
      p.Finish(i);
    }
  }

  /** One episode. A turn for a handler that is not there is none. */
  method Wake(p: AgentProcess, e: Episode)
    requires p.Follows()
    modifies p, p.pendingPayloads
    ensures p.Follows() && p.origin == old(p.origin)
  {
    hide Leads;
    match e
    case Idle(turns) => p.OnTurns(turns);
    case Work(i, w) =>
      if i < |p.handlers| && |w.outcome.nonce| == NONCE_LENGTH {
        if p.handlers[i].pc == Begun {
          var _ := p.ExecuteStep(i, w);
        } else {
          Resume(p, i, w);
        }
      }
  }

  /** The process of agent `r`, from wherever a run of the system has got to, through
      any episodes: whatever the others do meanwhile, the system is still in a state its
      own runs reach, the process is the agent there, and its server is safe. */
  method Live(c: Config, r: Role, s: Sys, episodes: seq<Episode>) returns (p: AgentProcess)
    requires ValidConfig(c) && Reachable(c, s) && At(s, r).up && At(s, r).listening
    ensures fresh(p) && p.config == c && p.role == r && p.origin == s
    ensures p.Follows() && Reachable(c, p.system)
    ensures r == Target ==> TargetSafe(c, p.host, p.system)
    ensures r == Source ==> SourceSafe(c, p.host, p.system)
  {
    hide Leads, Reachable, TargetSafe, SourceSafe;
    ReachableIsLive(c, s, r);
    p := new AgentProcess(c, r, s);
    for k := 0 to |episodes|
      invariant fresh(p) && fresh(p.pendingPayloads) && p.config == c && p.role == r && p.origin == s
      invariant p.Follows()
    {
      Wake(p, episodes[k]);
    }
    ExecutionReaches(c, s, p.acts, p.system);
    ReachableIsSafe(c, p.system);
  }

  /** The code does take over: wherever step 6 has just been dispatched, the target's
      process reads its message, sees the source quiet and holds the identity.
      `SystemWitness.GetsTo` gives such states. */
  method TakesOver(c: Config, s: Sys, poll: Poll) returns (p: AgentProcess)
    requires Usable(c) && Reachable(c, s) && Ready(c, s, 6)
    requires c.skipQuietGate || ShowsQuiet(poll, s.target.host.knownPubkey.value)
    ensures fresh(p) && p.Follows() && Reachable(c, p.system) && p.host.staked
  {
    hide Leads, Reachable, ShowsQuiet;
    p := new AgentProcess(c, Target, s);
    p.OnMessage();
    var _ := p.Activate(0, World(0, [], [poll], [], [], ALL_WELL));
    ExecutionReaches(c, s, p.acts, p.system);
  }

  /** And it does wipe: wherever step 9 has just been dispatched, the source's process
      has the confirmation and destroys its key file. */
  method WipesKey(c: Config, s: Sys) returns (p: AgentProcess)
    requires Usable(c) && Reachable(c, s) && Ready(c, s, 9)
    ensures fresh(p) && p.Follows() && Reachable(c, p.system) && p.host.keyFile.None?
  {
    hide Leads, Reachable;
    p := new AgentProcess(c, Source, s);
    p.OnMessage();
    var _ := p.WipeKeypair(0, World(0, [], [], [], [], ALL_WELL));
    ExecutionReaches(c, s, p.acts, p.system);
  }
}
