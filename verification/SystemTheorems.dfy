/** What the invariant means for every reachable state of the composed system. */
module SystemTheorems {
  import opened Protocol
  import opened Envelope
  import opened PayloadQueue
  import opened OrchestratorSpec
  import opened HubGlue
  import opened System
  import opened SystemInv
  import opened SystemBodies

  ghost predicate Reachable(c: Config, s: Sys) {
    exists createdAt, actions :: LeadsTo(c, createdAt, actions, s)
  }

  lemma ReachableInv(c: Config, s: Sys)
    requires ValidConfig(c) && Reachable(c, s)
    ensures SysInv(c, s)
  {
    hide SysInv;
    var createdAt, actions :| LeadsTo(c, createdAt, actions, s);
    ReachableHasInv(c, createdAt, actions, s);
  }

  lemma Onward(c: Config, s: Sys, a: Action)
    requires Reachable(c, s) && Enabled(s, a)
    ensures Reachable(c, Next(c, s, a))
  {
    hide Next, Enabled;
    var createdAt, actions :| LeadsTo(c, createdAt, actions, s);
    var more := actions + [a];
    assert more[..|more| - 1] == actions && more[|more| - 1] == a;
    assert LeadsTo(c, createdAt, more, Next(c, s, a));
  }

  /** Happening `x` came before every occurrence of `y`. */
  predicate Before(hist: seq<Happening>, x: Happening, y: Happening) {
    forall i :: 0 <= i < |hist| && hist[i] == y ==> x in hist[..i]
  }

  lemma BeforeMeansToo(hist: seq<Happening>, x: Happening, y: Happening)
    requires Before(hist, x, y) && y in hist
    ensures x in hist
  {
    var i :| 0 <= i < |hist| && hist[i] == y;
    assert x in hist[..i];
  }

  /** The order that `HistInv` records, happening by happening. */
  lemma ActivationOrder(c: Config, hist: seq<Happening>)
    requires HistInv(c, hist)
    ensures Before(hist, StepDone(Source, 2), WentStaked) && Before(hist, StepDone(Source, 3), WentStaked)
    ensures Before(hist, WentUnstaked, WentStaked) && Before(hist, VotersRemoved, WentStaked)
    ensures Before(hist, KeyStored(c.stakedKey), WentStaked)
    ensures forall i :: 0 <= i < |hist| && hist[i] == WentStaked ==> GateOpen(c, hist[..i])
  {
  }

  lemma WipeOrder(c: Config, hist: seq<Happening>)
    requires HistInv(c, hist)
    ensures Before(hist, WentStaked, KeyDestroyed) && Before(hist, VoterAdded, KeyDestroyed)
    ensures Before(hist, VotingSealed, KeyDestroyed)
    ensures forall i :: 0 <= i < |hist| && hist[i] == KeyDestroyed ==> VoteShown(hist[..i])
    ensures Before(hist, StepDone(Target, 6), KeyDestroyed) && Before(hist, StepDone(Target, 7), KeyDestroyed)
    ensures Before(hist, StepDone(Target, 8), KeyDestroyed)
  {
  }

  // ---------- Single identity ----------

  /** Some poll of the cluster passed the gate on the public half of the staked key. */
  ghost predicate QuietPollSeen(c: Config, hist: seq<Happening>) {
    exists poll, pubkey :: SourceQuiet(poll, pubkey) in hist && PassedOnStakedKey(c, poll, pubkey)
  }

  /** A gate that was opened, not skipped, was opened by such a poll. */
  lemma OpenedByPoll(c: Config, hist: seq<Happening>, i: nat)
    requires HistInv(c, hist) && i <= |hist| && GateOpen(c, hist[..i]) && !c.skipQuietGate
    ensures QuietPollSeen(c, hist[..i])
  {
    hide PassedOnStakedKey, Achieved, ActivationReady, WipeReady;
    var poll, pubkey :| SourceQuiet(poll, pubkey) in hist[..i];
    assert SourceQuiet(poll, pubkey) in hist;
  }

  /** The target takes the staked identity only after the source finished steps 2
      and 3 and the target stored the key and, unless told to skip the gate, after a
      poll showed the validator with the staked key's public half absent or
      delinquent. That holds through every rollback; and the key the target then
      goes by is that public half. */
  lemma ActivationIsGuarded(c: Config, s: Sys)
    requires ValidConfig(c) && Reachable(c, s)
    ensures s.target.host.staked <==> WentStaked in s.hist
    ensures Before(s.hist, StepDone(Source, 2), WentStaked) && Before(s.hist, StepDone(Source, 3), WentStaked)
    ensures Before(s.hist, WentUnstaked, WentStaked) && Before(s.hist, VotersRemoved, WentStaked)
    ensures Before(s.hist, KeyStored(c.stakedKey), WentStaked)
    ensures !c.skipQuietGate ==>
              forall i :: 0 <= i < |s.hist| && s.hist[i] == WentStaked ==> QuietPollSeen(c, s.hist[..i])
    ensures s.target.host.staked ==>
              s.target.host.knownPubkey.Some? && s.target.host.knownPubkey == DerivePubkey(c.suite, c.stakedKey)
  {
    hide HistInv, CoreInv, AgentInv, PipeInv, VoteInv, CausalInv, Before, GateOpen, QuietPollSeen, DerivePubkey;
    ReachableInv(c, s);
    ActivationOrder(c, s.hist);
    if WentStaked in s.hist {
      BeforeMeansToo(s.hist, KeyStored(c.stakedKey), WentStaked);
    }
    if !c.skipQuietGate {
      forall i | 0 <= i < |s.hist| && s.hist[i] == WentStaked
        ensures QuietPollSeen(c, s.hist[..i])
      {
        OpenedByPoll(c, s.hist, i);
      }
    }
  }

  /** The two validators are never both on the staked identity, as long as no
      rollback began at step 6 or later. */
  lemma SingleIdentity(c: Config, s: Sys)
    requires ValidConfig(c) && Reachable(c, s)
    requires s.rolledBackAt.None? || s.rolledBackAt.value < 6
    ensures !(s.source.host.staked && s.target.host.staked)
  {
    hide HistInv, CoreInv, AgentInv, PipeInv, VoteInv, CausalInv, Before;
    ReachableInv(c, s);
    ActivationOrder(c, s.hist);
    if s.target.host.staked {
      BeforeMeansToo(s.hist, WentUnstaked, WentStaked);
    }
  }

  /** The past is never rewritten. */
  lemma HistoryGrows(c: Config, s: Sys, a: Action)
    requires Enabled(s, a)
    ensures s.hist <= Next(c, s, a).hist
  {
    hide Apply, Body, BeginRollback, AllMessagesFor;
  }

  /** Nothing that can happen, and no rollback step, takes the staked identity away
      from the target; and one begun before step 6 finds it without. */
  lemma NothingDeactivatesTarget(c: Config, s: Sys, a: Action)
    requires ValidConfig(c) && Reachable(c, s) && Enabled(s, a)
    ensures s.target.host.staked ==> Next(c, s, a).target.host.staked
    ensures s.rolledBackAt.Some? && s.rolledBackAt.value < 6 ==> !s.target.host.staked
  {
    hide HistInv, CoreInv, AgentInv, PipeInv, VoteInv, CausalInv, Next, Enabled, Reachable;
    ReachableInv(c, s);
    Onward(c, s, a);
    ReachableInv(c, Next(c, s, a));
    HistoryGrows(c, s, a);
  }

  // ---------- The staked key ----------

  /** Some poll of the cluster showed the public half of the staked key voting. */
  ghost predicate VotePollSeen(c: Config, hist: seq<Happening>) {
    exists poll, pubkey :: VotingSeen(poll, pubkey) in hist && VotedOnStakedKey(c, poll, pubkey)
  }

  lemma ShownByPoll(c: Config, hist: seq<Happening>, i: nat)
    requires HistInv(c, hist) && i <= |hist| && VoteShown(hist[..i])
    ensures VotePollSeen(c, hist[..i])
  {
    hide PassedOnStakedKey, VotedOnStakedKey, Achieved, ActivationReady, WipeReady;
    var poll, pubkey :| VotingSeen(poll, pubkey) in hist[..i];
    assert VotingSeen(poll, pubkey) in hist;
  }

  /** In every run, rollbacks included: when the source has wiped its key file, the
      target had already taken the identity and added the voter, a look at the cluster
      had shown the public half of the staked key voting, and the target had sealed the
      confirmation and finished steps 6, 7 and 8. */
  lemma WipeOnlyAfterTakeover(c: Config, s: Sys)
    requires ValidConfig(c) && Reachable(c, s)
    ensures s.source.host.keyFile == if KeyDestroyed in s.hist then None else Some(c.stakedKey)
    ensures Before(s.hist, WentStaked, KeyDestroyed) && Before(s.hist, VoterAdded, KeyDestroyed)
    ensures Before(s.hist, VotingSealed, KeyDestroyed)
    ensures forall i :: 0 <= i < |s.hist| && s.hist[i] == KeyDestroyed ==> VotePollSeen(c, s.hist[..i])
    ensures Before(s.hist, StepDone(Target, 6), KeyDestroyed) && Before(s.hist, StepDone(Target, 7), KeyDestroyed)
    ensures Before(s.hist, StepDone(Target, 8), KeyDestroyed)
    ensures s.source.host.keyFile.None? ==> s.target.host.staked && s.target.host.voter
  {
    hide HistInv, CoreInv, AgentInv, PipeInv, VoteInv, CausalInv, Before, VoteShown, VotePollSeen;
    ReachableInv(c, s);
    WipeOrder(c, s.hist);
    if KeyDestroyed in s.hist {
      BeforeMeansToo(s.hist, WentStaked, KeyDestroyed);
      BeforeMeansToo(s.hist, VoterAdded, KeyDestroyed);
    }
    forall i | 0 <= i < |s.hist| && s.hist[i] == KeyDestroyed
      ensures VotePollSeen(c, s.hist[..i])
    {
      ShownByPoll(c, s.hist, i);
    }
  }

  /** While the target's agent stays up the staked key is on one of the servers,
      unless a rollback began at step 9. */
  lemma KeyConservation(c: Config, s: Sys)
    requires ValidConfig(c) && Reachable(c, s)
    requires !s.target.exited && s.rolledBackAt != Some(9)
    ensures s.source.host.keyFile == Some(c.stakedKey) || s.target.host.receivedKey == Some(c.stakedKey)
  {
    hide HistInv, CoreInv, AgentInv, PipeInv, VoteInv, CausalInv, Before;
    ReachableInv(c, s);
    ActivationOrder(c, s.hist);
    WipeOrder(c, s.hist);
    if KeyDestroyed in s.hist {
      BeforeMeansToo(s.hist, WentStaked, KeyDestroyed);
      BeforeMeansToo(s.hist, KeyStored(c.stakedKey), WentStaked);
    }
  }

  // ---------- Delivery ----------

  /** A source that runs step 9 has already processed the target's confirmation, so
      the wait for it never has to poll and never times out. */
  lemma CausalDelivery(c: Config, s: Sys, i: nat, ch: Choice)
    requires ValidConfig(c) && Reachable(c, s)
    requires i < |s.source.handlers| && s.source.handlers[i].step == 9
    ensures s.source.peerVotingConfirmed && VotingSealed in s.hist
    ensures SourceBody(c, s.source, s.source.handlers[i], ch).pc != Begun
  {
    hide HistInv, CoreInv, AgentInv, PipeInv, HostInv, RelayAhead, PayloadAhead;
    ReachableInv(c, s);
  }

  /** The target's queue never holds more than the one payload of the step in
      progress: the tower in step 4, the identity in step 5. So a scan for the
      kind that step wants takes it, and the source never queues anything. */
  lemma QueueIsSmall(c: Config, s: Sys)
    requires ValidConfig(c) && Reachable(c, s)
    ensures s.source.queue == [] && |s.target.queue| <= 1
    ensures s.target.queue != [] ==>
              var x := s.target.queue[0];
              || (s.core.currentStep == 4 && KindAt(TheReader(c), x) == Some(TowerKind)
                  && Scan(TheReader(c), s.target.queue, TowerKind) == (Some(x), []))
              || (s.core.currentStep == 5 && KindAt(TheReader(c), x) == Some(IdentityKind)
                  && Scan(TheReader(c), s.target.queue, IdentityKind) == (Some(x), []))
  {
    hide HistInv, CoreInv, AgentInv, CausalInv, HostInv, KindAt, Scan, ReceiveTower, ReceiveIdentity, Relays, Payloads;
    ReachableInv(c, s);
    QueueIsPipe(c, s);
    if s.target.queue != [] {
      SingleScan(TheReader(c), s.target.queue[0], if s.core.currentStep == 4 then TowerKind else IdentityKind);
    }
  }

  /** What the target stores is what the source read, byte for byte: a tower it
      stored was read by the source, and the only key it ever stores is the staked
      one; a step 4 or 5 the target finished stored something. */
  lemma EndToEnd(c: Config, s: Sys)
    requires ValidConfig(c) && Reachable(c, s)
    ensures forall b :: TowerStored(b) in s.hist ==> TowerRead(b) in s.hist
    ensures forall b :: KeyStored(b) in s.hist ==> b == c.stakedKey
    ensures StepDone(Target, 4) in s.hist ==> exists b :: TowerStored(b) in s.hist && TowerRead(b) in s.hist
    ensures StepDone(Target, 5) in s.hist ==> KeyStored(c.stakedKey) in s.hist
    ensures s.target.host.receivedKey.Some? ==> s.target.host.receivedKey.value == c.stakedKey
  {
    hide CoreInv, AgentInv, PipeInv, VoteInv, CausalInv, ActivationReady, WipeReady;
    ReachableInv(c, s);
    if StepDone(Target, 4) in s.hist {
      assert Achieved(Target, 4, s.hist);
    }
    if StepDone(Target, 5) in s.hist {
      assert Achieved(Target, 5, s.hist);
    }
  }

  // ---------- Exactly once ----------

  /** Each agent runs at most one step handler at a time, starts the steps it is
      assigned in increasing order, so none twice, and no others. */
  lemma ExactlyOnce(c: Config, s: Sys, r: Role)
    requires ValidConfig(c) && Reachable(c, s)
    ensures |At(s, r).handlers| <= 1
    ensures forall i :: 0 <= i < |At(s, r).started| ==>
              Assigned(r, At(s, r).started[i]) && At(s, r).started[i] <= s.core.currentStep
    ensures forall i, j :: 0 <= i < j < |At(s, r).started| ==> At(s, r).started[i] < At(s, r).started[j]
  {
    hide HistInv, CoreInv, PipeInv, VoteInv, CausalInv, HostInv, DoneInv, WorkInv, Assigned;
    ReachableInv(c, s);
    WorkOf(s, r);
    if At(s, r).handlers != [] {
      OnlyWork(s.core, r, At(s, r), 0);
    }
  }

  /** Every step the hub counts as completed was finished by each agent it is
      assigned to: although the hub does not check who reports, nobody else can. */
  lemma CompletedMeansDone(c: Config, s: Sys, r: Role, k: int)
    requires ValidConfig(c) && Reachable(c, s)
    requires 1 <= k <= s.core.stepsCompleted && Assigned(r, k)
    ensures StepDone(r, k) in s.hist && Achieved(r, k, s.hist)
  {
    hide CoreInv, PipeInv, VoteInv, CausalInv, HostInv, Assigned, Achieved;
    ReachableInv(c, s);
    WorkOf(s, r);
  }

  /** A finished migration: the source votes no more and holds no staked key, the
      target does both, and the key it holds is the staked one. */
  lemma CompleteIsHandedOver(c: Config, s: Sys)
    requires ValidConfig(c) && Reachable(c, s) && s.core.state == Complete
    ensures !s.source.host.staked && !s.source.host.voter && s.source.host.keyFile == None
    ensures s.target.host.staked && s.target.host.voter
    ensures !s.target.exited ==> s.target.host.receivedKey == Some(c.stakedKey)
    ensures forall r, k :: 1 <= k <= TOTAL_STEPS && Assigned(r, k) ==> StepDone(r, k) in s.hist
  {
    hide AgentInv, HistInv, PipeInv, VoteInv, CausalInv, Assigned, Achieved;
    ReachableInv(c, s);
    forall r, k | 1 <= k <= TOTAL_STEPS && Assigned(r, k)
      ensures StepDone(r, k) in s.hist && Achieved(r, k, s.hist)
    {
      CompletedMeansDone(c, s, r, k);
    }
    KeyRolesAssigned();
    FinalAchievements(s.hist);
    EndToEnd(c, s);
  }

  lemma KeyRolesAssigned()
    ensures Assigned(Source, 2) && Assigned(Source, 3) && Assigned(Source, 9)
    ensures Assigned(Target, 5) && Assigned(Target, 6) && Assigned(Target, 7)
  {
  }

  lemma FinalAchievements(hist: seq<Happening>)
    ensures Achieved(Source, 2, hist) ==> WentUnstaked in hist
    ensures Achieved(Source, 3, hist) ==> VotersRemoved in hist
    ensures Achieved(Source, 9, hist) ==> KeyDestroyed in hist
    ensures Achieved(Target, 6, hist) ==> WentStaked in hist
    ensures Achieved(Target, 7, hist) ==> VoterAdded in hist
  {
  }
}
