/** Every action of the composed system keeps the invariant. */
module SystemSteps {
  import opened Protocol
  import opened Envelope
  import opened PayloadQueue
  import opened OrchestratorSpec
  import opened HubGlue
  import opened System
  import opened SystemInv

  // ---------- The hub ----------

  /** A call the system can make: from outside, or a result of the step in progress
      reported by an agent that was assigned it and, if it succeeded, has done it. */
  predicate Justified(s: Sys, call: Call) {
    || FromOutside(call)
    || (call.StepComplete?
        && Work(At(s, call.role)) == []
        && (Current(s.core, call.step) ==> Assigned(call.role, call.step) && StepDone(call.role, call.step) in s.hist))
    || (call.StepFailed? && Work(At(s, call.role)) == [])
  }

  /** What a justified call can do to the step number and the pending acks. */
  lemma JustifiedEffect(s: Sys, call: Call, r: Role)
    requires CoreInv(s.core) && WorkInv(s.core, r, At(s, r)) && DoneInv(s.core, r, At(s, r), s.hist)
    requires Justified(s, call)
    ensures Progresses(s, r, Apply(s.core, call).core)
  {
    hide Apply, Progresses;
    if call.StepComplete? && Current(s.core, call.step) {
      if call.step in BILATERAL_STEPS {
        BilateralEffect(s, call, r);
      } else {
        UnilateralEffect(s, call, r);
      }
    } else {
      NoAckEffect(s, call, r);
    }
  }

  /** The progress of the core from `s` to `p` is what agent `r` has worked off. */
  ghost predicate Progresses(s: Sys, r: Role, p: Core) {
    && (p.currentStep != s.core.currentStep || r in AcksAt(p, p.currentStep) ==> Work(At(s, r)) == [])
    && (p.currentStep != s.core.currentStep ==> AcksAt(p, p.currentStep) == {})
    && (p.stepsCompleted != s.core.stepsCompleted ==>
          p.stepsCompleted == s.core.currentStep == s.core.stepsCompleted + 1
          && (Assigned(r, s.core.currentStep) ==> StepDone(r, s.core.currentStep) in s.hist))
    && (p.state == Migrating && r in AcksAt(p, p.currentStep) ==> StepDone(r, p.currentStep) in s.hist)
    && (p.currentStep != s.core.currentStep ==>
          (s.core.currentStep == 0 || p.stepsCompleted == s.core.currentStep))
  }

  lemma BilateralEffect(s: Sys, call: Call, r: Role)
    requires CoreInv(s.core) && WorkInv(s.core, r, At(s, r)) && DoneInv(s.core, r, At(s, r), s.hist)
    requires Justified(s, call) && call.StepComplete? && Current(s.core, call.step) && call.step in BILATERAL_STEPS
    ensures Progresses(s, r, Apply(s.core, call).core)
  {
    hide Executes, Reports;
    BilateralAck(s.core, call.role, call.now);
  }

  lemma UnilateralEffect(s: Sys, call: Call, r: Role)
    requires CoreInv(s.core) && WorkInv(s.core, r, At(s, r)) && DoneInv(s.core, r, At(s, r), s.hist)
    requires Justified(s, call) && call.StepComplete? && Current(s.core, call.step) && call.step !in BILATERAL_STEPS
    ensures Progresses(s, r, Apply(s.core, call).core)
  {
    hide Executes, Reports;
    assert s.core.acks == map[];
    assert r == call.role || !Assigned(r, s.core.currentStep);
  }

  lemma NoAckEffect(s: Sys, call: Call, r: Role)
    requires CoreInv(s.core) && WorkInv(s.core, r, At(s, r)) && DoneInv(s.core, r, At(s, r), s.hist)
    requires Justified(s, call) && !(call.StepComplete? && Current(s.core, call.step))
    ensures Progresses(s, r, Apply(s.core, call).core)
  {
    hide Executes, Reports;
  }

  /** The second ack of a bilateral step completes it; the first is only recorded. */
  lemma BilateralAck(o: Core, r: Role, now: int)
    requires CoreInv(o) && Current(o, o.currentStep) && o.currentStep in BILATERAL_STEPS
    ensures var k := o.currentStep;
            var p := OnStepComplete(o, k, r, now).core;
            && (p.currentStep == k ==> AcksAt(p, k) == {r} && p.stepsCompleted == o.stepsCompleted && AcksAt(o, k) <= {r})
            && (p.currentStep != k ==> p.currentStep == k + 1 && p.stepsCompleted == k && p.acks == map[] && Peer(r) in AcksAt(o, k))
  {
    var k := o.currentStep;
    if o.acks == map[] {
      assert AcksAt(o, k) + {r} == {r};
    } else {
      var q :| o.acks == map[k := {q}];
      assert o.acks - {k} == map[];
      assert AcksAt(o, k) == {q};
      if q == r {
        assert {q} + {r} == {r};
      }
    }
  }

  lemma SentWork(n: Node, ms: seq<HubMsg>)
    ensures Executes(Sent(n, ms).toAgent) == if n.open then Executes(n.toAgent) + Executes(ms) else Executes(n.toAgent)
    ensures Relays(Sent(n, ms).toAgent) == if n.open then Relays(n.toAgent) + Relays(ms) else Relays(n.toAgent)
  {
    DownConcat(n.toAgent, ms);
  }

  lemma HubStepKeepsWork(s: Sys, call: Call, r: Role)
    requires CoreInv(s.core) && WorkInv(s.core, r, At(s, r)) && DoneInv(s.core, r, At(s, r), s.hist)
    requires StartedInv(s.core, r, At(s, r))
    requires Justified(s, call)
    ensures WorkInv(HubStep(s, call).core, r, At(HubStep(s, call), r))
    ensures StartedInv(HubStep(s, call).core, r, At(HubStep(s, call), r))
  {
    hide Apply, CoreInv, AllMessagesFor, Executes, Relays, Reports, RollsBack, FromOutside, DoneInv, Justified;
    JustifiedEffect(s, call, r);
    CallDispatches(s.core, call, r);
    var ms := AllMessagesFor(r, Apply(s.core, call).events);
    SentWork(At(s, r), ms);
    assert At(HubStep(s, call), r) == Sent(At(s, r), ms);
  }

  lemma HubStepKeepsDone(s: Sys, call: Call, r: Role)
    requires CoreInv(s.core) && WorkInv(s.core, r, At(s, r)) && DoneInv(s.core, r, At(s, r), s.hist)
    requires Justified(s, call)
    ensures DoneInv(HubStep(s, call).core, r, At(HubStep(s, call), r), s.hist)
  {
    hide Apply, CoreInv, AllMessagesFor, RollsBack, FromOutside, Justified;
    JustifiedEffect(s, call, r);
    StepsStay(s.core, call);
  }

  lemma StepsStay(o: Core, call: Call)
    requires CoreInv(o)
    ensures var p := Apply(o, call).core;
            && p.stepsCompleted >= o.stepsCompleted && p.currentStep >= o.currentStep
            && (p.currentStep == o.currentStep || p.stepsCompleted == p.currentStep - 1)
  {
  }

  /** What a call leaves alone of the way from the source to the target. */
  lemma HubStepFrame(s: Sys, call: Call)
    requires CoreInv(s.core)
    ensures var t := HubStep(s, call);
            && t.hist == s.hist && t.core == Apply(s.core, call).core
            && t.source.handlers == s.source.handlers
            && Pipe(t.source, t.target) == Pipe(s.source, s.target)
            && (t.core.currentStep == s.core.currentStep ==> Executes(t.source.toAgent) == Executes(s.source.toAgent))
            && (t.core.currentStep == s.core.currentStep || t.core.currentStep == s.core.currentStep + 1)
  {
    hide Apply, CoreInv, AllMessagesFor, Executes, Relays, Payloads, RollsBack;
    CallDispatches(s.core, call, Source);
    CallDispatches(s.core, call, Target);
    SentWork(s.source, AllMessagesFor(Source, Apply(s.core, call).events));
    SentWork(s.target, AllMessagesFor(Target, Apply(s.core, call).events));
    assert Relays(HubStep(s, call).target.toAgent) == Relays(s.target.toAgent);
  }

  /** When the step in progress changes, its payload has been taken. */
  lemma PipeEmptiesWithStep(c: Config, s: Sys, call: Call)
    requires CoreInv(s.core) && AgentInv(s, Target) && Justified(s, call)
    requires PipeInv(c, s.core, s.source, s.target, s.hist)
    requires Apply(s.core, call).core.currentStep != s.core.currentStep
    ensures Pipe(s.source, s.target) == []
    ensures forall k :: k > s.core.currentStep ==> StepDone(Target, k) !in s.hist
  {
    hide Apply, CoreInv, Executes, Relays, Payloads, Justified, IsTower, IsIdentity, WorkInv, StartedInv;
    JustifiedEffect(s, call, Target);
    StepsInRange(s.core);
    if s.core.currentStep in BILATERAL_STEPS {
      assert StepDone(Target, s.core.currentStep) in s.hist;
    }
    var pipe := Pipe(s.source, s.target);
    assert pipe != [] ==> BelongsTo(c, pipe[0], s.core.currentStep, s.hist);
  }

  lemma HubStepKeepsPipe(c: Config, s: Sys, call: Call)
    requires CoreInv(s.core)
    requires AgentInv(s, Source) && AgentInv(s, Target)
    requires Justified(s, call)
    requires PipeInv(c, s.core, s.source, s.target, s.hist)
    ensures var t := HubStep(s, call); PipeInv(c, t.core, t.source, t.target, t.hist)
  {
    hide Apply, CoreInv, HubStep, AgentInv, Executes, Pipe, Justified, BelongsTo;
    HubStepFrame(s, call);
    if Apply(s.core, call).core.currentStep != s.core.currentStep {
      PipeEmptiesWithStep(c, s, call);
    }
  }

  lemma StepsInRange(o: Core)
    requires CoreInv(o)
    ensures o.stepsCompleted == o.currentStep || o.stepsCompleted == o.currentStep - 1
  {
  }

  lemma HubStepKeepsVote(c: Config, s: Sys, call: Call)
    requires CoreInv(s.core)
    requires VoteInv(c, s.source, s.target, s.hist)
    ensures var t := HubStep(s, call); VoteInv(c, t.source, t.target, t.hist)
  {
    hide Apply, CoreInv, AllMessagesFor, Executes, Relays, Payloads, RollsBack, IsVote;
    CallDispatches(s.core, call, Source);
    SentWork(s.source, AllMessagesFor(Source, Apply(s.core, call).events));
  }

  // ---------- The order of the confirmation and of step 9 ----------

  lemma {:induction false} RelayAheadAppend(ms: seq<HubMsg>, more: seq<HubMsg>)
    requires RelayAhead(ms)
    requires 9 in Executes(more) ==> Relays(ms) != []
    ensures RelayAhead(ms + more)
  {
    forall i | 0 <= i < |ms + more| && (ms + more)[i] == Execute(9)
      ensures Relays((ms + more)[..i]) != []
    {
      if i < |ms| {
        assert (ms + more)[..i] == ms[..i];
      } else {
        assert (ms + more)[..i] == ms + more[..i - |ms|];
        DownConcat(ms, more[..i - |ms|]);
        ExecuteIsListed(more, i - |ms|);
      }
    }
  }

  lemma {:induction false} ExecuteIsListed(ms: seq<HubMsg>, i: nat)
    requires i < |ms| && ms[i].Execute?
    ensures ms[i].step in Executes(ms)
  {
    if i < |ms| - 1 {
      ExecuteIsListed(ms[..|ms| - 1], i);
    }
  }

  /** Step 9 is dispatched only when the target has reported step 8, so when the
      report was received the confirmation had been relayed. */
  predicate NinthIsConfirmed(s: Sys, call: Call) {
    Apply(s.core, call).core.currentStep == 9 && s.core.currentStep != 9 ==> Confirmed(s.source)
  }

  lemma HubStepKeepsCausal(s: Sys, call: Call)
    requires CoreInv(s.core) && CausalInv(s.source, s.target) && NinthIsConfirmed(s, call)
    ensures var t := HubStep(s, call); CausalInv(t.source, t.target)
  {
    hide Apply, CoreInv, AllMessagesFor, Executes, Relays, Payloads, RollsBack, PayloadAhead, RelayAhead;
    var t := HubStep(s, call);
    var ms := AllMessagesFor(Source, Apply(s.core, call).events);
    CallDispatches(s.core, call, Source);
    SentWork(s.source, ms);
    assert Relays(t.source.toAgent) == Relays(s.source.toAgent);
    if !s.source.peerVotingConfirmed && s.source.open {
      RelayAheadAppend(s.source.toAgent, ms);
    }
  }

  // ---------- The servers ----------

  lemma HubStepKeepsHost(c: Config, s: Sys, call: Call)
    requires CoreInv(s.core) && HostInv(c, s)
    ensures HostInv(c, HubStep(s, call))
  {
    hide Apply, CoreInv, AllMessagesFor, Executes, Relays, Payloads, RollsBack;
    CallDispatches(s.core, call, Source);
    CallDispatches(s.core, call, Target);
    RolledBackIsOver(s.core, call);
  }

  lemma RolledBackIsOver(o: Core, call: Call)
    requires CoreInv(o)
    ensures RollsBack(o, call) ==>
              Apply(o, call).core.state == Failed && Apply(o, call).core.currentStep == o.currentStep
    ensures o.state == Failed ==>
              !RollsBack(o, call) && Apply(o, call).core.state == Failed && Apply(o, call).core.currentStep == o.currentStep
    ensures Apply(o, call).core.currentStep >= o.currentStep
    ensures o.currentStep == 9 ==> Apply(o, call).core.currentStep == 9
  {
    if RollsBack(o, call) {
      RollbackFails(o, call);
    }
  }

  lemma HubStepKeepsInv(c: Config, s: Sys, call: Call)
    requires SysInv(c, s) && Justified(s, call) && NinthIsConfirmed(s, call)
    ensures SysInv(c, HubStep(s, call))
  {
    var t := HubStep(s, call);
    hide Apply, CoreInv, AllMessagesFor, RollsBack, WorkInv, StartedInv, DoneInv, HistInv, PipeInv, VoteInv, CausalInv,
      HostInv, NinthIsConfirmed, Justified;
    ApplyKeepsCore(s.core, call);
    HubStepKeepsWork(s, call, Source);
    HubStepKeepsWork(s, call, Target);
    HubStepKeepsDone(s, call, Source);
    HubStepKeepsDone(s, call, Target);
    HubStepKeepsPipe(c, s, call);
    HubStepKeepsVote(c, s, call);
    HubStepKeepsCausal(s, call);
    HubStepKeepsHost(c, s, call);
  }

  // ---------- The hub takes a message ----------

  function Popped(s: Sys, r: Role): Sys
    requires At(s, r).toHub != []
  {
    var n := At(s, r);
    Put(s, r, n.(toHub := n.toHub[1..]))
  }

  predicate IsReport(m: AgentMsg) {
    m.Done? || m.Broke?
  }

  /** A report at the head of the channel is all the work the agent had. */
  lemma PopWork(o: Core, r: Role, n: Node)
    requires WorkInv(o, r, n) && n.toHub != []
    ensures var m := n.(toHub := n.toHub[1..]);
            && WorkInv(o, r, m)
            && (IsReport(n.toHub[0]) ==>
                  Work(m) == [] && n.toHub[0].step == o.currentStep && Assigned(r, o.currentStep))
  {
    hide Executes, Reports;
    UpPop(n.toHub);
    var rest := Reports(n.toHub[1..]);
    var front := Executes(n.toAgent) + StepsOf(n.handlers);
    if IsReport(n.toHub[0]) {
      assert Work(n) == front + [n.toHub[0].step] + rest;
      assert |front| + 1 + |rest| == |Work(n)|;
      assert Work(n)[|front|] == n.toHub[0].step;
    }
  }

  lemma PopDone(o: Core, r: Role, n: Node, hist: seq<Happening>)
    requires DoneInv(o, r, n, hist) && n.toHub != []
    ensures DoneInv(o, r, n.(toHub := n.toHub[1..]), hist)
    ensures n.toHub[0].Done? ==> StepDone(r, n.toHub[0].step) in hist
  {
  }

  lemma PopPipe(c: Config, s: Sys, r: Role)
    requires PipeInv(c, s.core, s.source, s.target, s.hist) && At(s, r).toHub != []
    ensures var t := Popped(s, r); PipeInv(c, t.core, t.source, t.target, t.hist)
  {
    hide Executes, Relays, Payloads, BelongsTo;
    UpPop(At(s, r).toHub);
    var t := Popped(s, r);
    var before, after := Pipe(s.source, s.target), Pipe(t.source, t.target);
    if r == Source && s.source.toHub[0].Payload? {
      assert |after| == |before| - 1;
      assert after == [];
    } else {
      assert after == before;
    }
  }

  lemma PopVote(c: Config, s: Sys, r: Role)
    requires VoteInv(c, s.source, s.target, s.hist) && At(s, r).toHub != []
    ensures var t := Popped(s, r); VoteInv(c, t.source, t.target, t.hist)
  {
    hide Executes, Relays, Payloads, IsVote;
    UpPop(At(s, r).toHub);
  }

  lemma PopPayloadAhead(ms: seq<AgentMsg>)
    requires ms != [] && PayloadAhead(ms) && !ms[0].Payload?
    ensures PayloadAhead(ms[1..]) && ms[0] != Done(8)
  {
    assert ms[..0] == [];
    forall i | 0 <= i < |ms[1..]| && ms[1..][i] == Done(8)
      ensures Payloads(ms[1..][..i]) != []
    {
      assert ms[..i + 1][1..] == ms[1..][..i];
      UpPop(ms[..i + 1]);
      assert ms[i + 1] == Done(8);
    }
  }

  lemma PopCausal(s: Sys, r: Role)
    requires CausalInv(s.source, s.target) && At(s, r).toHub != [] && !At(s, r).toHub[0].Payload?
    ensures var t := Popped(s, r); CausalInv(t.source, t.target)
    ensures r == Target && At(s, r).toHub[0] == Done(8) ==> Confirmed(s.source)
  {
    hide Executes, Relays, Payloads, PayloadAhead, RelayAhead;
    UpPop(At(s, r).toHub);
    if r == Target && !Confirmed(s.source) {
      PopPayloadAhead(s.target.toHub);
    }
  }

  lemma PopKeepsInv(c: Config, s: Sys, r: Role)
    requires SysInv(c, s) && At(s, r).toHub != [] && !At(s, r).toHub[0].Payload?
    ensures SysInv(c, Popped(s, r))
  {
    hide CoreInv, WorkInv, StartedInv, DoneInv, HistInv, PipeInv, VoteInv, CausalInv, HostInv;
    PopWork(s.core, r, At(s, r));
    PopDone(s.core, r, At(s, r), s.hist);
    PopStarted(s.core, r, At(s, r));
    PopPipe(c, s, r);
    PopVote(c, s, r);
    PopCausal(s, r);
    PopHost(c, s, r);
  }

  lemma PopStarted(o: Core, r: Role, n: Node)
    requires StartedInv(o, r, n) && n.toHub != []
    ensures StartedInv(o, r, n.(toHub := n.toHub[1..]))
  {
  }

  lemma PopHost(c: Config, s: Sys, r: Role)
    requires HostInv(c, s) && At(s, r).toHub != []
    ensures HostInv(c, Popped(s, r))
  {
  }

  /** A step result is handled. */
  lemma HubHandlesReport(c: Config, s: Sys, r: Role, now: int)
    requires SysInv(c, s) && At(s, r).toHub != [] && IsReport(At(s, r).toHub[0])
    ensures SysInv(c, HubHandles(s, r, now))
  {
    hide CoreInv, WorkInv, StartedInv, DoneInv, HistInv, PipeInv, VoteInv, CausalInv, HostInv, Apply;
    var n := At(s, r);
    var m := n.toHub[0];
    PopKeepsInv(c, s, r);
    PopWork(s.core, r, n);
    PopDone(s.core, r, n, s.hist);
    PopCausal(s, r);
    var call := if m.Done? then StepComplete(m.step, r, now) else StepFailed(m.step, r, m.error);
    var t := Popped(s, r);
    NinthNeedsEighth(s.core, call);
    assert Justified(t, call);
    assert Confirmed(t.source) == Confirmed(s.source);
    assert NinthIsConfirmed(t, call);
    HubStepKeepsInv(c, t, call);
  }

  lemma NinthNeedsEighth(o: Core, call: Call)
    requires CoreInv(o)
    ensures Apply(o, call).core.currentStep == 9 && o.currentStep != 9 ==>
              o.currentStep == 8 && call.StepComplete? && call.step == 8
  {
  }

  lemma OutsideCallKeepsInv(c: Config, s: Sys, call: Call)
    requires SysInv(c, s) && FromOutside(call)
    ensures SysInv(c, HubStep(s, call))
  {
    hide SysInv, Apply;
    assert CoreInv(s.core) by { CoreOf(c, s); }
    NinthNeedsEighth(s.core, call);
    HubStepKeepsInv(c, s, call);
  }

  lemma CoreOf(c: Config, s: Sys)
    requires SysInv(c, s)
    ensures CoreInv(s.core)
  {
  }

  // ---------- The hub relays a payload ----------

  /** The state after the hub relayed the payload at the head of agent `r`'s channel. */
  function Relayed(s: Sys, r: Role): Sys
    requires At(s, r).toHub != [] && At(s, r).toHub[0].Payload?
  {
    var t := Popped(s, r);
    Put(t, Peer(r), Sent(At(t, Peer(r)), [Relay(At(s, r).toHub[0].sealed)]))
  }

  lemma OneAlone(q: seq<Sealed>, d: seq<Sealed>, x: Sealed, u: seq<Sealed>)
    ensures q + (d + [x]) + u == q + d + ([x] + u)
    ensures |q + d + ([x] + u)| <= 1 ==> q + d + u == []
  {
    assert |q + d + ([x] + u)| == |q| + |d| + 1 + |u|;
  }

  lemma RelayPipe(c: Config, s: Sys, r: Role)
    requires PipeInv(c, s.core, s.source, s.target, s.hist)
    requires At(s, r).toHub != [] && At(s, r).toHub[0].Payload?
    ensures var t := Relayed(s, r); PipeInv(c, t.core, t.source, t.target, t.hist)
  {
    hide Executes, Relays, Payloads, BelongsTo;
    var x := At(s, r).toHub[0].sealed;
    var t := Relayed(s, r);
    UpPop(At(s, r).toHub);
    DownOne(Relay(x));
    SentWork(At(s, Peer(r)), [Relay(x)]);
    var before, after := Pipe(s.source, s.target), Pipe(t.source, t.target);
    if r == Source {
      var q, d, u := s.target.queue, Relays(s.target.toAgent), Payloads(s.source.toHub[1..]);
      assert before == q + d + ([x] + u);
      OneAlone(q, d, x, u);
      if s.target.open {
        assert after == before;
      } else {
        assert after == q + d + u == [];
      }
    } else {
      assert after == before;
      assert MaySend(t.source) <==> MaySend(s.source);
    }
  }

  lemma RelayVote(c: Config, s: Sys, r: Role)
    requires VoteInv(c, s.source, s.target, s.hist)
    requires At(s, r).toHub != [] && At(s, r).toHub[0].Payload?
    ensures var t := Relayed(s, r); VoteInv(c, t.source, t.target, t.hist)
  {
    hide Executes, Relays, Payloads, IsVote;
    var x := At(s, r).toHub[0].sealed;
    UpPop(At(s, r).toHub);
    DownOne(Relay(x));
    SentWork(At(s, Peer(r)), [Relay(x)]);
    if r == Target {
      assert x in Payloads(s.target.toHub);
    }
  }

  lemma RelayCausal(s: Sys, r: Role)
    requires CausalInv(s.source, s.target)
    requires At(s, r).toHub != [] && At(s, r).toHub[0].Payload?
    ensures var t := Relayed(s, r); CausalInv(t.source, t.target)
  {
    hide Executes, Relays, Payloads, PayloadAhead, RelayAhead;
    var x := At(s, r).toHub[0].sealed;
    DownOne(Relay(x));
    SentWork(At(s, Peer(r)), [Relay(x)]);
    if r == Target && !s.source.peerVotingConfirmed {
      RelayAheadAppend(s.source.toAgent, [Relay(x)]);
    }
  }

  lemma SentRelayKeepsAgent(o: Core, r: Role, n: Node, x: Sealed, hist: seq<Happening>)
    requires WorkInv(o, r, n) && StartedInv(o, r, n) && DoneInv(o, r, n, hist) && ListenInv(r, n, hist)
    ensures var m := Sent(n, [Relay(x)]);
            WorkInv(o, r, m) && StartedInv(o, r, m) && DoneInv(o, r, m, hist) && ListenInv(r, m, hist)
  {
    hide Executes, Reports, Payloads, Relays, Assigned, AcksAt;
    DownOne(Relay(x));
    SentWork(n, [Relay(x)]);
    assert Work(Sent(n, [Relay(x)])) == Work(n);
  }

  lemma RelayAgents(s: Sys, r: Role, q: Role)
    requires AgentInv(s, q) && At(s, r).toHub != [] && At(s, r).toHub[0].Payload?
    ensures AgentInv(Relayed(s, r), q)
  {
    hide WorkInv, StartedInv, DoneInv, Sent;
    var t := Relayed(s, r);
    if q == r {
      PopWork(s.core, r, At(s, r));
      PopDone(s.core, r, At(s, r), s.hist);
      PopStarted(s.core, r, At(s, r));
    } else {
      SentRelayKeepsAgent(s.core, q, At(s, q), At(s, r).toHub[0].sealed, s.hist);
    }
  }

  lemma RelayHost(c: Config, s: Sys, r: Role)
    requires HostInv(c, s) && At(s, r).toHub != [] && At(s, r).toHub[0].Payload?
    ensures HostInv(c, Relayed(s, r))
  {
  }

  lemma HubReceiveKeepsInv(c: Config, s: Sys, r: Role, now: int)
    requires SysInv(c, s) && At(s, r).toHub != []
    ensures SysInv(c, HubHandles(s, r, now))
  {
    hide CoreInv, AgentInv, HistInv, PipeInv, VoteInv, CausalInv, HostInv, HubStep;
    var m := At(s, r).toHub[0];
    if IsReport(m) {
      HubHandlesReport(c, s, r, now);
    } else if m.Payload? {
      RelayPipe(c, s, r);
      RelayVote(c, s, r);
      RelayCausal(s, r);
      RelayAgents(s, r, Source);
      RelayAgents(s, r, Target);
      RelayHost(c, s, r);
    } else {
      PopKeepsInv(c, s, r);
    }
  }

  // ---------- An agent takes a message ----------

  /** A step at the head of the channel is all the work the agent had. */
  lemma TakeWork(o: Core, r: Role, n: Node)
    requires WorkInv(o, r, n) && n.toAgent != []
    ensures Executes(n.toAgent) == (if n.toAgent[0].Execute? then [n.toAgent[0].step] else []) + Executes(n.toAgent[1..])
    ensures n.toAgent[0].Execute? ==>
              && n.toAgent[0].step == o.currentStep && Assigned(r, o.currentStep)
              && n.handlers == [] && Executes(n.toAgent[1..]) == [] && Reports(n.toHub) == []
              && r !in AcksAt(o, o.currentStep)
  {
    hide Executes, Reports;
    DownPop(n.toAgent);
    var rest := Executes(n.toAgent[1..]) + StepsOf(n.handlers) + Reports(n.toHub);
    if n.toAgent[0].Execute? {
      assert Work(n) == [n.toAgent[0].step] + rest;
      assert |Work(n)| == 1 + |Executes(n.toAgent[1..])| + |n.handlers| + |Reports(n.toHub)|;
      assert Work(n)[0] == n.toAgent[0].step;
    }
  }

  /** A rollback instruction touches only the rollback handlers and adds at most a
      rollback report. */
  lemma BeginRollbackOutline(c: Config, r: Role, n: Node, name: RollbackName)
    ensures var m := BeginRollback(c, r, n, name);
            && (m.toHub == n.toHub || (|m.toHub| == |n.toHub| + 1 && n.toHub <= m.toHub && m.toHub[|n.toHub|].RollbackDone?))
            && m == n.(toHub := m.toHub, rollbacks := m.rollbacks)
            && (m.rollbacks == n.rollbacks
                || (|m.rollbacks| == |n.rollbacks| + 1 && n.rollbacks <= m.rollbacks
                    && (r == Target ==> m.rollbacks[|n.rollbacks|] == RemoveTransferredFilesTarget)))
  {
  }

  lemma RollbackDoneIsNoReport(a: seq<AgentMsg>, b: seq<AgentMsg>)
    requires a == b || (|b| == |a| + 1 && a <= b && b[|a|].RollbackDone?)
    ensures Reports(b) == Reports(a) && Payloads(b) == Payloads(a)
    ensures a <= b && (forall i :: |a| <= i < |b| ==> b[i].RollbackDone?)
  {
    hide Reports, Payloads;
    if a != b {
      assert b == a + [b[|a|]];
      UpConcat(a, [b[|a|]]);
      UpOne(b[|a|]);
    }
  }

  /** Handling a message sends nothing but a rollback report. */
  lemma TakeReports(c: Config, r: Role, n: Node)
    requires n.toAgent != []
    ensures var m := AgentHandles(c, r, n);
            && Reports(m.toHub) == Reports(n.toHub) && Payloads(m.toHub) == Payloads(n.toHub)
            && n.toHub <= m.toHub && (forall i :: |n.toHub| <= i < |m.toHub| ==> m.toHub[i].RollbackDone?)
  {
    hide Reports, Payloads, KindAt, BeginRollback;
    if n.toAgent[0].ExecuteRollback? {
      BeginRollbackOutline(c, r, n.(toAgent := n.toAgent[1..]), n.toAgent[0].name);
    }
    RollbackDoneIsNoReport(n.toHub, AgentHandles(c, r, n).toHub);
  }

  /** Handling a message reports no step and sends no payload; what it does depends
      on the message alone. */
  lemma TakeOutline(c: Config, r: Role, n: Node)
    requires n.toAgent != []
    ensures var m := AgentHandles(c, r, n);
            var x := n.toAgent[0];
            && Reports(m.toHub) == Reports(n.toHub) && Payloads(m.toHub) == Payloads(n.toHub)
            && n.toHub <= m.toHub && (forall i :: |n.toHub| <= i < |m.toHub| ==> m.toHub[i].RollbackDone?)
            && m.toAgent == n.toAgent[1..]
            && m.host == n.host && m.open == n.open && m.exited == n.exited && m.listening == n.listening
            && (if n.listening && x.Execute?
                then m.handlers == n.handlers + [Handler(x.step, Begun)] && m.started == n.started + [x.step]
                else m.handlers == n.handlers && m.started == n.started)
            && (if n.listening && x.Relay?
                then (if IsVote(c, x.sealed) then m.peerVotingConfirmed && m.queue == n.queue
                      else m.peerVotingConfirmed == n.peerVotingConfirmed && m.queue == n.queue + [x.sealed])
                else m.peerVotingConfirmed == n.peerVotingConfirmed && m.queue == n.queue)
  {
    hide Reports, Payloads, KindAt, BeginRollback;
    TakeReports(c, r, n);
    if n.toAgent[0].ExecuteRollback? {
      BeginRollbackOutline(c, r, n.(toAgent := n.toAgent[1..]), n.toAgent[0].name);
    }
  }

  /** Only a rollback instruction starts a rollback handler; the target runs one kind. */
  lemma TakeRollbacks(c: Config, r: Role, n: Node)
    requires n.toAgent != []
    ensures var m := AgentHandles(c, r, n);
            && (!n.toAgent[0].ExecuteRollback? ==> m.rollbacks == n.rollbacks)
            && (m.rollbacks == n.rollbacks
                || (|m.rollbacks| == |n.rollbacks| + 1 && n.rollbacks <= m.rollbacks
                    && (r == Target ==> m.rollbacks[|n.rollbacks|] == RemoveTransferredFilesTarget)))
  {
    hide KindAt, BeginRollback;
    if n.toAgent[0].ExecuteRollback? {
      BeginRollbackOutline(c, r, n.(toAgent := n.toAgent[1..]), n.toAgent[0].name);
    }
  }

  lemma TakeKeepsWork(c: Config, o: Core, r: Role, n: Node)
    requires WorkInv(o, r, n) && StartedInv(o, r, n) && n.toAgent != []
    ensures WorkInv(o, r, AgentHandles(c, r, n)) && StartedInv(o, r, AgentHandles(c, r, n))
  {
    hide Executes, Reports, Payloads, Assigned, AcksAt, AgentHandles, IsVote;
    var m := AgentHandles(c, r, n);
    TakeWork(o, r, n);
    TakeOutline(c, r, n);
    if n.listening && n.toAgent[0].Execute? {
      assert StepsOf(m.handlers) == [o.currentStep];
      assert Work(m) == [o.currentStep];
    } else if n.toAgent[0].Execute? {
      assert Work(m) == [];
    } else {
      assert Work(m) == Work(n);
    }
  }

  lemma TakeKeepsDone(c: Config, o: Core, r: Role, n: Node, hist: seq<Happening>)
    requires DoneInv(o, r, n, hist) && ListenInv(r, n, hist) && n.toAgent != []
    ensures DoneInv(o, r, AgentHandles(c, r, n), hist) && ListenInv(r, AgentHandles(c, r, n), hist)
  {
    hide Executes, Reports, Payloads, Assigned, AcksAt, AgentHandles, IsVote;
    TakeOutline(c, r, n);
  }

  lemma TakeKeepsAgent(c: Config, s: Sys, r: Role)
    requires AgentInv(s, r) && At(s, r).toAgent != []
    ensures AgentInv(Put(s, r, AgentHandles(c, r, At(s, r))), r)
  {
    hide WorkInv, StartedInv, DoneInv, ListenInv, AgentHandles;
    TakeKeepsWork(c, s.core, r, At(s, r));
    TakeKeepsDone(c, s.core, r, At(s, r), s.hist);
  }

  lemma TakePipe(c: Config, s: Sys, r: Role)
    requires SysInv(c, s) && At(s, r).toAgent != []
    ensures var t := Put(s, r, AgentHandles(c, r, At(s, r))); PipeInv(c, t.core, t.source, t.target, t.hist)
  {
    hide CoreInv, StartedInv, DoneInv, HistInv, VoteInv, CausalInv, HostInv, Executes, Reports, Relays, Payloads,
      BelongsTo, KindAt, AgentHandles, WorkInv, ListenInv;
    var n := At(s, r);
    var t := Put(s, r, AgentHandles(c, r, n));
    TakeOutline(c, r, n);
    TakeWork(s.core, r, n);
    DownPop(n.toAgent);
    var before, after := Pipe(s.source, s.target), Pipe(t.source, t.target);
    if r == Source {
      assert after == before;
    } else if n.toAgent[0].Relay? {
      var x := n.toAgent[0].sealed;
      var q, d, u := n.queue, Relays(n.toAgent[1..]), Payloads(s.source.toHub);
      assert before == q + ([x] + d) + u;
      if t.target.queue == q + [x] {
        assert after == q + [x] + d + u == before;
      } else {
        assert after == q + d + u;
        assert after == [];
      }
    } else {
      assert after == before;
    }
  }

  lemma TakeVote(c: Config, s: Sys, r: Role)
    requires SysInv(c, s) && At(s, r).toAgent != []
    ensures var t := Put(s, r, AgentHandles(c, r, At(s, r))); VoteInv(c, t.source, t.target, t.hist)
  {
    hide CoreInv, WorkInv, StartedInv, DoneInv, HistInv, CausalInv, PipeInv, HostInv, Executes, Reports, Relays,
      Payloads, KindAt, AgentHandles, ListenInv;
    TakeOutline(c, r, At(s, r));
    DownPop(At(s, r).toAgent);
    if r == Source && At(s, r).toAgent[0].Relay? {
      assert At(s, r).toAgent[0].sealed in Relays(s.source.toAgent);
    }
  }

  lemma DropRelayAhead(ms: seq<HubMsg>)
    requires ms != [] && RelayAhead(ms) && !ms[0].Relay?
    ensures RelayAhead(ms[1..]) && ms[0] != Execute(9)
  {
    assert ms[..0] == [];
    forall i | 0 <= i < |ms[1..]| && ms[1..][i] == Execute(9)
      ensures Relays(ms[1..][..i]) != []
    {
      assert ms[..i + 1][1..] == ms[1..][..i];
      DownPop(ms[..i + 1]);
      assert ms[i + 1] == Execute(9);
    }
  }

  lemma TakeCausal(c: Config, s: Sys, r: Role)
    requires SysInv(c, s) && At(s, r).toAgent != []
    ensures var t := Put(s, r, AgentHandles(c, r, At(s, r))); CausalInv(t.source, t.target)
  {
    hide CoreInv, WorkInv, StartedInv, DoneInv, PipeInv, HostInv, Executes, Reports, Relays, Payloads, KindAt,
      RelayAhead, PayloadAhead, Achieved, AgentHandles;
    var n := At(s, r);
    var t := Put(s, r, AgentHandles(c, r, n));
    TakeOutline(c, r, n);
    DownPop(n.toAgent);
    if r == Source {
      if n.toAgent[0].Relay? {
        assert n.toAgent[0].sealed in Relays(n.toAgent);
        assert StepDone(Source, 2) in s.hist;
        assert n.listening && t.source.peerVotingConfirmed;
      } else if !n.peerVotingConfirmed {
        DropRelayAhead(n.toAgent);
      }
    } else {
      TakePayloadAhead(n.toHub, t.target.toHub);
    }
  }

  lemma TakePayloadAhead(a: seq<AgentMsg>, b: seq<AgentMsg>)
    requires a <= b && forall i :: |a| <= i < |b| ==> b[i].RollbackDone?
    ensures PayloadAhead(a) ==> PayloadAhead(b)
  {
    if PayloadAhead(a) {
      forall i | 0 <= i < |b| && b[i] == Done(8)
        ensures Payloads(b[..i]) != []
      {
        assert b[..i] == a[..i];
        assert a[i] == Done(8);
      }
    }
  }

  lemma TakeHost(c: Config, s: Sys, r: Role)
    requires HostInv(c, s) && At(s, r).toAgent != []
    ensures HostInv(c, Put(s, r, AgentHandles(c, r, At(s, r))))
  {
    hide KindAt, AgentHandles;
    TakeOutline(c, r, At(s, r));
    TakeRollbacks(c, r, At(s, r));
    var m := AgentHandles(c, r, At(s, r));
    assert NoRollbackIn(At(s, r).toAgent) ==> NoRollbackIn(m.toAgent) && m.rollbacks == At(s, r).rollbacks;
  }

  lemma AgentReceiveKeepsInv(c: Config, s: Sys, r: Role)
    requires SysInv(c, s) && At(s, r).toAgent != []
    ensures SysInv(c, Put(s, r, AgentHandles(c, r, At(s, r))))
  {
    hide CoreInv, WorkInv, StartedInv, DoneInv, ListenInv, HistInv, PipeInv, VoteInv, CausalInv, HostInv, AgentHandles;
    TakeKeepsAgent(c, s, r);
    TakePipe(c, s, r);
    TakeVote(c, s, r);
    TakeCausal(c, s, r);
    TakeHost(c, s, r);
  }
}
