/** Theorems about whole runs of one orchestrator: the shape of its trace, what
    duplicate and swapped acknowledgements do, and how many of them a run takes. */
module OrchestratorRuns {
  import opened Protocol
  import opened OrchestratorSpec

  // ---------- Running in pieces ----------

  lemma {:induction false} RunConcat(m: Machine, a: seq<Call>, b: seq<Call>)
    ensures Run(m, a + b) == Run(Run(m, a), b)
  {
    if b == [] {
      assert a + b == a;
    } else {
      assert (a + b)[..|a + b| - 1] == a + b[..|b| - 1];
      RunConcat(m, a, b[..|b| - 1]);
    }
  }

  lemma RunOne(m: Machine, c: Call)
    ensures Run(m, [c]) == Step(m, c)
  {
    assert [c][..0] == [];
  }

  // ---------- Preflight ----------

  lemma {:induction false} FailuresConcat(a: seq<PreflightCheck>, b: seq<PreflightCheck>)
    ensures FailedChecks(a + b) == FailedChecks(a) + FailedChecks(b)
  {
    if a == [] {
      assert a + b == b;
    } else {
      assert (a + b)[0] == a[0] && (a + b)[1..] == a[1..] + b;
      FailuresConcat(a[1..], b);
    }
  }

  lemma {:induction false} FailuresAreFailures(checks: seq<PreflightCheck>, c: PreflightCheck)
    ensures c in FailedChecks(checks) <==> c in checks && !c.ok
  {
    if checks != [] {
      FailuresAreFailures(checks[1..], c);
      assert c in checks <==> c == checks[0] || c in checks[1..];
    }
  }

  /** The reason of a failed preflight names the failed checks, all of them and no
      others, the source's before the target's. */
  lemma PreflightNamesFailures(source: seq<PreflightCheck>, target: seq<PreflightCheck>)
    ensures FailedChecks(source + target) == FailedChecks(source) + FailedChecks(target)
    ensures forall c :: c in FailedChecks(source + target) <==> (c in source || c in target) && !c.ok
  {
    hide FailedChecks;
    FailuresConcat(source, target);
    forall c
      ensures c in FailedChecks(source + target) <==> (c in source || c in target) && !c.ok
    {
      FailuresAreFailures(source + target, c);
    }
  }

  // ---------- Trace shape ----------

  /** The dispatches and completions in a trace, in order: (step, is-completion). */
  function Progress(trace: seq<Event>): seq<(int, bool)> {
    if trace == [] then []
    else
      var before := Progress(trace[..|trace| - 1]);
      match trace[|trace| - 1]
      case ExecuteStep(_, n) => before + [(n, false)]
      case StepCompleted(n) => before + [(n, true)]
      case _ => before
  }

  /** dispatch 1, completion 1, dispatch 2, ... with `d` dispatches and `c` completions. */
  function Alternation(d: nat, c: nat): seq<(int, bool)>
    requires c <= d <= c + 1
  {
    if d == 0 then []
    else if c == d then Alternation(d, c - 1) + [(c, true)]
    else Alternation(d - 1, c) + [(d, false)]
  }

  function Rollbacks(trace: seq<Event>): seq<RollbackStep> {
    if trace == [] then []
    else
      var before := Rollbacks(trace[..|trace| - 1]);
      match trace[|trace| - 1]
      case RollbackIssued(s) => before + [s]
      case _ => before
  }

  predicate Closing(e: Event) {
    e.SessionComplete? || e.SessionFailed?
  }

  /** An accepted event moves the counters of dispatches and completions by one in
      turn, or not at all. */
  lemma AcceptedEvent(m: Monitor, e: Event)
    requires Observe(m, e).Watching?
    ensures m.Watching?
    ensures var n := Observe(m, e);
            match e
            case ExecuteStep(_, step) =>
              m.dispatched == m.completed == n.completed && step == n.dispatched == m.dispatched + 1 <= TOTAL_STEPS
            case StepCompleted(step) =>
              m.dispatched == m.completed + 1 && step == n.completed == n.dispatched == m.dispatched
            case _ => n.dispatched == m.dispatched && n.completed == m.completed
  {
    hide AllowedTransitions, ShouldRollback, ExecutorOf;
  }

  lemma {:induction false} AcceptedProgress(trace: seq<Event>)
    requires ObserveAll(MONITOR_START, trace).Watching?
    ensures var m := ObserveAll(MONITOR_START, trace);
            && 0 <= m.completed <= m.dispatched <= m.completed + 1 && m.dispatched <= TOTAL_STEPS
            && Progress(trace) == Alternation(m.dispatched, m.completed)
  {
    hide Observe;
    if trace != [] {
      var before, last := trace[..|trace| - 1], trace[|trace| - 1];
      AcceptedEvent(ObserveAll(MONITOR_START, before), last);
      AcceptedProgress(before);
    }
  }

  lemma {:induction false} AcceptedRollbacks(trace: seq<Event>)
    requires ObserveAll(MONITOR_START, trace).Watching?
    ensures var m := ObserveAll(MONITOR_START, trace);
            0 <= m.rollbacks <= |ROLLBACK_SEQUENCE| && Rollbacks(trace) == ROLLBACK_SEQUENCE[..m.rollbacks]
  {
    if trace != [] {
      var before, last := trace[..|trace| - 1], trace[|trace| - 1];
      AcceptedRollbacks(before);
      if last.RollbackIssued? {
        var n := ObserveAll(MONITOR_START, before).rollbacks;
        assert ROLLBACK_SEQUENCE[..n + 1] == ROLLBACK_SEQUENCE[..n] + [ROLLBACK_SEQUENCE[n]];
      }
    }
  }

  lemma {:induction false} AcceptedClosing(trace: seq<Event>)
    requires ObserveAll(MONITOR_START, trace).Watching?
    ensures ObserveAll(MONITOR_START, trace).closed <==> trace != [] && Closing(trace[|trace| - 1])
    ensures forall i :: 0 <= i < |trace| && Closing(trace[i]) ==> i == |trace| - 1
  {
    if trace != [] {
      var before := trace[..|trace| - 1];
      AcceptedClosing(before);
      assert forall i :: 0 <= i < |before| ==> before[i] == trace[i];
    }
  }

  /** What acceptance by the reference automaton means for the trace itself. */
  lemma AcceptedTraces(trace: seq<Event>)
    requires ObserveAll(MONITOR_START, trace).Watching?
    ensures var m := ObserveAll(MONITOR_START, trace);
            && 0 <= m.completed <= m.dispatched <= m.completed + 1 && m.dispatched <= TOTAL_STEPS
            && Progress(trace) == Alternation(m.dispatched, m.completed)
            && 0 <= m.rollbacks <= |ROLLBACK_SEQUENCE|
            && Rollbacks(trace) == ROLLBACK_SEQUENCE[..m.rollbacks]
            && (m.closed <==> trace != [] && Closing(trace[|trace| - 1]))
    ensures forall i :: 0 <= i < |trace| && Closing(trace[i]) ==> i == |trace| - 1
  {
    hide *;
    AcceptedProgress(trace);
    AcceptedRollbacks(trace);
    AcceptedClosing(trace);
  }

  /** The last seven events are a complete rollback. */
  predicate EndsInRollback(trace: seq<Event>) {
    && |trace| >= 7
    && trace[|trace| - 7] == StateChange(Migrating, Rollback)
    && trace[|trace| - 6..|trace| - 2] == IssueAll(ROLLBACK_SEQUENCE)
    && trace[|trace| - 2] == StateChange(Rollback, Failed)
    && trace[|trace| - 1].SessionFailed?
  }

  lemma {:induction false} RollbacksConcat(a: seq<Event>, b: seq<Event>)
    ensures Rollbacks(a + b) == Rollbacks(a) + Rollbacks(b)
  {
    if b == [] {
      assert a + b == a;
    } else {
      assert (a + b)[..|a + b| - 1] == a + b[..|b| - 1];
      RollbacksConcat(a, b[..|b| - 1]);
    }
  }

  lemma {:induction false} NoRollbacks(t: seq<Event>)
    requires forall i :: 0 <= i < |t| ==> !t[i].RollbackIssued?
    ensures Rollbacks(t) == []
  {
    if t != [] {
      NoRollbacks(t[..|t| - 1]);
    }
  }

  /** One call either issues no rollback step or ends with a complete rollback. */
  lemma CallRollsBackWhollyOrNotAtAll(o: Core, c: Call)
    ensures var events := Apply(o, c).events;
            Rollbacks(events) == [] || EndsInRollback(events)
  {
    hide Rollbacks, EndsInRollback, RollBack;
    match c
    case Abort(reason) =>
      if !IsTerminal(o.state) && o.state == Migrating && ShouldRollback(o.currentStep) {
        RollBackEnds(o, [], Plain(reason));
      } else {
        NoRollbacks(Apply(o, c).events);
      }
    case AgentDisconnected(r) =>
      if o.state == Migrating && r == Source && o.currentStep < 5 {
        RollBackEndsOrHasNone(o.(agents := o.agents.Set(r, false)), [], SourceLost(o.currentStep));
      } else {
        NoRollbacks(Apply(o, c).events);
      }
    case StepFailed(s, r, e) =>
      if Current(o, s) && ShouldRollback(s) {
        RollBackEnds(o, [StepFailedEvent(s, r)], StepFailure(s, r, e));
      } else {
        NoRollbacks(Apply(o, c).events);
      }
    case _ => NoRollbacks(Apply(o, c).events);
  }

  lemma RollBackEndsOrHasNone(o: Core, events: seq<Event>, reason: Reason)
    requires o.state == Migrating && events == []
    ensures var all := RollBack(o, events, reason).events;
            Rollbacks(all) == [] || EndsInRollback(all)
  {
    if ShouldRollback(o.currentStep) {
      RollBackEnds(o, events, reason);
    } else {
      NoRollbacks(RollBack(o, events, reason).events);
    }
  }

  lemma RollBackEnds(o: Core, events: seq<Event>, reason: Reason)
    requires o.state == Migrating && ShouldRollback(o.currentStep)
    ensures EndsInRollback(RollBack(o, events, reason).events)
  {
    var all := RollBack(o, events, reason).events;
    assert all[|all| - 6..|all| - 2] == IssueAll(ROLLBACK_SEQUENCE);
  }

  /** The calls that pass through ROLLBACK: an abort or a failure of the step in
      progress from step 2 on, and the loss of the source before step 5. */
  predicate BeginsRollback(o: Core, c: Call) {
    && o.state == Migrating
    && match c
       case Abort(_) => o.currentStep >= 2
       case StepFailed(step, _, _) => step == o.currentStep >= 2
       case AgentDisconnected(r) => r == Source && o.currentStep < 5
       case _ => false
  }

  /** Exactly those calls do, and they issue the whole table, except that a source
      lost at step 1 passes through ROLLBACK without a single rollback step. */
  lemma RollbackBeginsExactly(o: Core, c: Call)
    requires CoreInv(o)
    ensures var events := Apply(o, c).events;
            && (StateChange(Migrating, Rollback) in events <==> BeginsRollback(o, c))
            && Rollbacks(events) == if BeginsRollback(o, c) && o.currentStep >= 2 then ROLLBACK_SEQUENCE else []
  {
    hide Rollbacks, CoreInv;
    var events := Apply(o, c).events;
    if BeginsRollback(o, c) {
      var before := if c.StepFailed? then [StepFailedEvent(c.step, c.role)] else [];
      var reason := events[|events| - 1].reason;
      var p := if c.AgentDisconnected? then o.(agents := o.agents.Set(c.role, false)) else o;
      assert events == RollBack(p, before, reason).events;
      RollBackIssues(p, before, reason);
    } else {
      NoRollbacks(events);
    }
  }

  lemma RollBackIssues(o: Core, events: seq<Event>, reason: Reason)
    requires o.state == Migrating && forall i :: 0 <= i < |events| ==> !events[i].RollbackIssued?
    ensures StateChange(Migrating, Rollback) in RollBack(o, events, reason).events
    ensures Rollbacks(RollBack(o, events, reason).events) == GetRollbackSteps(o.currentStep)
  {
    hide Rollbacks;
    var enter := [StateChange(Migrating, Rollback)];
    var table := IssueAll(GetRollbackSteps(o.currentStep));
    var leave := [StateChange(Rollback, Failed), SessionFailed(reason)];
    assert RollBack(o, events, reason).events == events + enter + table + leave;
    assert (events + enter)[|events|] == enter[0];
    NoRollbacks(events + enter);
    NoRollbacks(leave);
    RollbacksConcat(events + enter, table);
    RollbacksConcat(events + enter + table, leave);
    TableIssued(GetRollbackSteps(o.currentStep));
  }

  lemma {:induction false} TableIssued(steps: seq<RollbackStep>)
    ensures Rollbacks(IssueAll(steps)) == steps
  {
    if steps != [] {
      var before := steps[..|steps| - 1];
      TableIssued(before);
      assert IssueAll(steps)[..|steps| - 1] == IssueAll(before);
      assert steps == before + [steps[|steps| - 1]];
    }
  }

  /** Nothing moves and nothing is emitted once the session is over. */
  lemma TerminalIsQuiet(o: Core, c: Call)
    requires IsTerminal(o.state)
    ensures Apply(o, c).events == [] && Apply(o, c).core.state == o.state
  {
  }

  predicate RollbackIsWhole(trace: seq<Event>) {
    Rollbacks(trace) == [] || (Rollbacks(trace) == ROLLBACK_SEQUENCE && EndsInRollback(trace))
  }

  lemma {:induction false} RollbacksAreContiguous(createdAt: int, calls: seq<Call>)
    ensures RollbackIsWhole(Run(NewMachine(createdAt), calls).trace)
  {
    var m := Run(NewMachine(createdAt), calls);
    RunKeepsInv(NewMachine(createdAt), calls);
    AcceptedTraces(m.trace);
    if calls != [] {
      var before := calls[..|calls| - 1];
      var p := Run(NewMachine(createdAt), before);
      var events := Apply(p.core, calls[|calls| - 1]).events;
      RollbacksAreContiguous(createdAt, before);
      RunKeepsInv(NewMachine(createdAt), before);
      AcceptedTraces(p.trace);
      RollbacksConcat(p.trace, events);
      CallRollsBackWhollyOrNotAtAll(p.core, calls[|calls| - 1]);
      if events == [] {
        assert m.trace == p.trace;
      } else {
        if IsTerminal(p.core.state) {
          TerminalIsQuiet(p.core, calls[|calls| - 1]);
        }
        if EndsInRollback(events) {
          EndsInRollbackAfter(p.trace, events);
        }
      }
    }
  }

  lemma EndsInRollbackAfter(a: seq<Event>, b: seq<Event>)
    requires EndsInRollback(b)
    ensures EndsInRollback(a + b) && Rollbacks(b) != []
  {
    assert (a + b)[|a + b| - 6..|a + b| - 2] == b[|b| - 6..|b| - 2];
    var head, tail := b[..|b| - 5], b[|b| - 5..];
    assert b == head + tail;
    RollbacksConcat(head, tail);
    assert b[|b| - 6..|b| - 2][0] == b[|b| - 6] == head[|head| - 1];
  }

  /** Over every sequence of public calls: dispatches and completions alternate
      1, 1, 2, 2, ...; rollback steps are none or the whole table, contiguous at the
      very end; the session is over exactly when the last event says so, and that
      event is the only one of its kind and the last. */
  lemma TraceShape(createdAt: int, calls: seq<Call>)
    ensures var m := Run(NewMachine(createdAt), calls);
            && 0 <= m.core.stepsCompleted <= m.core.currentStep <= m.core.stepsCompleted + 1
            && Progress(m.trace) == Alternation(m.core.currentStep, m.core.stepsCompleted)
            && RollbackIsWhole(m.trace)
            && (IsTerminal(m.core.state) <==> m.trace != [] && Closing(m.trace[|m.trace| - 1]))
            && (forall i :: 0 <= i < |m.trace| && Closing(m.trace[i]) ==> i == |m.trace| - 1)
  {
    var m := Run(NewMachine(createdAt), calls);
    RunKeepsInv(NewMachine(createdAt), calls);
    AcceptedTraces(m.trace);
    RollbacksAreContiguous(createdAt, calls);
  }

  // ---------- Acknowledgements ----------

  /** From here on an ack of `step` by `r` can change nothing. */
  predicate Spent(o: Core, step: int, r: Role) {
    || IsTerminal(o.state)
    || (o.state == Migrating
        && (step < o.currentStep || (step == o.currentStep && step in BILATERAL_STEPS && r in AcksAt(o, step))))
  }

  lemma SpentAckIsIgnored(o: Core, step: int, r: Role, now: int)
    requires CoreInv(o) && Spent(o, step, r)
    ensures Apply(o, StepComplete(step, r, now)) == Unmoved(o)
  {
    if Current(o, step) {
      var q :| o.acks == map[step := {q}];
      assert {q} + {r} == {r};
      assert o.acks[step := {r}] == o.acks;
    }
  }

  lemma AcceptedAckIsSpent(o: Core, step: int, r: Role, now: int)
    requires CoreInv(o) && Current(o, step)
    ensures Spent(Apply(o, StepComplete(step, r, now)).core, step, r)
  {
  }

  lemma SpentStaysSpent(o: Core, step: int, r: Role, c: Call)
    requires CoreInv(o) && Spent(o, step, r)
    ensures Spent(Apply(o, c).core, step, r)
  {
  }

  lemma {:induction false} SpentThroughRun(m: Machine, step: int, r: Role, calls: seq<Call>)
    requires MachineInv(m) && Spent(m.core, step, r)
    ensures Spent(Run(m, calls).core, step, r)
  {
    if calls != [] {
      var before := calls[..|calls| - 1];
      SpentThroughRun(m, step, r, before);
      RunKeepsInv(m, before);
      SpentStaysSpent(Run(m, before).core, step, r, calls[|calls| - 1]);
    }
  }

  /** Delivering an accepted ack a second time, at any later point of any run,
      changes neither the fields nor the trace of anything that follows. */
  lemma RedeliveryIsIgnored(m: Machine, step: int, r: Role, now: int, mid: seq<Call>, later: int, post: seq<Call>)
    requires MachineInv(m) && Current(m.core, step)
    ensures var ack := [StepComplete(step, r, now)];
            Run(m, ack + mid + [StepComplete(step, r, later)] + post) == Run(m, ack + mid + post)
  {
    var ack, again := [StepComplete(step, r, now)], [StepComplete(step, r, later)];
    var m1 := Run(m, ack);
    RunOne(m, ack[0]);
    StepKeepsInv(m, ack[0]);
    AcceptedAckIsSpent(m.core, step, r, now);
    SpentThroughRun(m1, step, r, mid);
    RunKeepsInv(m1, mid);
    RunConcat(m, ack, mid);
    var m2 := Run(m, ack + mid);
    SpentAckIsIgnored(m2.core, step, r, later);
    RunOne(m2, again[0]);
    assert m2.trace + [] == m2.trace;
    RunConcat(m, ack + mid, again);
    RunConcat(m, ack + mid + again, post);
    RunConcat(m, ack + mid, post);
  }

  /** Two orchestrators that differ only in which agent has acked step `s` first. */
  predicate Twins(a: Core, b: Core, s: int) {
    && a.(acks := map[]) == b.(acks := map[])
    && a.acks == map[s := {Source}] && b.acks == map[s := {Target}]
    && (a.state == Failed || Current(a, s))
  }

  lemma TwinsStepAlike(a: Core, b: Core, s: int, c: Call)
    requires Twins(a, b, s) && s in BILATERAL_STEPS
    requires !(c.StepComplete? && c.step == s)
    ensures Apply(a, c).events == Apply(b, c).events
    ensures Twins(Apply(a, c).core, Apply(b, c).core, s)
  {
    hide FailedChecks, IssueAll, GetRollbackSteps;
    match c
    case AgentDisconnected(r) =>
    case StepFailed(_, _, _) =>
    case _ =>
  }

  lemma {:induction false} TwinsRunAlike(a: Machine, b: Machine, s: int, calls: seq<Call>)
    requires Twins(a.core, b.core, s) && a.trace == b.trace && s in BILATERAL_STEPS
    requires forall i :: 0 <= i < |calls| ==> !(calls[i].StepComplete? && calls[i].step == s)
    ensures Twins(Run(a, calls).core, Run(b, calls).core, s)
    ensures Run(a, calls).trace == Run(b, calls).trace
  {
    if calls != [] {
      var before := calls[..|calls| - 1];
      TwinsRunAlike(a, b, s, before);
      TwinsStepAlike(Run(a, before).core, Run(b, before).core, s, calls[|calls| - 1]);
    }
  }

  /** Swapping the two acks of a bilateral step, whatever else happens between
      them, leaves the trace as it was, and the fields too exactly when the session
      did not fail in between: one that did remembers which ack it had, and never
      reads it. */
  lemma SwappedAcksAgree(m: Machine, s: int, now: int, mid: seq<Call>, later: int)
    requires CoreInv(m.core) && Current(m.core, s) && s in BILATERAL_STEPS && m.core.acks == map[]
    requires forall i :: 0 <= i < |mid| ==> !(mid[i].StepComplete? && mid[i].step == s)
    ensures var a := Run(m, [StepComplete(s, Source, now)] + mid + [StepComplete(s, Target, later)]);
            var b := Run(m, [StepComplete(s, Target, now)] + mid + [StepComplete(s, Source, later)]);
            && a.trace == b.trace
            && a.core.(acks := map[]) == b.core.(acks := map[])
            && (a == b <==> a.core.state != Failed)
  {
    hide Apply, Run, CoreInv;
    var s1, t1 := StepComplete(s, Source, now), StepComplete(s, Target, now);
    var s2, t2 := StepComplete(s, Source, later), StepComplete(s, Target, later);
    FirstAckIsStored(m.core, s, Source, now);
    FirstAckIsStored(m.core, s, Target, now);
    RunOne(m, s1);
    RunOne(m, t1);
    TwinsRunAlike(Run(m, [s1]), Run(m, [t1]), s, mid);
    RunConcat(m, [s1], mid);
    RunConcat(m, [t1], mid);
    var a1, b1 := Run(m, [s1] + mid), Run(m, [t1] + mid);
    RunOne(a1, t2);
    RunOne(b1, s2);
    RunConcat(m, [s1] + mid, [t2]);
    RunConcat(m, [t1] + mid, [s2]);
    SecondAcksAgree(a1, b1, s, later);
  }

  /** The acks still missing, one each, end the twins' difference. */
  lemma SecondAcksAgree(a: Machine, b: Machine, s: int, later: int)
    requires Twins(a.core, b.core, s) && a.trace == b.trace && s in BILATERAL_STEPS
    ensures var p, q := Step(a, StepComplete(s, Target, later)), Step(b, StepComplete(s, Source, later));
            && p.trace == q.trace && p.core.(acks := map[]) == q.core.(acks := map[])
            && (p == q <==> p.core.state != Failed)
  {
    if Current(a.core, s) {
      assert a.core.acks - {s} == map[] && b.core.acks - {s} == map[];
      assert {Source} + {Target} == {Target} + {Source};
    } else {
      assert a.core.acks[s] == {Source} && b.core.acks[s] == {Target};
      assert Source !in b.core.acks[s];
    }
  }

  lemma FirstAckIsStored(o: Core, s: int, r: Role, now: int)
    requires Current(o, s) && s in BILATERAL_STEPS && o.acks == map[]
    ensures Apply(o, StepComplete(s, r, now)) == Unmoved(o.(acks := map[s := {r}]))
  {
    assert {} + {r} == {r};
    assert o.acks[s := {r}] == map[s := {r}];
  }

  // ---------- Progress ----------

  /** Acks still needed at the start of step `k`: one each, two for a bilateral step. */
  function AcksFrom(k: int): int
    requires 1 <= k <= TOTAL_STEPS + 1
    decreases TOTAL_STEPS + 1 - k
  {
    if k == TOTAL_STEPS + 1 then 0
    else (if k in BILATERAL_STEPS then 2 else 1) + AcksFrom(k + 1)
  }

  function AcksNeeded(o: Core): int
    requires CoreInv(o) && (o.state == Migrating || o.state == Complete)
  {
    if o.state == Complete then 0 else AcksFrom(o.currentStep) - |AcksAt(o, o.currentStep)|
  }

  /** The call is an ack the orchestrator counts. */
  predicate Counts(o: Core, c: Call) {
    c.StepComplete? && Current(o, c.step) && (c.step in BILATERAL_STEPS ==> c.role !in AcksAt(o, c.step))
  }

  lemma AcksFromBounds(k: int)
    requires 1 <= k <= TOTAL_STEPS + 1
    ensures AcksFrom(k) == (10 - k) + if k <= 4 then 2 else if k == 5 then 1 else 0
  {
    assert AcksFrom(10) == 0;
    assert AcksFrom(9) == 1;
    assert AcksFrom(8) == 2;
    assert AcksFrom(7) == 3;
    assert AcksFrom(6) == 4;
    assert AcksFrom(5) == 6;
    assert AcksFrom(4) == 8;
    assert AcksFrom(3) == 9;
    assert AcksFrom(2) == 10;
  }

  /** Every counted ack brings the end exactly one ack closer. */
  lemma AckSpendsOne(o: Core, c: Call)
    requires CoreInv(o) && Counts(o, c)
    ensures var p := Apply(o, c).core;
            CoreInv(p) && (p.state == Migrating || p.state == Complete) && AcksNeeded(p) == AcksNeeded(o) - 1
  {
    ApplyKeepsCore(o, c);
    AcksFromBounds(o.currentStep);
    if c.step in BILATERAL_STEPS {
      AckOfBilateralStep(o, c.step, c.role);
    }
  }

  lemma AckOfBilateralStep(o: Core, step: int, r: Role)
    requires CoreInv(o) && Current(o, step) && step in BILATERAL_STEPS && r !in AcksAt(o, step)
    ensures AcksAt(o, step) == {} || AcksAt(o, step) == {Peer(r)}
    ensures |AcksAt(o, step)| == if o.acks == map[] then 0 else 1
    ensures |AcksAt(o, step) + {r}| == |AcksAt(o, step)| + 1
  {
    if o.acks != map[] {
      var q :| o.acks == map[step := {q}];
      assert AcksAt(o, step) == {q};
      assert r !in {q} && q == Peer(r);
    }
  }

  /** Any other call leaves the number of acks needed alone or ends the session. */
  lemma OthersSpendNone(o: Core, c: Call)
    requires CoreInv(o) && o.state == Migrating && !Counts(o, c)
    ensures var p := Apply(o, c).core;
            CoreInv(p) && (p.state == Failed || (p.state == Migrating && AcksNeeded(p) == AcksNeeded(o)))
  {
    ApplyKeepsCore(o, c);
    if c.StepComplete? && Current(o, c.step) {
      SpentAckIsIgnored(o, c.step, c.role, c.now);
    }
  }

  function CountedAcks(m: Machine, calls: seq<Call>): int {
    if calls == [] then 0
    else
      var before := calls[..|calls| - 1];
      CountedAcks(m, before) + if Counts(Run(m, before).core, calls[|calls| - 1]) then 1 else 0
  }

  /** How many acks were counted, by the state the run is in. */
  predicate Tally(o: Core, n: int) {
    && CoreInv(o)
    && (o.state in {Idle, Pairing, Preflight, AwaitingWindow} ==> n == 0)
    && (o.state == Migrating || o.state == Complete ==> n == AcksFrom(1) - AcksNeeded(o))
  }

  /** One call keeps the tally. */
  lemma TallyStep(o: Core, n: int, c: Call)
    requires Tally(o, n)
    ensures Tally(Apply(o, c).core, n + if Counts(o, c) then 1 else 0)
  {
    hide CoreInv, Counts, AcksNeeded, Apply;
    ApplyKeepsCore(o, c);
    if Counts(o, c) {
      MigratingIfCounts(o, c);
      AckSpendsOne(o, c);
    } else if o.state == Migrating {
      OthersSpendNone(o, c);
    } else if IsTerminal(o.state) {
      TerminalKeepsTally(o, n, c);
    } else {
      NeverInRollback(o);
      EarlyTally(o, c);
    }
  }

  lemma NeverInRollback(o: Core)
    requires CoreInv(o)
    ensures o.state != Rollback
  {
  }

  lemma MigratingIfCounts(o: Core, c: Call)
    requires Counts(o, c)
    ensures o.state == Migrating
  {
  }

  lemma TerminalKeepsTally(o: Core, n: int, c: Call)
    requires Tally(o, n) && IsTerminal(o.state)
    ensures Tally(Apply(o, c).core, n)
  {
    hide AcksFrom;
    ApplyKeepsCore(o, c);
  }

  lemma EarlyTally(o: Core, c: Call)
    requires CoreInv(o) && o.state in {Idle, Pairing, Preflight, AwaitingWindow}
    ensures Tally(Apply(o, c).core, 0)
  {
    hide AcksFrom;
    ApplyKeepsCore(o, c);
    assert AcksAt(Apply(o, c).core, 1) == {};
  }

  lemma {:induction false} CountedSoFar(createdAt: int, calls: seq<Call>)
    ensures Tally(Run(NewMachine(createdAt), calls).core, CountedAcks(NewMachine(createdAt), calls))
  {
    hide Tally, Apply, Counts;
    if calls == [] {
      FreshTally(createdAt);
    } else {
      var before, c := calls[..|calls| - 1], calls[|calls| - 1];
      CountedSoFar(createdAt, before);
      TallyStep(Run(NewMachine(createdAt), before).core, CountedAcks(NewMachine(createdAt), before), c);
    }
  }

  lemma FreshTally(createdAt: int)
    ensures Tally(Fresh(createdAt), 0)
  {
  }

  /** Every completed run counted exactly eleven acks. */
  lemma CompletedRunTookElevenAcks(createdAt: int, calls: seq<Call>)
    requires Run(NewMachine(createdAt), calls).core.state == Complete
    ensures CountedAcks(NewMachine(createdAt), calls) == 11
  {
    CountedSoFar(createdAt, calls);
    AcksFromBounds(1);
  }

  /** From every MIGRATING state some sequence of acks, as many as are needed and
      never more than eleven, reaches COMPLETE with all nine steps done. */
  lemma {:induction false} CanAlwaysFinish(m: Machine, now: int) returns (acks: seq<Call>)
    requires MachineInv(m) && m.core.state == Migrating
    ensures |acks| == AcksNeeded(m.core) <= 11
    ensures forall i :: 0 <= i < |acks| ==> acks[i].StepComplete?
    ensures Run(m, acks).core.state == Complete && Run(m, acks).core.stepsCompleted == TOTAL_STEPS
    decreases AcksNeeded(m.core)
  {
    var k := m.core.currentStep;
    AcksFromBounds(k);
    var r := if Source in AcksAt(m.core, k) then Target else Source;
    if m.core.acks != map[] {
      var q :| m.core.acks == map[k := {q}];
    }
    var c := StepComplete(k, r, now);
    AckSpendsOne(m.core, c);
    StepKeepsInv(m, c);
    RunOne(m, c);
    if Step(m, c).core.state == Complete {
      acks := [c];
    } else {
      AckNeededIsPositive(m.core);
      var rest := CanAlwaysFinish(Step(m, c), now);
      acks := [c] + rest;
      RunConcat(m, [c], rest);
    }
  }

  lemma AckNeededIsPositive(o: Core)
    requires CoreInv(o) && o.state == Migrating
    ensures 1 <= AcksNeeded(o) <= 11
  {
    AcksFromBounds(o.currentStep);
    if o.acks != map[] {
      var q :| o.acks == map[o.currentStep := {q}];
      assert AcksAt(o, o.currentStep) == {q};
    } else {
      assert AcksAt(o, o.currentStep) == {};
    }
  }
}
