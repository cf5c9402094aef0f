/** Roles, session states and the constant tables that the hub, both agents and
    the dashboard share. */
module Protocol {

  datatype Option<+T> = None | Some(value: T)

  datatype Role = Source | Target

  function Peer(r: Role): Role {
    if r == Source then Target else Source
  }

  datatype PerRole<T> = PerRole(source: T, target: T) {
    function Get(r: Role): T {
      if r == Source then source else target
    }

    function Set(r: Role, t: T): PerRole<T> {
      if r == Source then this.(source := t) else this.(target := t)
    }
  }

  datatype MigrationState =
    | Idle
    | Pairing
    | Preflight
    | AwaitingWindow
    | Migrating
    | Complete
    | Rollback
    | Failed

  /** The edges of the session's state diagram. */
  function AllowedTransitions(s: MigrationState): set<MigrationState> {
    match s
    case Idle => {Pairing, Failed}
    case Pairing => {Preflight, Idle, Failed}
    case Preflight => {AwaitingWindow, Failed, Idle}
    case AwaitingWindow => {Migrating, Failed}
    case Migrating => {Complete, Rollback, Failed}
    case Rollback => {Failed}
    case Complete => {}
    case Failed => {}
  }

  predicate IsTerminal(s: MigrationState) {
    s == Complete || s == Failed
  }

  // ---------- Migration steps ----------

  datatype MigrationStep = MigrationStep(number: int, name: string, executor: Role)

  const MIGRATION_STEPS: seq<MigrationStep> := [
    MigrationStep(1, "wait_for_restart_window", Source),
    MigrationStep(2, "set_unstaked_identity_source", Source),
    MigrationStep(3, "remove_authorized_voters_source", Source),
    MigrationStep(4, "transfer_tower_file", Source),
    MigrationStep(5, "transfer_identity_keypair", Source),
    MigrationStep(6, "set_staked_identity_target", Target),
    MigrationStep(7, "add_authorized_voter_target", Target),
    MigrationStep(8, "post_migration_verify", Target),
    MigrationStep(9, "cleanup_source", Source)]

  const TOTAL_STEPS := 9

  const BILATERAL_STEPS: set<int> := {4, 5}

  /** The first entry with the given number, as an array's find returns it. */
  function FindStep(steps: seq<MigrationStep>, n: int): Option<MigrationStep> {
    if |steps| == 0 then None
    else if steps[0].number == n then Some(steps[0])
    else FindStep(steps[1..], n)
  }

  function GetStep(n: int): Option<MigrationStep> {
    FindStep(MIGRATION_STEPS, n)
  }

  function NextStep(currentStep: int): Option<MigrationStep> {
    FindStep(MIGRATION_STEPS, currentStep + 1)
  }

  /** Who runs step `n`, in closed form. `LookupSteps` ties it to the table. */
  function ExecutorOf(n: int): Role {
    if 6 <= n <= 8 then Target else Source
  }

  /** The agents that are sent `execute_step n`: both for a bilateral step. */
  predicate Assigned(r: Role, n: int) {
    n in BILATERAL_STEPS || (1 <= n <= TOTAL_STEPS && r == ExecutorOf(n))
  }

  /** Searching a table numbered from `base` finds exactly the entry at its offset. */
  lemma {:induction false} FindInNumberedTable(steps: seq<MigrationStep>, base: int, n: int)
    requires forall i :: 0 <= i < |steps| ==> steps[i].number == base + i
    ensures FindStep(steps, n) == if base <= n < base + |steps| then Some(steps[n - base]) else None
  {
    if |steps| > 0 && steps[0].number != n {
      FindInNumberedTable(steps[1..], base + 1, n);
    }
  }

  /** The table lookups succeed exactly on 1..9, return the entry with that number,
      and its executor is the closed form. */
  lemma LookupSteps(n: int)
    ensures GetStep(n).Some? <==> 1 <= n <= TOTAL_STEPS
    ensures NextStep(n).Some? <==> 0 <= n < TOTAL_STEPS
    ensures GetStep(n).Some? ==> GetStep(n).value.number == n && GetStep(n).value.executor == ExecutorOf(n)
    ensures NextStep(n).Some? ==> NextStep(n).value.number == n + 1 && NextStep(n).value.executor == ExecutorOf(n + 1)
  {
    hide FindStep;
    FindInNumberedTable(MIGRATION_STEPS, 1, n);
    FindInNumberedTable(MIGRATION_STEPS, 1, n + 1);
  }

  // ---------- Rollback ----------

  datatype RollbackName =
    | RestoreSourceIdentity
    | ReaddAuthorizedVoterSource
    | RemoveTransferredFilesTarget
    | VerifySourceVoting

  datatype RollbackStep = RollbackStep(name: RollbackName, executor: Role)

  const ROLLBACK_SEQUENCE: seq<RollbackStep> := [
    RollbackStep(RestoreSourceIdentity, Source),
    RollbackStep(ReaddAuthorizedVoterSource, Source),
    RollbackStep(RemoveTransferredFilesTarget, Target),
    RollbackStep(VerifySourceVoting, Source)]

  predicate ShouldRollback(failedStep: int) {
    failedStep >= 2
  }

  function GetRollbackSteps(failedAtStep: int): seq<RollbackStep> {
    if ShouldRollback(failedAtStep) then ROLLBACK_SEQUENCE else []
  }
}
