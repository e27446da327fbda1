/** Registry records, their content-addressed identities and their lifecycle transitions. */
module Domain {
  import opened Common

  datatype ExperimentStatus = Draft | Ready | Executing | Done | Broken | Cancelled

  datatype RunStatus = Pending | Running | Completed | Failed

  /** Scheduler states, of which only the transition table matters here. */
  datatype UnitState = Planned | Queued | InProgress | Succeeded | UnitFailed | TimedOut | RetryPending | Blocked
                     | Skipped | UnitCancelled

  predicate ExperimentMove(a: ExperimentStatus, b: ExperimentStatus) {
    match a
    case Draft => b == Ready || b == Cancelled
    case Ready => b == Executing || b == Cancelled
    case Executing => b == Done || b == Broken || b == Cancelled
    case Done => false
    case Broken => false
    case Cancelled => false
  }

  predicate RunMove(a: RunStatus, b: RunStatus) {
    match a
    case Pending => b == Running || b == Failed
    case Running => b == Completed || b == Failed
    case Completed => false
    case Failed => false
  }

  predicate UnitMove(a: UnitState, b: UnitState) {
    match a
    case Planned => b == Queued || b == Blocked || b == UnitCancelled
    case Queued => b == InProgress || b == Blocked || b == UnitCancelled
    case InProgress => b == Succeeded || b == UnitFailed || b == TimedOut || b == UnitCancelled
    case UnitFailed => b == RetryPending || b == UnitCancelled
    case TimedOut => b == RetryPending || b == UnitCancelled
    case RetryPending => b == Queued || b == UnitCancelled
    case Blocked => b == Queued || b == Skipped || b == UnitCancelled
    case Succeeded => false
    case Skipped => false
    case UnitCancelled => false
  }

  /** Reachable by zero or more transitions. */
  predicate RunReaches(a: RunStatus, b: RunStatus) {
    a == b || a == Pending || (a == Running && Finished(b))
  }

  predicate Finished(s: RunStatus) { s == Completed || s == Failed }

  // Identity ------------------------------------------------------------------------------------

  /** A record's id is a hash of its identity fields; here it is those fields, so equal ids mean
      equal identities. Status and timestamps are not part of it. */
  datatype Id =
    | ExperimentId(key: string)
    | RunId(experiment: Id, environment: Id, seed: nat, attempt: nat)
    | ProvenanceId(run: Id)
    | OutcomeId(run: Id)
    | ObservationId(run: Id, name: string, sequence: nat)
    | ArtifactId(run: Id, path: string, digest: string)
    | UnitId(key: string)
    | ScheduleRunId(key: string)
    | AttemptId(unit: Id, attempt: nat)
    | OtherId(kind: string, key: string)

  datatype FailureStage = Preparation | Execution | ArtifactRegistration | Interrupted

  datatype ErrorInfo = ErrorInfo(stage: FailureStage, errorType: string, diagnostic: Option<Id>)

  datatype Entity =
    | Experiment(key: string, investigation: Id, configuration: Id, createdAt: int, experimentStatus: ExperimentStatus)
    | Run(experiment: Id, environment: Id, seed: nat, createdAt: int, attempt: nat, status: RunStatus)
    | Provenance(run: Id, experiment: Id, environment: Id, configuration: Id, seed: nat, startedAt: int,
                 pid: Option<int>, replayOf: Option<Id>)
    | Outcome(run: Id, finishedAt: int, result: RunStatus, observationCount: nat, artifactIds: set<Id>,
              error: Option<ErrorInfo>)
    | Observation(run: Id, name: string, sequence: nat, createdAt: int, observed: string)
    | Artifact(run: Id, path: string, digest: string, createdAt: int)
    | ScheduleUnit(key: string, schedule: Id, dependsOn: seq<Id>, unitState: UnitState)
    | ScheduleRun(key: string, schedule: Id, investigation: Id, sequence: nat)
    | Attempt(unit: Id, scheduleRun: Id, attempt: nat, executed: Option<Id>, ended: UnitState)
    | Other(kind: string, key: string, refs: seq<Id>)  // records admitted on their references alone

  function IdOf(e: Entity): Id {
    match e
    case Experiment(key, _, _, _, _) => ExperimentId(key)
    case Run(x, env, seed, _, n, _) => RunId(x, env, seed, n)
    case Provenance(run, _, _, _, _, _, _, _) => ProvenanceId(run)
    case Outcome(run, _, _, _, _, _) => OutcomeId(run)
    case Observation(run, name, n, _, _) => ObservationId(run, name, n)
    case Artifact(run, path, digest, _) => ArtifactId(run, path, digest)
    case ScheduleUnit(key, _, _, _) => UnitId(key)
    case ScheduleRun(key, _, _, _) => ScheduleRunId(key)
    case Attempt(unit, _, n, _, _) => AttemptId(unit, n)
    case Other(kind, key, _) => OtherId(kind, key)
  }

  predicate Names(id: Id, kind: string) { id.OtherId? && id.kind == kind }

  predicate IsEnvironment(e: Entity) { e.Other? && e.kind == "environment" }

  /** Every reference is an id of the table its column refers to. */
  predicate RefersProperly(e: Entity) {
    match e
    case Experiment(_, inv, cfg, _, _) => Names(inv, "investigation") && Names(cfg, "configuration")
    case Run(x, env, _, _, _, _) => x.ExperimentId? && Names(env, "environment")
    case Provenance(run, x, env, cfg, _, _, _, replayOf) =>
      && run.RunId? && x.ExperimentId? && Names(env, "environment") && Names(cfg, "configuration")
      && (replayOf.Some? ==> replayOf.value.RunId?)
    case Outcome(run, _, _, _, ids, _) => run.RunId? && forall a | a in ids :: a.ArtifactId?
    case Observation(run, _, _, _, _) => run.RunId?
    case Artifact(run, _, _, _) => run.RunId?
    case ScheduleUnit(_, schedule, deps, _) => Names(schedule, "schedule") && forall d | d in deps :: d.UnitId?
    case ScheduleRun(_, schedule, inv, _) => Names(schedule, "schedule") && Names(inv, "investigation")
    case Attempt(unit, sr, _, executed, _) =>
      unit.UnitId? && sr.ScheduleRunId? && (executed.Some? ==> executed.value.RunId?)
    case Other(_, _, _) => true
  }

  /** What constructing the record already refuses. */
  predicate WellFormed(e: Entity) { RefersProperly(e) && Consistent(e) }

  predicate Consistent(e: Entity) {
    match e
    case Provenance(run, _, _, _, _, _, _, replayOf) => replayOf != Some(run)
    case Outcome(_, _, result, _, ids, error) =>
      && Finished(result)
      && (error.None? <==> result == Completed)
      && (error.Some? && error.value.diagnostic.Some? ==> error.value.diagnostic.value in ids)
    case Attempt(_, _, _, _, s) => s == Succeeded || s == UnitFailed || s == TimedOut || s == UnitCancelled
    case _ => true
  }

  /** Every record an entity mentions. */
  function Refs(e: Entity): set<Id> {
    match e
    case Experiment(_, inv, cfg, _, _) => {inv, cfg}
    case Run(x, env, _, _, _, _) => {x, env}
    case Provenance(run, x, env, cfg, _, _, _, replayOf) =>
      {run, x, env, cfg} + (if replayOf.Some? then {replayOf.value} else {})
    case Outcome(run, _, _, _, ids, _) => {run} + ids
    case Observation(run, _, _, _, _) => {run}
    case Artifact(run, _, _, _) => {run}
    case ScheduleUnit(_, schedule, deps, _) => {schedule} + (set d | d in deps)
    case ScheduleRun(_, schedule, inv, _) => {schedule, inv}
    case Attempt(unit, sr, _, executed, _) => {unit, sr} + (if executed.Some? then {executed.value} else {})
    case Other(_, _, refs) => set r | r in refs
  }

  /** The same record except perhaps for its status. */
  predicate SameButStatus(a: Entity, b: Entity) {
    match a
    case Experiment(_, _, _, _, _) => b.Experiment? && b == a.(experimentStatus := b.experimentStatus)
    case Run(_, _, _, _, _, _) => b.Run? && b == a.(status := b.status)
    case ScheduleUnit(_, _, _, _) => b.ScheduleUnit? && b == a.(unitState := b.unitState)
    case _ => b == a
  }

  predicate StatusMove(a: Entity, b: Entity) {
    match a
    case Experiment(_, _, _, _, s) => b.Experiment? && ExperimentMove(s, b.experimentStatus)
    case Run(_, _, _, _, _, s) => b.Run? && RunMove(s, b.status)
    case ScheduleUnit(_, _, _, s) => b.ScheduleUnit? && UnitMove(s, b.unitState)
    case _ => false
  }

  /** `next` is `current` after a legal status change and nothing else. */
  predicate StatusStep(current: Entity, next: Entity) {
    StatusMove(current, next) && SameButStatus(current, next)
  }
}
