/** Several executors sharing one registry: create, start, run, finalize, replay and recover, with a
    crash or a failure possible between any two steps. */
module Executors {
  import opened Common
  import opened Domain
  import opened Store
  import opened RegistryLaws
  import opened Lifecycle
  import opened LifecycleSteps
  import opened Recording

  const DIAGNOSTIC := "diagnostics/traceback.txt"

  /** Where an executor stands. `run` is its in-memory copy of the run record. */
  datatype Pc =
    | Idle
    | Creating(experiment: Id, configuration: Id, seed: nat, replayOf: Option<Id>)
    | Preparing(run: Entity, configuration: Id, replayOf: Option<Id>)
    | Unstarted(run: Entity)
    | InProcedure(run: Entity, notes: Notes)
    | Diagnosing(run: Entity, notes: Notes, error: ErrorInfo)
    | Closing(run: Entity, notes: Notes, failure: Option<ErrorInfo>)
    | Scanning(sweep: Sweep)
    | Counting(run: Entity, artifacts: set<Id>, sweep: Sweep)
    | Rescuing(run: Entity, artifacts: set<Id>, count: nat, sweep: Sweep)

  /** One pass of recovery: the runs found RUNNING, those still to examine, those whose process was
      alive and those closed. */
  datatype Sweep = Sweep(found: set<Id>, todo: map<Id, Entity>, alive: set<Id>, recovered: set<Id>)

  /** A transaction an executor may open; clock readings and the like are parameters. */
  datatype Job =
    | Create(env: Entity, now: int)
    | Start(startedAt: int, pid: Option<int>)
    | GiveUp(now: int, errorType: string)
    | Observe(name: string, value: string, now: int)
    | Register(path: string, digest: string, now: int)
    | Close(now: int)
    | Rescue(now: int)

  predicate Allowed(pc: Pc, job: Job) {
    match job
    case Create(env, _) => pc.Creating? && IsEnvironment(env)
    case Start(_, _) => pc.Preparing? && pc.run.Run?
    case GiveUp(_, _) => pc.Unstarted? && pc.run.Run?
    case Observe(_, _, _) => pc.InProcedure? && pc.run.Run?
    case Register(path, _, _) => (pc.InProcedure? || (pc.Diagnosing? && path == DIAGNOSTIC)) && pc.run.Run?
    case Close(_) => pc.Closing? && pc.run.Run?
    case Rescue(_) => pc.Rescuing? && pc.run.Run?
  }

  function ProvenanceOf(pc: Pc, startedAt: int, pid: Option<int>): Entity
    requires pc.Preparing? && pc.run.Run?
  {
    Provenance(IdOf(pc.run), pc.run.experiment, pc.run.environment, pc.configuration, pc.run.seed, startedAt, pid, pc.replayOf)
  }

  /** The outcome an executor is about to write. */
  function OutcomeOf(pc: Pc, job: Job): Entity
    requires Allowed(pc, job) && (job.GiveUp? || job.Close? || job.Rescue?)
  {
    match job
    case GiveUp(now, errorType) =>
      Outcome(IdOf(pc.run), now, Failed, 0, {}, Some(ErrorInfo(Preparation, errorType, None)))
    case Close(now) =>
      Outcome(IdOf(pc.run), now, if pc.failure.Some? then Failed else Completed, |pc.notes.observations|,
              (set a | a in pc.notes.artifacts), pc.failure)
    case Rescue(now) =>
      Outcome(IdOf(pc.run), now, Failed, pc.count, pc.artifacts,
              Some(ErrorInfo(Interrupted, "experionyx.ProcessEnded", None)))
  }

  function ScriptOf(pc: Pc, job: Job): seq<Statement>
    requires Allowed(pc, job)
  {
    match job
    case Create(env, now) => [EnsureEnvironment(env), CreateRun(pc.experiment, IdOf(env), pc.seed, now)]
    case Start(startedAt, pid) => Pair(ProvenanceOf(pc, startedAt, pid), pc.run, Running)
    case Observe(name, value, now) => [Do(Add(Observation(IdOf(pc.run), name, NextSequence(pc.notes, name), now, value)))]
    case Register(path, digest, now) => [Do(Add(Artifact(IdOf(pc.run), path, digest, now)))]
    case _ => Pair(OutcomeOf(pc, job), pc.run, OutcomeOf(pc, job).result)
  }

  function LastAdded(t: Tables): Option<Entity> {
    if |t.order| > 0 && t.order[|t.order| - 1] in t.rows then Some(t.rows[t.order[|t.order| - 1]].payload) else None
  }

  /** Where the executor stands once the transaction has committed, giving the tables `t`. */
  function After(pc: Pc, job: Job, t: Tables): Pc
    requires Allowed(pc, job)
  {
    match job
    case Create(_, _) =>
      if LastAdded(t).Some? then Preparing(LastAdded(t).value, pc.configuration, pc.replayOf) else Idle
    case Start(_, _) => InProcedure(pc.run.(status := Running), NOTHING)
    case Observe(name, _, _) => InProcedure(pc.run, Observed(pc.notes, IdOf(pc.run), name))
    case Register(path, digest, _) =>
      var a := ArtifactId(IdOf(pc.run), path, digest);
      if pc.InProcedure? then InProcedure(pc.run, Registered(pc.notes, a))
      else Closing(pc.run, Registered(pc.notes, a), Some(pc.error.(diagnostic := Some(a))))
    case Rescue(_) => Scanning(pc.sweep.(recovered := pc.sweep.recovered + {IdOf(pc.run)}))
    case _ => Idle
  }

  /** Where an exception takes it. A failed write inside the procedure is the procedure's to handle. */
  function Failing(pc: Pc): Pc {
    match pc
    case Preparing(run, _, _) => Unstarted(run)
    case InProcedure(_, _) => pc
    case Diagnosing(run, notes, error) => Closing(run, notes, Some(error))
    case _ => Idle
  }

  datatype Tx = Tx(owner: nat, job: Job, done: nat, work: Tables)

  datatype World = World(tables: Tables, tx: Option<Tx>, pcs: seq<Pc>)

  datatype Action =
    | Client(op: Op)
    | Execute(who: nat, experiment: Id, seed: nat, replayOf: Option<Id>)
    | Replay(who: nat, original: Id)
    | Begin(who: nat, job: Job)
    | Step
    | Commit
    | Fail(who: nat)
    | Return(who: nat, verified: bool)
    | Raise(who: nat, stage: FailureStage, errorType: string)
    | Scan(who: nat)
    | Examine(who: nat, id: Id, alive: bool)
    | Count(who: nat)
    | Rest(who: nat)
    | Crash(who: nat)

  predicate Executable(t: Tables, x: Id) {
    && x in t.rows && t.rows[x].payload.Experiment?
    && t.rows[x].payload.experimentStatus !in {Draft, Cancelled, Broken}
  }

  /** Any other client of the registry: it never writes a run's own records. */
  predicate Outside(op: Op) {
    var e := op.entity; !e.Run? && !e.Provenance? && !e.Outcome? && !e.Observation? && !e.Artifact?
  }

  /** The executor exists and is not inside a transaction. */
  predicate Free(w: World, i: nat) { i < |w.pcs| && (w.tx.Some? ==> w.tx.value.owner != i) }

  function At(w: World, i: nat, pc: Pc): World
    requires i < |w.pcs|
  {
    w.(pcs := w.pcs[i := pc])
  }

  function Rollback(w: World, i: nat): Option<Tx> { if w.tx.Some? && w.tx.value.owner == i then None else w.tx }

  function ByStatus(s: RunStatus): map<string, Cell> { map["status" := RunStatusText(s).value] }

  /** The process recorded in a run's provenance. */
  function PidOf(t: Tables, run: Id): Option<int> {
    var found := Select(t, Provenances, ByRun(run));
    if ProvenanceId(run) in found && found[ProvenanceId(run)].Provenance? then found[ProvenanceId(run)].pid else None
  }

  /** One step; an action that is not possible changes nothing. */
  function Next(w: World, a: Action): World {
    match a
    case Client(op) =>
      if w.tx.None? && Outside(op) && ApplyOp(w.tables, op).Ok? then w.(tables := ApplyOp(w.tables, op).value) else w
    case Execute(i, x, seed, replayOf) =>
      if Free(w, i) && w.pcs[i].Idle? && Executable(w.tables, x)
      then At(w, i, Creating(x, w.tables.rows[x].payload.configuration, seed, replayOf)) else w
    case Replay(i, o) => if Free(w, i) && w.pcs[i].Idle? then At(w, i, ReplayFrom(w.tables, o)) else w
    case Begin(i, job) =>
      if i < |w.pcs| && w.tx.None? && Allowed(w.pcs[i], job) then w.(tx := Some(Tx(i, job, 0, w.tables))) else w
    case Step => Stepped(w)
    case Commit => Committed(w)
    case Fail(i) => if i < |w.pcs| then At(w, i, Failing(w.pcs[i])).(tx := Rollback(w, i)) else w
    case Return(i, verified) =>
      if Free(w, i) && w.pcs[i].InProcedure?
      then At(w, i, if verified then Closing(w.pcs[i].run, w.pcs[i].notes, None)
                    else Diagnosing(w.pcs[i].run, w.pcs[i].notes, ErrorInfo(ArtifactRegistration, "ArtifactError", None)))
      else w
    case Raise(i, stage, errorType) =>
      if Free(w, i) && w.pcs[i].InProcedure? && (stage == Execution || stage == Interrupted)
      then At(w, i, Diagnosing(w.pcs[i].run, w.pcs[i].notes, ErrorInfo(stage, errorType, None))) else w
    case Scan(i) =>
      if Free(w, i) && w.pcs[i].Idle? then At(w, i, Scanning(NewSweep(w.tables))) else w
    case Examine(i, id, alive) =>
      if Free(w, i) && w.pcs[i].Scanning? && id in w.pcs[i].sweep.todo
      then At(w, i, Examined(w.tables, w.pcs[i].sweep, id, alive)) else w
    case Count(i) =>
      if Free(w, i) && w.pcs[i].Counting?
      then At(w, i, Rescuing(w.pcs[i].run, w.pcs[i].artifacts,
                             |Select(w.tables, Observations, ByRun(IdOf(w.pcs[i].run)))|, w.pcs[i].sweep))
      else w
    case Rest(i) => if Free(w, i) && w.pcs[i].Scanning? && w.pcs[i].sweep.todo == map[] then At(w, i, Idle) else w
    case Crash(i) => if i < |w.pcs| then At(w, i, Idle).(tx := Rollback(w, i)) else w
  }

  function NewSweep(t: Tables): Sweep {
    var found := Select(t, Runs, ByStatus(Running));
    Sweep(found.Keys, found, {}, {})
  }

  /** Recovery skips a run whose process is alive and goes on to close the others. */
  function Examined(t: Tables, sweep: Sweep, id: Id, alive: bool): Pc
    requires id in sweep.todo
  {
    var rest := sweep.(todo := sweep.todo - {id});
    if PidOf(t, id).Some? && alive then Scanning(rest.(alive := sweep.alive + {id}))
    else Counting(sweep.todo[id], Select(t, Artifacts, ByRun(id)).Keys, rest)
  }

  /** A replay starts from a finished run with provenance, under its experiment and its seed. */
  function ReplayFrom(t: Tables, o: Id): Pc {
    if !RunIs(t, o) || !Finished(t.rows[o].payload.status) then Idle
    else
      var x := t.rows[o].payload.experiment;
      var recorded := Select(t, Provenances, ByRun(o));
      if ProvenanceId(o) !in recorded || !recorded[ProvenanceId(o)].Provenance? || !Executable(t, x) then Idle
      else Creating(x, t.rows[x].payload.configuration, recorded[ProvenanceId(o)].seed, Some(o))
  }

  function Stepped(w: World): World {
    if w.tx.None? then w
    else
      var Tx(i, job, done, work) := w.tx.value;
      if i >= |w.pcs| || !Allowed(w.pcs[i], job) || done >= |ScriptOf(w.pcs[i], job)| then w
      else
        match Perform(work, ScriptOf(w.pcs[i], job)[done])
        case Ok(work') => w.(tx := Some(Tx(i, job, done + 1, work')))
        case Err(_) => At(w, i, Failing(w.pcs[i])).(tx := None)
  }

  function Committed(w: World): World {
    if w.tx.None? then w
    else
      var Tx(i, job, done, work) := w.tx.value;
      if i >= |w.pcs| || !Allowed(w.pcs[i], job) || done != |ScriptOf(w.pcs[i], job)| then w
      else World(work, None, w.pcs[i := After(w.pcs[i], job, work)])
  }

  function Trace(w: World, actions: seq<Action>): World {
    if actions == [] then w else Next(Trace(w, actions[..|actions| - 1]), actions[|actions| - 1])
  }
}
