/** Whatever the interleaving, failures and crashes, every committed state is lifecycle-correct. */
module ExecutorSafety {
  import opened Common
  import opened Domain
  import opened Store
  import opened RegistryLaws
  import opened Lifecycle
  import opened LifecycleSteps
  import opened Recording
  import opened Executors

  // What an executor may rely on -------------------------------------------------------------------

  ghost predicate Configured(t: Tables, x: Id, configuration: Id) {
    x in t.rows && t.rows[x].payload.Experiment? && t.rows[x].payload.configuration == configuration
  }

  /** The executor's copy of a PENDING run is the stored one, and nothing was recorded for it. */
  ghost predicate HeldPending(t: Tables, run: Entity) {
    && run.Run? && run.status == Pending && RunIs(t, IdOf(run)) && t.rows[IdOf(run)].payload == run
    && forall id :: id in t.rows && id.ObservationId? ==> id.run != IdOf(run)
  }

  /** A run that was seen RUNNING: someone else may have closed it since. */
  ghost predicate SeenRunning(t: Tables, run: Entity) {
    && run.Run? && run.status == Running && RunIs(t, IdOf(run)) && SameButStatus(t.rows[IdOf(run)].payload, run)
    && t.rows[IdOf(run)].payload.status != Pending && Has(t, ProvenanceId(IdOf(run)))
  }

  ghost predicate AllSeen(t: Tables, todo: map<Id, Entity>) {
    forall id :: id in todo ==> IdOf(todo[id]) == id && SeenRunning(t, todo[id])
  }

  /** Closed as interrupted. */
  ghost predicate Recovered(t: Tables, r: Id) {
    && RunIs(t, r) && t.rows[r].payload.status == Failed && Has(t, OutcomeId(r)) && t.rows[OutcomeId(r)].payload.Outcome?
    && t.rows[OutcomeId(r)].payload.error.Some? && t.rows[OutcomeId(r)].payload.error.value.stage == Interrupted
  }

  /** Every run found is still to be examined, was alive, was recovered or is `current`. */
  ghost predicate SweepOk(t: Tables, sweep: Sweep, current: Option<Id>) {
    && AllSeen(t, sweep.todo)
    && (forall id :: id in sweep.found ==>
          id in sweep.todo || id in sweep.alive || id in sweep.recovered || current == Some(id))
    && (forall id :: id in sweep.recovered ==> Recovered(t, id))
  }

  ghost predicate ArtifactsOf(t: Tables, run: Id, ids: set<Id>) {
    forall a :: a in ids ==> a.ArtifactId? && a.run == run && a in t.rows
  }

  ghost predicate ErrorOk(error: ErrorInfo, notes: Notes) {
    error.stage != Preparation && (error.diagnostic.Some? ==> error.diagnostic.value in notes.artifacts)
  }

  ghost predicate PcOk(t: Tables, pc: Pc) {
    match pc
    case Idle => true
    case Creating(x, cfg, _, _) => Configured(t, x, cfg)
    case Preparing(run, cfg, _) => HeldPending(t, run) && Configured(t, run.experiment, cfg)
    case Unstarted(run) => HeldPending(t, run)
    case InProcedure(run, notes) => SeenRunning(t, run) && InSync(t, IdOf(run), notes)
    case Diagnosing(run, notes, error) => SeenRunning(t, run) && InSync(t, IdOf(run), notes) && ErrorOk(error, notes)
    case Closing(run, notes, failure) =>
      SeenRunning(t, run) && InSync(t, IdOf(run), notes) && (failure.Some? ==> ErrorOk(failure.value, notes))
    case Scanning(sweep) => SweepOk(t, sweep, None)
    case Counting(run, ids, sweep) =>
      SeenRunning(t, run) && ArtifactsOf(t, IdOf(run), ids) && SweepOk(t, sweep, Some(IdOf(run)))
    case Rescuing(run, ids, count, sweep) =>
      && SeenRunning(t, run) && ArtifactsOf(t, IdOf(run), ids) && SweepOk(t, sweep, Some(IdOf(run)))
      && count <= |Select(t, Observations, ByRun(IdOf(run)))|
  }

  /** The run whose procedure this executor conducts. */
  function Owner(pc: Pc): Option<Id> {
    if pc.Preparing? || pc.Unstarted? || pc.InProcedure? || pc.Diagnosing? || pc.Closing? then Some(IdOf(pc.run)) else None
  }

  ghost predicate TxOk(w: World) {
    w.tx.Some? ==>
      var Tx(i, job, done, work) := w.tx.value;
      && i < |w.pcs| && Allowed(w.pcs[i], job) && done <= |ScriptOf(w.pcs[i], job)|
      && PerformAll(w.tables, ScriptOf(w.pcs[i], job)[..done]) == Ok(work)
  }

  ghost predicate PcsOk(t: Tables, pcs: seq<Pc>) { FactsHold(t, pcs) && OwnersDiffer(pcs) }

  ghost predicate FactsHold(t: Tables, pcs: seq<Pc>) { forall i :: 0 <= i < |pcs| ==> PcOk(t, pcs[i]) }

  ghost predicate OwnersDiffer(pcs: seq<Pc>) {
    forall i, j :: 0 <= i < j < |pcs| && Owner(pcs[i]).Some? ==> Owner(pcs[i]) != Owner(pcs[j])
  }

  ghost predicate WorldOk(w: World) { LifecycleOk(w.tables) && TxOk(w) && PcsOk(w.tables, w.pcs) }

  // What a transaction leaves alone ------------------------------------------------------------------

  ghost predicate OnlyMoves(t: Tables, t': Tables, r: Option<Id>) {
    forall q :: RunIs(t, q) && Some(q) != r ==> q in t'.rows && t'.rows[q].payload == t.rows[q].payload
  }

  ghost predicate OnlyObserves(t: Tables, t': Tables, r: Option<Id>) {
    forall id :: id in t'.rows && id.ObservationId? && id !in t.rows ==> r == Some(id.run)
  }

  /** `t'` follows `t` by a commit that moved at most the run `moved` and observed at most for `seen`. */
  ghost predicate Follows(t: Tables, t': Tables, moved: Option<Id>, seen: Option<Id>) {
    LifecycleOk(t') && Grows(t, t') && OnlyMoves(t, t', moved) && OnlyObserves(t, t', seen)
  }

  lemma {:induction false} SeenIsStable(t: Tables, t': Tables, run: Entity)
    requires Grows(t, t') && SeenRunning(t, run)
    ensures SeenRunning(t', run)
  {
  }

  lemma {:induction false} AllSeenIsStable(t: Tables, t': Tables, todo: map<Id, Entity>)
    requires Grows(t, t') && AllSeen(t, todo)
    ensures AllSeen(t', todo)
  {
    forall id | id in todo ensures IdOf(todo[id]) == id && SeenRunning(t', todo[id]) {
      SeenIsStable(t, t', todo[id]);
    }
  }

  lemma {:induction false} SweepIsStable(t: Tables, t': Tables, sweep: Sweep, current: Option<Id>)
    requires Listed(t) && Grows(t, t') && SweepOk(t, sweep, current)
    ensures SweepOk(t', sweep, current)
  {
    AllSeenIsStable(t, t', sweep.todo);
    forall id | id in sweep.recovered ensures Recovered(t', id) {
      assert Recovered(t, id);
    }
  }

  lemma {:induction false} HeldIsStable(t: Tables, t': Tables, run: Entity, moved: Option<Id>, seen: Option<Id>)
    requires Follows(t, t', moved, seen) && HeldPending(t, run) && moved != Some(IdOf(run)) && seen != Some(IdOf(run))
    ensures HeldPending(t', run)
  {
  }

  /** Another executor's commit keeps everything this executor relies on. */
  lemma {:induction false} PcIsStable(t: Tables, t': Tables, pc: Pc, moved: Option<Id>, seen: Option<Id>)
    requires Sound(t) && Follows(t, t', moved, seen) && PcOk(t, pc)
    requires Owner(pc).Some? ==> Owner(pc) != seen
    requires pc.Preparing? || pc.Unstarted? ==> Owner(pc) != moved
    ensures PcOk(t', pc)
  {
    match pc
    case Idle =>
    case Creating(x, cfg, _, _) => ConfiguredIsStable(t, t', x, cfg);
    case Preparing(run, cfg, _) =>
      HeldIsStable(t, t', run, moved, seen);
      ConfiguredIsStable(t, t', run.experiment, cfg);
    case Unstarted(run) => HeldIsStable(t, t', run, moved, seen);
    case InProcedure(run, notes) => SeenIsStable(t, t', run); SyncIsStable(t, t', IdOf(run), notes);
    case Diagnosing(run, notes, _) => SeenIsStable(t, t', run); SyncIsStable(t, t', IdOf(run), notes);
    case Closing(run, notes, _) => SeenIsStable(t, t', run); SyncIsStable(t, t', IdOf(run), notes);
    case Scanning(sweep) => SweepIsStable(t, t', sweep, None);
    case Counting(run, _, sweep) => SeenIsStable(t, t', run); SweepIsStable(t, t', sweep, Some(IdOf(run)));
    case Rescuing(run, _, _, sweep) =>
      SeenIsStable(t, t', run);
      SweepIsStable(t, t', sweep, Some(IdOf(run)));
      CountsGrow(t, t', IdOf(run));
  }

  // What each transaction does -----------------------------------------------------------------------

  function Moved(pc: Pc, job: Job): Option<Id>
    requires Allowed(pc, job)
  {
    if job.Start? || job.GiveUp? || job.Close? || job.Rescue? then Some(IdOf(pc.run)) else None
  }

  function Observes(pc: Pc, job: Job): Option<Id>
    requires Allowed(pc, job)
  {
    if job.Observe? then Some(IdOf(pc.run)) else None
  }

  /** The promise of every transaction: the invariant, its footprint and the executor's next facts. */
  ghost predicate Done(t: Tables, pc: Pc, job: Job, t': Tables)
    requires Allowed(pc, job)
  {
    && Follows(t, t', Moved(pc, job), Observes(pc, job)) && PcOk(t', After(pc, job, t'))
    && (Owner(After(pc, job, t')).Some? && Owner(After(pc, job, t')) != Owner(pc) ==>
          Owner(After(pc, job, t')).value !in t.rows)
  }

  lemma {:induction false} FollowsTransitively(a: Tables, b: Tables, c: Tables)
    requires Follows(a, b, None, None) && Follows(b, c, None, None)
    ensures Follows(a, c, None, None)
  {
    GrowsTransitively(a, b, c);
    forall q | RunIs(a, q) ensures q in c.rows && c.rows[q].payload == a.rows[q].payload { assert RunIs(b, q); }
  }

  lemma {:induction false} AddFollows(t: Tables, e: Entity)
    requires LifecycleOk(t) && AddTo(t, e).Ok? && Bystander(e)
    ensures Follows(t, Insert(t, e), None, if e.Observation? then Some(e.run) else None)
  {
    RecordKeepsLifecycle(t, e);
  }

  lemma {:induction false} NoObservationsYet(t: Tables, r: Id)
    requires Sound(t) && r !in t.rows
    ensures forall id :: id in t.rows && id.ObservationId? ==> id.run != r
  {
    forall id | id in t.rows && id.ObservationId? ensures id.run != r {
      assert IdOf(t.rows[id].payload) == id;
      if id.run == r { RefResolves(t, id, r); }
    }
  }

  lemma {:induction false} CreateStepFollows(t: Tables, x: Id, env: Id, seed: nat, now: int)
    requires LifecycleOk(t) && Perform(t, CreateRun(x, env, seed, now)).Ok?
    ensures Follows(t, Perform(t, CreateRun(x, env, seed, now)).value, None, None)
  {
    CreateKeepsLifecycle(t, x, env, seed, now);
  }

  lemma {:induction false} EnvironmentFollows(t: Tables, env: Entity)
    requires LifecycleOk(t) && env.Other? && Perform(t, EnsureEnvironment(env)).Ok?
    ensures Follows(t, Perform(t, EnsureEnvironment(env)).value, None, None)
  {
    if IdOf(env) !in t.rows { AddFollows(t, env); }
  }

  /** The run just created is the last record, and nobody else knows it. */
  lemma {:induction false} CreatedRunIsHeld(t: Tables, x: Id, env: Id, seed: nat, now: int)
    requires LifecycleOk(t) && Perform(t, CreateRun(x, env, seed, now)).Ok?
    ensures var t' := Perform(t, CreateRun(x, env, seed, now)).value;
            && LastAdded(t').Some? && HeldPending(t', LastAdded(t').value)
            && LastAdded(t').value.experiment == x && LastAdded(t').value.seed == seed
            && IdOf(LastAdded(t').value) !in t.rows
  {
    NoObservationsYet(t, RunId(x, env, seed, NextAttempt(t, x, env, seed)));
  }

  lemma {:induction false} CreateDone(t: Tables, pc: Pc, job: Job)
    requires LifecycleOk(t) && PcOk(t, pc) && Allowed(pc, job) && job.Create? && PerformAll(t, ScriptOf(pc, job)).Ok?
    ensures Done(t, pc, job, PerformAll(t, ScriptOf(pc, job)).value)
  {
    var env, create := IdOf(job.env), CreateRun(pc.experiment, IdOf(job.env), pc.seed, job.now);
    TwoSteps(t, EnsureEnvironment(job.env), create);
    var t1 := Perform(t, EnsureEnvironment(job.env)).value;
    EnvironmentFollows(t, job.env);
    CreateStepFollows(t1, pc.experiment, env, pc.seed, job.now);
    CreatedRunIsHeld(t1, pc.experiment, env, pc.seed, job.now);
    FollowsTransitively(t, t1, Perform(t1, create).value);
    assert t.rows.Keys <= t1.rows.Keys;
    CreateDoneFrom(t, Perform(t1, create).value, pc, job);
  }

  lemma {:induction false} ConfiguredIsStable(t: Tables, t': Tables, x: Id, configuration: Id)
    requires Grows(t, t') && Configured(t, x, configuration)
    ensures Configured(t', x, configuration)
  {
  }

  lemma {:induction false} CreateDoneFrom(t: Tables, t': Tables, pc: Pc, job: Job)
    requires PcOk(t, pc) && Allowed(pc, job) && job.Create? && Follows(t, t', None, None)
    requires LastAdded(t').Some? && HeldPending(t', LastAdded(t').value) && LastAdded(t').value.experiment == pc.experiment
    requires IdOf(LastAdded(t').value) !in t.rows
    ensures Done(t, pc, job, t')
  {
    CreatePc(t, t', pc, job);
  }

  lemma {:induction false} CreatePc(t: Tables, t': Tables, pc: Pc, job: Job)
    requires PcOk(t, pc) && Allowed(pc, job) && job.Create? && Grows(t, t')
    requires LastAdded(t').Some? && HeldPending(t', LastAdded(t').value) && LastAdded(t').value.experiment == pc.experiment
    ensures PcOk(t', After(pc, job, t'))
  {
    ConfiguredIsStable(t, t', pc.experiment, pc.configuration);
  }

  lemma {:induction false} ObserveNext(t: Tables, t': Tables, pc: Pc, job: Job)
    requires PcOk(t, pc) && Allowed(pc, job) && job.Observe? && SeenRunning(t', pc.run)
    requires InSync(t', IdOf(pc.run), Observed(pc.notes, IdOf(pc.run), job.name))
    ensures PcOk(t', After(pc, job, t')) && Owner(After(pc, job, t')) == Owner(pc)
  {
  }

  lemma {:induction false} ObserveDone(t: Tables, pc: Pc, job: Job)
    requires LifecycleOk(t) && PcOk(t, pc) && Allowed(pc, job) && job.Observe?
    requires PerformAll(t, ScriptOf(pc, job)).Ok?
    ensures Done(t, pc, job, PerformAll(t, ScriptOf(pc, job)).value)
  {
    OneStep(t, ScriptOf(pc, job)[0]);
    var e := Observation(IdOf(pc.run), job.name, NextSequence(pc.notes, job.name), job.now, job.value);
    AddFollows(t, e);
    ObservePc(t, pc, job, e);
  }

  lemma {:induction false} ObservePc(t: Tables, pc: Pc, job: Job, e: Entity)
    requires Sound(t) && PcOk(t, pc) && Allowed(pc, job) && job.Observe? && AddTo(t, e).Ok?
    requires e == Observation(IdOf(pc.run), job.name, NextSequence(pc.notes, job.name), job.now, job.value)
    ensures PcOk(Insert(t, e), After(pc, job, Insert(t, e))) && Owner(After(pc, job, Insert(t, e))) == Owner(pc)
  {
    AddGrows(t, e);
    SeenIsStable(t, Insert(t, e), pc.run);
    ObserveKeepsSync(t, IdOf(pc.run), pc.notes, e);
    ObserveNext(t, Insert(t, e), pc, job);
  }

  lemma {:induction false} RegisterNext(t: Tables, t': Tables, pc: Pc, job: Job)
    requires PcOk(t, pc) && Allowed(pc, job) && job.Register? && SeenRunning(t', pc.run)
    requires InSync(t', IdOf(pc.run), Registered(pc.notes, ArtifactId(IdOf(pc.run), job.path, job.digest)))
    ensures PcOk(t', After(pc, job, t')) && Owner(After(pc, job, t')) == Owner(pc)
  {
  }

  lemma {:induction false} RegisterDone(t: Tables, pc: Pc, job: Job)
    requires LifecycleOk(t) && PcOk(t, pc) && Allowed(pc, job) && job.Register?
    requires PerformAll(t, ScriptOf(pc, job)).Ok?
    ensures Done(t, pc, job, PerformAll(t, ScriptOf(pc, job)).value)
  {
    OneStep(t, ScriptOf(pc, job)[0]);
    var e := Artifact(IdOf(pc.run), job.path, job.digest, job.now);
    var t' := Insert(t, e);
    assert Follows(t, t', None, None) by { AddFollows(t, e); }
    assert PcOk(t', After(pc, job, t')) && Owner(After(pc, job, t')) == Owner(pc) by {
      SeenIsStable(t, t', pc.run);
      RegisterKeepsSync(t, IdOf(pc.run), pc.notes, e);
      RegisterNext(t, t', pc, job);
    }
  }

  /** A pair of writes about a run moves that run and observes nothing. */
  lemma {:induction false} PairFollows(t: Tables, t': Tables, e: Entity, r: Id, s: RunStatus)
    requires RunIs(t, r) && AddedAndMoved(t, t', e, r, s) && !e.Observation? && !e.Run?
    ensures OnlyMoves(t, t', Some(r)) && OnlyObserves(t, t', None)
  {
  }

  lemma {:induction false} StartDone(t: Tables, pc: Pc, job: Job)
    requires LifecycleOk(t) && PcOk(t, pc) && Allowed(pc, job) && job.Start? && PerformAll(t, ScriptOf(pc, job)).Ok?
    ensures Done(t, pc, job, PerformAll(t, ScriptOf(pc, job)).value)
  {
    var p, r := ProvenanceOf(pc, job.startedAt, job.pid), IdOf(pc.run);
    var t' := PerformAll(t, Pair(p, pc.run, Running)).value;
    PairKeepsSound(t, p, pc.run, Running);
    PairEffect(t, p, pc.run, Running);
    StartKeepsLifecycle(t, t', p, r);
    PairFollows(t, t', p, r, Running);
    NothingInSync(t', r);
  }

  lemma {:induction false} OutcomeStage(t: Tables, pc: Pc, job: Job)
    requires LifecycleOk(t) && PcOk(t, pc) && Allowed(pc, job) && (job.GiveUp? || job.Close? || job.Rescue?)
    ensures RunIs(t, IdOf(pc.run)) && SameButStatus(t.rows[IdOf(pc.run)].payload, pc.run)
    ensures InPreparationError(OutcomeOf(pc, job)) <==> t.rows[IdOf(pc.run)].payload.status == Pending
  {
  }

  lemma {:induction false} CloseFollows(t: Tables, o: Entity, run: Entity)
    requires LifecycleOk(t) && o.Outcome? && run.Run? && o.run == IdOf(run)
    requires RunIs(t, IdOf(run)) && SameButStatus(t.rows[IdOf(run)].payload, run)
    requires InPreparationError(o) <==> t.rows[IdOf(run)].payload.status == Pending
    requires PerformAll(t, Pair(o, run, o.result)).Ok?
    ensures Follows(t, PerformAll(t, Pair(o, run, o.result)).value, Some(IdOf(run)), None)
    ensures AddedAndMoved(t, PerformAll(t, Pair(o, run, o.result)).value, o, IdOf(run), o.result)
  {
    var t' := PerformAll(t, Pair(o, run, o.result)).value;
    PairSucceedsIff(t, o, run, o.result);
    PairKeepsSound(t, o, run, o.result);
    PairEffect(t, o, run, o.result);
    CloseKeepsLifecycle(t, t', o, IdOf(run));
    PairFollows(t, t', o, IdOf(run), o.result);
  }

  lemma {:induction false} RescueNext(t: Tables, t': Tables, pc: Pc, job: Job)
    requires Listed(t) && Grows(t, t') && PcOk(t, pc) && Allowed(pc, job) && job.Rescue?
    requires RunIs(t, IdOf(pc.run)) && AddedAndMoved(t, t', OutcomeOf(pc, job), IdOf(pc.run), Failed)
    ensures PcOk(t', After(pc, job, t')) && Owner(After(pc, job, t')).None?
  {
    SweepIsStable(t, t', pc.sweep, Some(IdOf(pc.run)));
    RescuedIsRecovered(t, t', OutcomeOf(pc, job), IdOf(pc.run));
    RecoveredSweep(t', pc.sweep, IdOf(pc.run));
  }

  lemma {:induction false} RescuedIsRecovered(t: Tables, t': Tables, o: Entity, r: Id)
    requires RunIs(t, r) && AddedAndMoved(t, t', o, r, Failed) && o.Outcome? && o.run == r
    requires o.error.Some? && o.error.value.stage == Interrupted
    ensures Recovered(t', r)
  {
  }

  lemma {:induction false} RecoveredSweep(t: Tables, sweep: Sweep, r: Id)
    requires SweepOk(t, sweep, Some(r)) && Recovered(t, r)
    ensures SweepOk(t, sweep.(recovered := sweep.recovered + {r}), None)
  {
  }

  lemma {:induction false} CloseDone(t: Tables, pc: Pc, job: Job)
    requires LifecycleOk(t) && PcOk(t, pc) && Allowed(pc, job) && (job.GiveUp? || job.Close? || job.Rescue?)
    requires PerformAll(t, ScriptOf(pc, job)).Ok?
    ensures Done(t, pc, job, PerformAll(t, ScriptOf(pc, job)).value)
  {
    CloseScript(t, pc, job);
    ClosePc(t, PerformAll(t, ScriptOf(pc, job)).value, pc, job);
  }

  lemma {:induction false} CloseScript(t: Tables, pc: Pc, job: Job)
    requires LifecycleOk(t) && PcOk(t, pc) && Allowed(pc, job) && (job.GiveUp? || job.Close? || job.Rescue?)
    requires PerformAll(t, ScriptOf(pc, job)).Ok?
    ensures Follows(t, PerformAll(t, ScriptOf(pc, job)).value, Moved(pc, job), Observes(pc, job))
    ensures RunIs(t, IdOf(pc.run))
    ensures AddedAndMoved(t, PerformAll(t, ScriptOf(pc, job)).value, OutcomeOf(pc, job), IdOf(pc.run), OutcomeOf(pc, job).result)
  {
    OutcomeStage(t, pc, job);
    CloseFollows(t, OutcomeOf(pc, job), pc.run);
  }

  lemma {:induction false} ClosePc(t: Tables, t': Tables, pc: Pc, job: Job)
    requires Listed(t) && Grows(t, t') && PcOk(t, pc) && Allowed(pc, job) && (job.GiveUp? || job.Close? || job.Rescue?)
    requires RunIs(t, IdOf(pc.run)) && AddedAndMoved(t, t', OutcomeOf(pc, job), IdOf(pc.run), OutcomeOf(pc, job).result)
    ensures PcOk(t', After(pc, job, t')) && Owner(After(pc, job, t')).None?
  {
    if job.Rescue? { RescueNext(t, t', pc, job); }
  }

  lemma {:induction false} JobDone(t: Tables, pc: Pc, job: Job)
    requires LifecycleOk(t) && PcOk(t, pc) && Allowed(pc, job) && PerformAll(t, ScriptOf(pc, job)).Ok?
    ensures Done(t, pc, job, PerformAll(t, ScriptOf(pc, job)).value)
  {
    match job
    case Create(_, _) => CreateDone(t, pc, job);
    case Start(_, _) => StartDone(t, pc, job);
    case Observe(_, _, _) => ObserveDone(t, pc, job);
    case Register(_, _, _) => RegisterDone(t, pc, job);
    case _ => CloseDone(t, pc, job);
  }

  // Every step ---------------------------------------------------------------------------------------

  /** Nobody else owns a run this transaction moves, unless the run was already seen running. */
  lemma {:induction false} OthersUndisturbed(t: Tables, t': Tables, pc: Pc, job: Job, other: Pc)
    requires Sound(t) && Allowed(pc, job) && Done(t, pc, job, t') && PcOk(t, pc) && PcOk(t, other)
    requires Owner(pc).Some? ==> Owner(pc) != Owner(other)
    ensures PcOk(t', other)
  {
    PcIsStable(t, t', other, Moved(pc, job), Observes(pc, job));
  }

  lemma {:induction false} OwnedExists(t: Tables, pc: Pc)
    requires PcOk(t, pc) && Owner(pc).Some?
    ensures Owner(pc).value in t.rows
  {
  }

  lemma {:induction false} CommitKeepsFacts(t: Tables, t': Tables, pcs: seq<Pc>, k: nat, job: Job, i: nat)
    requires Sound(t) && PcsOk(t, pcs) && k < |pcs| && Allowed(pcs[k], job) && Done(t, pcs[k], job, t') && i < |pcs|
    ensures i != k ==> PcOk(t', pcs[i])
  {
    if i < k || k < i { OthersUndisturbed(t, t', pcs[k], job, pcs[i]); }
  }

  lemma {:induction false} CommitKeepsOwners(t: Tables, pcs: seq<Pc>, k: nat, pc: Pc)
    requires PcsOk(t, pcs) && k < |pcs|
    requires Owner(pc).Some? && Owner(pc) != Owner(pcs[k]) ==> Owner(pc).value !in t.rows
    ensures OwnersDiffer(pcs[k := pc])
  {
    forall i | 0 <= i < |pcs| && Owner(pcs[i]).Some? ensures Owner(pcs[i]).value in t.rows { OwnedExists(t, pcs[i]); }
  }

  lemma {:induction false} CommitKeepsPcs(t: Tables, t': Tables, pcs: seq<Pc>, k: nat, job: Job)
    requires Sound(t) && PcsOk(t, pcs) && k < |pcs| && Allowed(pcs[k], job) && Done(t, pcs[k], job, t')
    ensures PcsOk(t', pcs[k := After(pcs[k], job, t')])
  {
    CommitKeepsOwners(t, pcs, k, After(pcs[k], job, t'));
    CommitKeepsAllFacts(t, t', pcs, k, job);
  }

  lemma {:induction false} CommitKeepsAllFacts(t: Tables, t': Tables, pcs: seq<Pc>, k: nat, job: Job)
    requires Sound(t) && PcsOk(t, pcs) && k < |pcs| && Allowed(pcs[k], job) && Done(t, pcs[k], job, t')
    ensures FactsHold(t', pcs[k := After(pcs[k], job, t')])
  {
    forall i | 0 <= i < |pcs| && i != k ensures PcOk(t', pcs[i]) { CommitKeepsFacts(t, t', pcs, k, job, i); }
  }

  lemma {:induction false} CommitKeepsOk(w: World)
    requires WorldOk(w)
    ensures WorldOk(Committed(w)) && Grows(w.tables, Committed(w).tables)
  {
    if Committed(w) != w {
      var Tx(i, job, done, work) := w.tx.value;
      var script := ScriptOf(w.pcs[i], job);
      assert script[..done] == script;
      JobDone(w.tables, w.pcs[i], job);
      CommitKeepsPcs(w.tables, work, w.pcs, i, job);
    }
  }

  /** A local move: the executor's new place is justified by the same tables and owns no other run. */
  lemma {:induction false} LocalMove(t: Tables, pcs: seq<Pc>, k: nat, pc: Pc)
    requires PcsOk(t, pcs) && k < |pcs| && PcOk(t, pc) && (Owner(pc).None? || Owner(pc) == Owner(pcs[k]))
    ensures PcsOk(t, pcs[k := pc])
  {
  }

  lemma {:induction false} FailingIsOk(t: Tables, pc: Pc)
    requires PcOk(t, pc)
    ensures PcOk(t, Failing(pc)) && (Owner(Failing(pc)).None? || Owner(Failing(pc)) == Owner(pc))
    ensures pc.Preparing? || pc.InProcedure? || pc.Diagnosing? ==> Owner(Failing(pc)) == Owner(pc)
  {
  }

  lemma {:induction false} StepKeepsOk(w: World)
    requires WorldOk(w)
    ensures WorldOk(Stepped(w)) && Stepped(w).tables == w.tables
  {
    if Stepped(w) != w {
      var Tx(i, job, done, work) := w.tx.value;
      var script := ScriptOf(w.pcs[i], job);
      assert script[..done + 1][..done] == script[..done];
      FailingIsOk(w.tables, w.pcs[i]);
      LocalMove(w.tables, w.pcs, i, Failing(w.pcs[i]));
    }
  }

  lemma {:induction false} ReplayIsOk(t: Tables, o: Id)
    requires LifecycleOk(t)
    ensures PcOk(t, ReplayFrom(t, o)) && Owner(ReplayFrom(t, o)).None?
  {
    if ReplayFrom(t, o).Creating? {
      assert ProvenanceId(o) in t.rows;
    }
  }

  lemma {:induction false} RunningIsSeen(t: Tables, id: Id)
    requires LifecycleOk(t) && id in Select(t, Runs, ByStatus(Running))
    ensures IdOf(t.rows[id].payload) == id && SeenRunning(t, t.rows[id].payload)
  {
    var e := t.rows[id].payload;
    assert RunIs(t, id) && RunOk(t, id);
    assert "status" in ByStatus(Running) && "status" in ColumnsOf(e) && ColumnsOf(e)["status"] == ColumnValue(e, "status");
  }

  lemma {:induction false} ScanIsOk(t: Tables)
    requires LifecycleOk(t)
    ensures SweepOk(t, NewSweep(t), None)
  {
    forall id | id in Select(t, Runs, ByStatus(Running)) ensures IdOf(t.rows[id].payload) == id && SeenRunning(t, t.rows[id].payload) {
      RunningIsSeen(t, id);
    }
  }

  lemma {:induction false} SelectedArtifacts(t: Tables, run: Id)
    requires Sound(t)
    ensures ArtifactsOf(t, run, Select(t, Artifacts, ByRun(run)).Keys)
  {
    forall a | a in Select(t, Artifacts, ByRun(run)) ensures a.ArtifactId? && a.run == run {
      var e := t.rows[a].payload;
      assert IdOf(e) == a && "run_id" in ByRun(run) && ColumnsOf(e)["run_id"] == Some(IdCell(e.run));
    }
  }

  lemma {:induction false} LocalKeepsOk(w: World, k: nat, pc: Pc)
    requires WorldOk(w) && Free(w, k) && PcOk(w.tables, pc) && (Owner(pc).None? || Owner(pc) == Owner(w.pcs[k]))
    ensures WorldOk(At(w, k, pc))
  {
    LocalMove(w.tables, w.pcs, k, pc);
  }

  lemma {:induction false} AbandonKeepsOk(w: World, k: nat, pc: Pc)
    requires WorldOk(w) && k < |w.pcs| && PcOk(w.tables, pc) && (Owner(pc).None? || Owner(pc) == Owner(w.pcs[k]))
    ensures WorldOk(At(w, k, pc).(tx := Rollback(w, k)))
  {
    LocalMove(w.tables, w.pcs, k, pc);
  }

  // Other clients ------------------------------------------------------------------------------------

  lemma {:induction false} UpdateOkBeside(t: Tables, e: Entity, r: Id)
    requires Listed(t) && RunsOk(t) && UpdateStatus(t, e).Ok? && Outside(Update(e)) && RunIs(UpdateStatus(t, e).value, r)
    ensures RunOk(UpdateStatus(t, e).value, r)
  {
    assert RunIs(t, r) && RunOk(t, r);
  }

  lemma {:induction false} UpdateKeepsLifecycle(t: Tables, e: Entity)
    requires LifecycleOk(t) && UpdateStatus(t, e).Ok? && Outside(Update(e))
    ensures LifecycleOk(UpdateStatus(t, e).value) && Grows(t, UpdateStatus(t, e).value)
  {
    var t' := UpdateStatus(t, e).value;
    UpdateKeepsSound(t, e);
    forall r | RunIs(t', r) ensures RunOk(t', r) { UpdateOkBeside(t, e, r); }
    assert t'.rows.Keys == t.rows.Keys;
    assert RunsDense(t') by {
      forall x, env, seed: nat, n: nat, m: nat | RunId(x, env, seed, n) in t'.rows && m < n
        ensures RunId(x, env, seed, m) in t'.rows
      {
        assert RunId(x, env, seed, n) in t.rows;
      }
    }
  }

  lemma {:induction false} ClientFollows(t: Tables, op: Op)
    requires LifecycleOk(t) && Outside(op) && ApplyOp(t, op).Ok?
    ensures Follows(t, ApplyOp(t, op).value, None, None)
  {
    match op
    case Add(e) => AddFollows(t, e);
    case Update(e) => UpdateKeepsLifecycle(t, e);
  }

  lemma {:induction false} ClientKeepsOk(w: World, op: Op)
    requires WorldOk(w) && w.tx.None? && Outside(op) && ApplyOp(w.tables, op).Ok?
    ensures WorldOk(Next(w, Client(op))) && Grows(w.tables, Next(w, Client(op)).tables)
  {
    var t' := ApplyOp(w.tables, op).value;
    ClientFollows(w.tables, op);
    forall i | 0 <= i < |w.pcs| ensures PcOk(t', w.pcs[i]) { PcIsStable(w.tables, t', w.pcs[i], None, None); }
  }

  // Every trace ----------------------------------------------------------------------------------------

  lemma {:induction false} GrowsItself(t: Tables)
    ensures Grows(t, t)
  {
  }

  lemma {:induction false} ExaminedSweep(t: Tables, sweep: Sweep, id: Id)
    requires SweepOk(t, sweep, None) && id in sweep.todo
    ensures SweepOk(t, sweep.(todo := sweep.todo - {id}), Some(id))
    ensures SweepOk(t, sweep.(todo := sweep.todo - {id}, alive := sweep.alive + {id}), None)
  {
  }

  lemma {:induction false} ExamineIsOk(t: Tables, sweep: Sweep, id: Id, alive: bool)
    requires LifecycleOk(t) && SweepOk(t, sweep, None) && id in sweep.todo
    ensures PcOk(t, Examined(t, sweep, id, alive)) && Owner(Examined(t, sweep, id, alive)).None?
  {
    assert IdOf(sweep.todo[id]) == id && SeenRunning(t, sweep.todo[id]);
    assert ArtifactsOf(t, id, Select(t, Artifacts, ByRun(id)).Keys) by { SelectedArtifacts(t, id); }
    ExaminedSweep(t, sweep, id);
  }

  lemma {:induction false} CountKeepsOk(w: World, i: nat)
    requires WorldOk(w)
    ensures WorldOk(Next(w, Count(i)))
  {
    if Next(w, Count(i)) != w {
      assert PcOk(w.tables, w.pcs[i]);
      LocalKeepsOk(w, i, Next(w, Count(i)).pcs[i]);
    }
  }

  lemma {:induction false} RequestKeepsOk(w: World, a: Action)
    requires WorldOk(w) && (a.Execute? || a.Replay? || a.Return? || a.Raise?)
    ensures WorldOk(Next(w, a))
  {
    if Next(w, a) != w {
      if a.Replay? { ReplayIsOk(w.tables, a.original); }
      LocalKeepsOk(w, a.who, Next(w, a).pcs[a.who]);
    }
  }

  lemma {:induction false} SweepStepKeepsOk(w: World, a: Action)
    requires WorldOk(w) && (a.Scan? || a.Examine? || a.Count? || a.Rest?)
    ensures WorldOk(Next(w, a))
  {
    match a
    case Scan(i) =>
      if Free(w, i) && w.pcs[i].Idle? {
        ScanIsOk(w.tables);
        LocalKeepsOk(w, i, Scanning(NewSweep(w.tables)));
      }
    case Examine(i, id, alive) =>
      if Free(w, i) && w.pcs[i].Scanning? && id in w.pcs[i].sweep.todo {
        assert PcOk(w.tables, w.pcs[i]);
        ExamineIsOk(w.tables, w.pcs[i].sweep, id, alive);
        LocalKeepsOk(w, i, Examined(w.tables, w.pcs[i].sweep, id, alive));
      }
    case Count(i) => CountKeepsOk(w, i);
    case Rest(i) => if Free(w, i) && w.pcs[i].Scanning? { LocalKeepsOk(w, i, Idle); }
  }

  lemma {:induction false} TxStepKeepsOk(w: World, a: Action)
    requires WorldOk(w) && (a.Begin? || a.Step? || a.Fail? || a.Crash?)
    ensures WorldOk(Next(w, a)) && Next(w, a).tables == w.tables
  {
    match a
    case Begin(i, job) =>
    case Step => StepKeepsOk(w);
    case Fail(i) =>
      if i < |w.pcs| {
        FailingIsOk(w.tables, w.pcs[i]);
        AbandonKeepsOk(w, i, Failing(w.pcs[i]));
      }
    case Crash(i) => if i < |w.pcs| { AbandonKeepsOk(w, i, Idle); }
  }

  /** Every step of every executor keeps the invariant, and the committed tables only grow. */
  lemma {:induction false} NextKeepsOk(w: World, a: Action)
    requires WorldOk(w)
    ensures WorldOk(Next(w, a)) && Grows(w.tables, Next(w, a).tables)
  {
    GrowsItself(w.tables);
    if a.Client? {
      if w.tx.None? && Outside(a.op) && ApplyOp(w.tables, a.op).Ok? { ClientKeepsOk(w, a.op); }
    } else if a.Commit? {
      CommitKeepsOk(w);
    } else if a.Begin? || a.Step? || a.Fail? || a.Crash? {
      TxStepKeepsOk(w, a);
    } else if a.Execute? || a.Replay? || a.Return? || a.Raise? {
      RequestKeepsOk(w, a);
    } else {
      SweepStepKeepsOk(w, a);
    }
  }

  /** A registry nobody has written to and `n` executors at rest. */
  function Initial(n: nat): World { World(EMPTY, None, seq(n, _ => Idle)) }

  lemma {:induction false} InitialIsOk(n: nat)
    ensures WorldOk(Initial(n))
  {
  }

  lemma {:induction false} TraceKeepsOk(w: World, actions: seq<Action>)
    requires WorldOk(w)
    ensures WorldOk(Trace(w, actions)) && Grows(w.tables, Trace(w, actions).tables)
  {
    if actions == [] {
      GrowsItself(w.tables);
    } else {
      var before := Trace(w, actions[..|actions| - 1]);
      TraceKeepsOk(w, actions[..|actions| - 1]);
      NextKeepsOk(before, actions[|actions| - 1]);
      GrowsTransitively(w.tables, before.tables, Trace(w, actions).tables);
    }
  }
}
