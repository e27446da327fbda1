/** What follows for whoever reads the registry or runs an executor. */
module ExecutorGuarantees {
  import opened Common
  import opened Domain
  import opened Store
  import opened RegistryLaws
  import opened Lifecycle
  import opened LifecycleSteps
  import opened Recording
  import opened Executors
  import opened ExecutorSafety

  /** Any number of executors, any interleaving, failure or crash: every committed state is correct. */
  lemma {:induction false} EveryCommittedStateIsOk(n: nat, actions: seq<Action>)
    ensures LifecycleOk(Trace(Initial(n), actions).tables)
  {
    InitialIsOk(n);
    TraceKeepsOk(Initial(n), actions);
  }

  /** For every experiment, environment and seed the attempts are exactly 0, 1, … k - 1. */
  lemma {:induction false} AttemptsHaveNoGaps(n: nat, actions: seq<Action>, x: Id, env: Id, seed: nat) returns (k: nat)
    ensures forall m: nat :: RunId(x, env, seed, m) in Trace(Initial(n), actions).tables.rows <==> m < k
  {
    EveryCommittedStateIsOk(n, actions);
    AttemptsAreDense(Trace(Initial(n), actions).tables, x, env, seed);
    k := NextAttempt(Trace(Initial(n), actions).tables, x, env, seed);
  }

  // Earlier runs are never changed --------------------------------------------------------------------

  /** The run keeps its record, its outcome and its provenance, or the absence of provenance. */
  ghost predicate Final(t: Tables, t': Tables, r: Id)
    requires RunIs(t, r)
  {
    && RunIs(t', r) && t'.rows[r].payload == t.rows[r].payload
    && RecordKept(t, t', ProvenanceId(r)) && RecordKept(t, t', OutcomeId(r))
    && (Has(t', ProvenanceId(r)) ==> Has(t, ProvenanceId(r)))
  }

  lemma {:induction false} FinishedRunsAreFinal(w: World, actions: seq<Action>, r: Id)
    requires WorldOk(w) && RunIs(w.tables, r) && Finished(w.tables.rows[r].payload.status)
    ensures Final(w.tables, Trace(w, actions).tables, r)
  {
    TraceKeepsOk(w, actions);
    FinalUnderGrowth(w.tables, Trace(w, actions).tables, r);
  }

  lemma {:induction false} FinalUnderGrowth(t: Tables, t': Tables, r: Id)
    requires LifecycleOk(t) && LifecycleOk(t') && Grows(t, t') && RunIs(t, r) && Finished(t.rows[r].payload.status)
    ensures Final(t, t', r)
  {
    assert RunOk(t, r) && RunOk(t', r);
    assert RecordKept(t, t', ProvenanceId(r)) && RecordKept(t, t', OutcomeId(r)) by {
      NotAStatusRecord(t, t', ProvenanceId(r));
      NotAStatusRecord(t, t', OutcomeId(r));
    }
  }

  ghost predicate RecordKept(t: Tables, t': Tables, id: Id) {
    Has(t, id) ==> Has(t', id) && t'.rows[id].payload == t.rows[id].payload
  }

  lemma {:induction false} NotAStatusRecord(t: Tables, t': Tables, id: Id)
    requires Listed(t) && Grows(t, t') && (id.ProvenanceId? || id.OutcomeId?)
    ensures RecordKept(t, t', id)
  {
    if Has(t, id) { assert IdOf(t.rows[id].payload) == id; }
  }

  // Which transactions can be refused --------------------------------------------------------------------

  lemma {:induction false} OnlyProvenance(t: Tables, r: Id)
    requires Sound(t)
    ensures Has(t, ProvenanceId(r)) <==> |Select(t, Provenances, ByRun(r))| != 0
  {
    var found := Select(t, Provenances, ByRun(r));
    forall id | id in t.rows ensures id in found <==> id == ProvenanceId(r) { ProvenanceRow(t, id, r); }
    if |found| != 0 { var id :| id in found; }
  }

  lemma {:induction false} ProvenanceRow(t: Tables, id: Id, r: Id)
    requires Listed(t) && InStep(t) && id in t.rows
    ensures id in Select(t, Provenances, ByRun(r)) <==> id == ProvenanceId(r)
  {
    var e := t.rows[id].payload;
    assert IdOf(e) == id;
    if e.Provenance? {
      assert "run_id" in ColumnsOf(e) && ColumnsOf(e)["run_id"] == Some(IdCell(e.run));
      assert Matches(ColumnsOf(e), ByRun(r)) <==> e.run == r;
    }
  }

  lemma {:induction false} OutcomeIsNew(t: Tables, o: Entity)
    requires LifecycleOk(t) && o.Outcome? && WellFormed(o) && RunIs(t, o.run) && ArtifactsOf(t, o.run, o.artifactIds)
    ensures Refs(o) <= t.rows.Keys
    ensures RunMove(t.rows[o.run].payload.status, o.result) ==> IdOf(o) !in t.rows
  {
    assert RunOk(t, o.run);
  }

  lemma {:induction false} OutcomeCheckedIff(t: Tables, o: Entity)
    requires LifecycleOk(t) && o.Outcome? && RunIs(t, o.run) && ArtifactsOf(t, o.run, o.artifactIds)
    ensures CheckOutcome(t, o).None? <==>
            RunMove(t.rows[o.run].payload.status, o.result) && |Select(t, Observations, ByRun(o.run))| == o.observationCount
  {
    ArtifactRecords(t, o.artifactIds, o.run);
    assert RunOk(t, o.run);
    OnlyProvenance(t, o.run);
    OutcomeChecked(t, o);
  }

  lemma {:induction false} OutcomeChecked(t: Tables, o: Entity)
    requires o.Outcome? && RunIs(t, o.run)
    requires forall a :: a in o.artifactIds ==> a in t.rows && t.rows[a].payload.Artifact? && t.rows[a].payload.run == o.run
    requires t.rows[o.run].payload.status == Running ==> |Select(t, Provenances, ByRun(o.run))| != 0
    ensures CheckOutcome(t, o).None? <==>
            RunMove(t.rows[o.run].payload.status, o.result) && |Select(t, Observations, ByRun(o.run))| == o.observationCount
  {
  }

  lemma {:induction false} ArtifactRecords(t: Tables, ids: set<Id>, r: Id)
    requires Listed(t)
    ensures ArtifactsOf(t, r, ids) <==> forall a :: a in ids ==> a in t.rows && t.rows[a].payload.Artifact? && t.rows[a].payload.run == r
  {
    forall a | a in ids && a in t.rows
      ensures (a.ArtifactId? && a.run == r) <==> t.rows[a].payload.Artifact? && t.rows[a].payload.run == r
    {
      assert IdOf(t.rows[a].payload) == a;
    }
  }

  lemma {:induction false} AdmittedOutcomeOwnsArtifacts(t: Tables, o: Entity)
    requires Listed(t) && o.Outcome? && AddTo(t, o).Ok?
    ensures WellFormed(o) && RunIs(t, o.run) && ArtifactsOf(t, o.run, o.artifactIds)
  {
    assert CheckOutcome(t, o).None?;
    ArtifactRecords(t, o.artifactIds, o.run);
  }

  lemma {:induction false} OutcomeFitsIff(t: Tables, o: Entity)
    requires LifecycleOk(t) && o.Outcome? && WellFormed(o) && RunIs(t, o.run) && ArtifactsOf(t, o.run, o.artifactIds)
    ensures AddTo(t, o).Ok? <==>
            RunMove(t.rows[o.run].payload.status, o.result) && |Select(t, Observations, ByRun(o.run))| == o.observationCount
  {
    OutcomeIsNew(t, o);
    OutcomeCheckedIff(t, o);
  }

  /** An outcome is admitted exactly when its artifacts are its run's, the run can still take its status
      and the observation count is right: that it is the first one, and that a running run has
      provenance, follows from the lifecycle. */
  lemma {:induction false} OutcomeAdmittedIff(t: Tables, o: Entity)
    requires LifecycleOk(t) && o.Outcome?
    ensures AddTo(t, o).Ok? <==>
            && WellFormed(o) && RunIs(t, o.run) && ArtifactsOf(t, o.run, o.artifactIds)
            && RunMove(t.rows[o.run].payload.status, o.result)
            && |Select(t, Observations, ByRun(o.run))| == o.observationCount
  {
    if AddTo(t, o).Ok? { AdmittedOutcomeOwnsArtifacts(t, o); }
    if WellFormed(o) && RunIs(t, o.run) && ArtifactsOf(t, o.run, o.artifactIds) { OutcomeFitsIff(t, o); }
  }

  /** Provenance is admitted exactly for a PENDING run whose experiment, environment, seed and
      configuration it repeats, as a replay of nothing or of a run of the same experiment. */
  lemma {:induction false} ProvenanceAdmittedIff(t: Tables, p: Entity)
    requires LifecycleOk(t) && p.Provenance?
    ensures AddTo(t, p).Ok? <==> WellFormed(p) && ProvenanceFits(t, p)
  {
    if ProvenanceFits(t, p) {
      RefResolves(t, p.run, p.environment);
      RefResolves(t, p.experiment, p.configuration);
      assert RunOk(t, p.run);
      FittingProvenance(t, p);
    }
  }

  ghost predicate ProvenanceFits(t: Tables, p: Entity)
    requires p.Provenance?
  {
    && RunIs(t, p.run) && Repeats(t, p) && t.rows[p.run].payload.status == Pending
    && (p.replayOf.Some? ==> SameExperiment(t, p.run, p.replayOf.value))
  }

  lemma {:induction false} FittingProvenance(t: Tables, p: Entity)
    requires p.Provenance? && ProvenanceFits(t, p) && p.environment in t.rows && p.configuration in t.rows
    requires !Has(t, ProvenanceId(p.run))
    ensures AddTo(t, p).Ok? <==> WellFormed(p)
  {
    assert Refs(p) <= t.rows.Keys;
    assert CheckProvenance(t, p).None?;
  }

  ghost predicate Repeats(t: Tables, p: Entity)
    requires p.Provenance? && RunIs(t, p.run)
  {
    var run := t.rows[p.run].payload;
    run.experiment == p.experiment && run.environment == p.environment && run.seed == p.seed
    && Configured(t, p.experiment, p.configuration)
  }

  /** A finalizer is refused exactly when recovery has closed its run first. */
  lemma {:induction false} FinalizerRefusedIff(t: Tables, pc: Pc, now: int)
    requires LifecycleOk(t) && PcOk(t, pc) && pc.Closing?
    ensures PerformAll(t, ScriptOf(pc, Close(now))).Ok? <==> t.rows[IdOf(pc.run)].payload.status == Running
  {
    var o := OutcomeOf(pc, Close(now));
    PairSucceedsIff(t, o, pc.run, o.result);
    OutcomeFitsIff(t, o);
    CountsAgree(t, IdOf(pc.run), pc.notes);
  }

  /** Counting takes the run's present number of observations. */
  lemma {:induction false} CountIsTaken(w: World, i: nat)
    requires Free(w, i) && w.pcs[i].Counting?
    ensures Next(w, Count(i)).pcs[i].Rescuing? && Next(w, Count(i)).pcs[i].run == w.pcs[i].run
    ensures Next(w, Count(i)).pcs[i].count == |Select(w.tables, Observations, ByRun(IdOf(w.pcs[i].run)))|
  {
  }

  /** Closing the run, after its observations were counted at `t0`, is refused exactly if it was closed or
      observed for since. */
  ghost predicate RefusedSince(t0: Tables, t: Tables, pc: Pc, now: int) {
    && Allowed(pc, Rescue(now)) && RunIs(t, IdOf(pc.run))
    && (PerformAll(t, ScriptOf(pc, Rescue(now))).Err? <==>
         t.rows[IdOf(pc.run)].payload.status != Running || ObservedSince(t0, t, IdOf(pc.run)))
  }

  /** Recovery, having counted at `t0`, is refused exactly when the run was closed or an observation was
      added since. */
  lemma {:induction false} RecoveryRefusedIff(t0: Tables, t: Tables, pc: Pc, now: int)
    requires LifecycleOk(t) && PcOk(t, pc) && pc.Rescuing? && Sound(t0) && Grows(t0, t)
    requires pc.count == |Select(t0, Observations, ByRun(IdOf(pc.run)))|
    ensures RefusedSince(t0, t, pc, now)
  {
    var o := OutcomeOf(pc, Rescue(now));
    PairSucceedsIff(t, o, pc.run, o.result);
    OutcomeFitsIff(t, o);
    CountsGrow(t0, t, IdOf(pc.run));
  }

  lemma {:induction false} NoObservations(t: Tables, r: Id)
    requires Sound(t) && forall id :: id in t.rows && id.ObservationId? ==> id.run != r
    ensures |Select(t, Observations, ByRun(r))| == 0
  {
    NothingInSync(t, r);
    CountsAgree(t, r, NOTHING);
  }

  /** The failure of a run that never started can always be recorded. */
  lemma {:induction false} GivingUpSucceeds(t: Tables, pc: Pc, now: int, errorType: string)
    requires LifecycleOk(t) && PcOk(t, pc) && pc.Unstarted?
    ensures PerformAll(t, ScriptOf(pc, GiveUp(now, errorType))).Ok?
  {
    var o := OutcomeOf(pc, GiveUp(now, errorType));
    PairSucceedsIff(t, o, pc.run, o.result);
    NoObservations(t, IdOf(pc.run));
    OutcomeFitsIff(t, o);
  }

  /** What a run may be recorded as a replay of: another run of its experiment. */
  ghost predicate ReplayAdmissible(t: Tables, r: Id, replayOf: Option<Id>) {
    replayOf.Some? ==> replayOf.value != r && SameExperiment(t, r, replayOf.value)
  }

  /** A start is refused exactly for a replay of itself, of nothing known or across experiments. */
  lemma {:induction false} StartAdmittedIff(t: Tables, pc: Pc, startedAt: int, pid: Option<int>)
    requires LifecycleOk(t) && PcOk(t, pc) && pc.Preparing?
    ensures PerformAll(t, ScriptOf(pc, Start(startedAt, pid))).Ok? <==> ReplayAdmissible(t, IdOf(pc.run), pc.replayOf)
  {
    var p := ProvenanceOf(pc, startedAt, pid);
    PairSucceedsIff(t, p, pc.run, Running);
    ProvenanceAdmittedIff(t, p);
    StartsProperly(t, pc, p);
  }

  lemma {:induction false} StartsProperly(t: Tables, pc: Pc, p: Entity)
    requires Sound(t) && PcOk(t, pc) && pc.Preparing? && p.Provenance?
    requires p == ProvenanceOf(pc, p.startedAt, p.pid)
    ensures WellFormed(p) <==> pc.replayOf.Some? ==> pc.replayOf.value.RunId? && pc.replayOf.value != IdOf(pc.run)
    ensures pc.replayOf.Some? && RunIs(t, pc.replayOf.value) ==> pc.replayOf.value.RunId?
  {
    var x := t.rows[pc.run.experiment].payload;
    assert WellFormed(t.rows[IdOf(pc.run)].payload) && WellFormed(x);
    if pc.replayOf.Some? && RunIs(t, pc.replayOf.value) {
      assert IdOf(t.rows[pc.replayOf.value].payload) == pc.replayOf.value;
    }
  }
}
