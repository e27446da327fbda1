/** Which records and status changes the registry admits, in the records' own fields, and what it then holds. */
module Admission {
  import opened Common
  import opened Domain
  import opened Store
  import opened RegistryLaws
  import opened Recording

  // What is written ---------------------------------------------------------------------------------------

  /** One more row, under the record's identity, and nothing else. */
  ghost predicate Added(t: Tables, e: Entity, t': Tables) {
    && t'.order == t.order + [IdOf(e)] && t'.rows.Keys == t.rows.Keys + {IdOf(e)}
    && t'.rows[IdOf(e)].payload == e
    && forall id :: id in t.rows ==> t'.rows[id] == t.rows[id]
  }

  /** One row holds the new version of its record, and nothing else changed. */
  ghost predicate Updated(t: Tables, e: Entity, t': Tables) {
    && t'.order == t.order && t'.rows.Keys == t.rows.Keys && IdOf(e) in t.rows
    && t'.rows[IdOf(e)].payload == e
    && forall id :: id in t.rows && id != IdOf(e) ==> t'.rows[id] == t.rows[id]
  }

  lemma {:induction false} AddWritesOne(t: Tables, e: Entity)
    requires AddTo(t, e).Ok?
    ensures IdOf(e) !in t.rows && Added(t, e, AddTo(t, e).value)
  {
  }

  lemma {:induction false} UpdateWritesOne(t: Tables, e: Entity)
    requires UpdateStatus(t, e).Ok?
    ensures Updated(t, e, UpdateStatus(t, e).value)
  {
  }

  /** When two records are one and the same to the registry: what identifies them does not include their
      status or the times they were made at. */
  ghost predicate SameRecord(a: Entity, b: Entity) {
    match (a, b)
    case (Experiment(k, _, _, _, _), Experiment(k', _, _, _, _)) => k == k'
    case (Run(x, env, seed, _, n, _), Run(x', env', seed', _, n', _)) => x == x' && env == env' && seed == seed' && n == n'
    case (Provenance(r, _, _, _, _, _, _, _), Provenance(r', _, _, _, _, _, _, _)) => r == r'
    case (Outcome(r, _, _, _, _, _), Outcome(r', _, _, _, _, _)) => r == r'
    case (Observation(r, name, n, _, _), Observation(r', name', n', _, _)) => r == r' && name == name' && n == n'
    case (Artifact(r, path, digest, _), Artifact(r', path', digest', _)) => r == r' && path == path' && digest == digest'
    case (ScheduleUnit(k, _, _, _), ScheduleUnit(k', _, _, _)) => k == k'
    case (ScheduleRun(k, _, _, _), ScheduleRun(k', _, _, _)) => k == k'
    case (Attempt(u, _, n, _, _), Attempt(u', _, n', _, _)) => u == u' && n == n'
    case (Other(kind, k, _), Other(kind', k', _)) => kind == kind' && k == k'
    case _ => false
  }

  lemma {:induction false} IdentityIff(a: Entity, b: Entity)
    ensures IdOf(a) == IdOf(b) <==> SameRecord(a, b)
  {
  }

  // What is mentioned --------------------------------------------------------------------------------------

  ghost predicate StoredOther(t: Tables, id: Id, kind: string) {
    id in t.rows && t.rows[id].payload.Other? && t.rows[id].payload.kind == kind
  }

  ghost predicate StoredExperiment(t: Tables, id: Id) { id in t.rows && t.rows[id].payload.Experiment? }

  ghost predicate StoredArtifact(t: Tables, id: Id) { id in t.rows && t.rows[id].payload.Artifact? }

  ghost predicate StoredUnit(t: Tables, id: Id) { id in t.rows && t.rows[id].payload.ScheduleUnit? }

  ghost predicate StoredScheduleRun(t: Tables, id: Id) { id in t.rows && t.rows[id].payload.ScheduleRun? }

  /** Everything the record mentions is stored, as a record of the kind its column refers to. */
  ghost predicate Resolves(t: Tables, e: Entity) {
    match e
    case Experiment(_, investigation, configuration, _, _) =>
      StoredOther(t, investigation, "investigation") && StoredOther(t, configuration, "configuration")
    case Run(x, env, _, _, _, _) => StoredExperiment(t, x) && StoredOther(t, env, "environment")
    case Provenance(run, x, env, configuration, _, _, _, replayOf) =>
      && RunIs(t, run) && StoredExperiment(t, x) && StoredOther(t, env, "environment")
      && StoredOther(t, configuration, "configuration") && (replayOf.Some? ==> RunIs(t, replayOf.value))
    case Outcome(run, _, _, _, artifacts, _) => RunIs(t, run) && forall a :: a in artifacts ==> StoredArtifact(t, a)
    case Observation(run, _, _, _, _) => RunIs(t, run)
    case Artifact(run, _, _, _) => RunIs(t, run)
    case ScheduleUnit(_, schedule, dependsOn, _) =>
      StoredOther(t, schedule, "schedule") && forall d :: d in dependsOn ==> StoredUnit(t, d)
    case ScheduleRun(_, schedule, investigation, _) =>
      StoredOther(t, schedule, "schedule") && StoredOther(t, investigation, "investigation")
    case Attempt(unit, scheduleRun, _, executed, _) =>
      StoredUnit(t, unit) && StoredScheduleRun(t, scheduleRun) && (executed.Some? ==> RunIs(t, executed.value))
    case Other(_, _, refs) => forall r :: r in refs ==> r in t.rows
  }

  lemma {:induction false} KindOfId(t: Tables, id: Id)
    requires Sound(t) && id in t.rows
    ensures id.ExperimentId? <==> StoredExperiment(t, id)
    ensures id.RunId? <==> RunIs(t, id)
    ensures id.ArtifactId? <==> StoredArtifact(t, id)
    ensures id.UnitId? <==> StoredUnit(t, id)
    ensures id.ScheduleRunId? <==> StoredScheduleRun(t, id)
    ensures forall kind :: Names(id, kind) <==> StoredOther(t, id, kind)
  {
    assert IdOf(t.rows[id].payload) == id;
  }

  lemma {:induction false} ResolvesIff(t: Tables, e: Entity)
    requires Sound(t)
    ensures Resolves(t, e) <==> RefersProperly(e) && Refs(e) <= t.rows.Keys
  {
    forall id | id in t.rows
      ensures id.ExperimentId? <==> StoredExperiment(t, id)
      ensures id.RunId? <==> RunIs(t, id)
      ensures id.ArtifactId? <==> StoredArtifact(t, id)
      ensures id.UnitId? <==> StoredUnit(t, id)
      ensures id.ScheduleRunId? <==> StoredScheduleRun(t, id)
      ensures forall kind :: Names(id, kind) <==> StoredOther(t, id, kind)
    {
      KindOfId(t, id);
    }
    match e
    case Outcome(_, _, _, _, _, _) => OutcomeResolvesIff(t, e);
    case ScheduleUnit(_, _, _, _) => UnitResolvesIff(t, e);
    case _ =>
  }

  lemma {:induction false} OutcomeResolvesIff(t: Tables, o: Entity)
    requires Sound(t) && o.Outcome?
    ensures Resolves(t, o) <==> RefersProperly(o) && Refs(o) <= t.rows.Keys
  {
    if o.run in t.rows { KindOfId(t, o.run); }
    forall a | a in o.artifactIds && a in t.rows ensures a.ArtifactId? <==> StoredArtifact(t, a) { KindOfId(t, a); }
  }

  lemma {:induction false} UnitResolvesIff(t: Tables, u: Entity)
    requires Sound(t) && u.ScheduleUnit?
    ensures Resolves(t, u) <==> RefersProperly(u) && Refs(u) <= t.rows.Keys
  {
    if u.schedule in t.rows { KindOfId(t, u.schedule); }
    forall d | d in u.dependsOn && d in t.rows ensures d.UnitId? <==> StoredUnit(t, d) { KindOfId(t, d); }
  }

  // What is required besides -------------------------------------------------------------------------------

  ghost function ObservationsOf(t: Tables, run: Id): set<Id> { set id | id in t.rows && id.ObservationId? && id.run == run }

  /** Provenance repeats what its PENDING run was created for and replays at most another run of its experiment. */
  ghost predicate ProvenanceFitting(t: Tables, p: Entity)
    requires p.Provenance? && Resolves(t, p)
  {
    var run := t.rows[p.run].payload;
    && run.status == Pending && run.experiment == p.experiment && run.environment == p.environment && run.seed == p.seed
    && t.rows[p.experiment].payload.configuration == p.configuration
    && (p.replayOf.Some? ==> p.replayOf.value != p.run && t.rows[p.replayOf.value].payload.experiment == p.experiment)
  }

  /** An outcome closes a RUNNING run that has provenance, or fails a PENDING one; it states an error exactly if
      it is FAILED, counts the run's observations and lists only its artifacts. */
  ghost predicate OutcomeFitting(t: Tables, o: Entity)
    requires o.Outcome? && Resolves(t, o)
  {
    var status := t.rows[o.run].payload.status;
    && (o.result == Completed || o.result == Failed) && (o.error.None? <==> o.result == Completed)
    && (status == Running || (status == Pending && o.result == Failed))
    && (status == Running ==> ProvenanceId(o.run) in t.rows)
    && (forall a :: a in o.artifactIds ==> t.rows[a].payload.run == o.run)
    && (o.error.Some? && o.error.value.diagnostic.Some? ==> o.error.value.diagnostic.value in o.artifactIds)
    && o.observationCount == |ObservationsOf(t, o.run)|
  }

  /** An execution attempt has the next number of its unit and ended, within one schedule. */
  ghost predicate AttemptFitting(t: Tables, a: Entity)
    requires a.Attempt? && Resolves(t, a)
  {
    && (a.ended == Succeeded || a.ended == UnitFailed || a.ended == TimedOut || a.ended == UnitCancelled)
    && t.rows[a.unit].payload.schedule == t.rows[a.scheduleRun].payload.schedule
    && forall n: nat :: AttemptId(a.unit, n) in t.rows <==> n < a.attempt
  }

  ghost predicate Fitting(t: Tables, e: Entity)
    requires Resolves(t, e)
  {
    match e
    case Provenance(_, _, _, _, _, _, _, _) => ProvenanceFitting(t, e)
    case Outcome(_, _, _, _, _, _) => OutcomeFitting(t, e)
    case Attempt(_, _, _, _, _) => AttemptFitting(t, e)
    case _ => true
  }

  lemma {:induction false} ObservationsCounted(t: Tables, run: Id)
    requires Sound(t)
    ensures |Select(t, Observations, ByRun(run))| == |ObservationsOf(t, run)|
  {
    var found := Select(t, Observations, ByRun(run));
    forall id | id in t.rows ensures id in found <==> id.ObservationId? && id.run == run { ObservationRow(t, id, run); }
    assert found.Keys == ObservationsOf(t, run);
    assert |found| == |found.Keys|;
  }

  lemma {:induction false} ProvenanceCounted(t: Tables, run: Id)
    requires Sound(t)
    ensures |Select(t, Provenances, ByRun(run))| != 0 <==> ProvenanceId(run) in t.rows
  {
    var found := Select(t, Provenances, ByRun(run));
    forall id | id in t.rows ensures id in found <==> id == ProvenanceId(run) { ProvenanceAt(t, id, run); }
    if |found| != 0 { var id :| id in found; }
  }

  lemma {:induction false} ProvenanceAt(t: Tables, id: Id, run: Id)
    requires Sound(t) && id in t.rows
    ensures id in Select(t, Provenances, ByRun(run)) <==> id == ProvenanceId(run)
  {
    var e := t.rows[id].payload;
    assert IdOf(e) == id;
    if e.Provenance? {
      assert "run_id" in ColumnsOf(e) && ColumnsOf(e)["run_id"] == Some(IdCell(e.run));
      assert Matches(ColumnsOf(e), ByRun(run)) <==> e.run == run;
    }
  }

  lemma {:induction false} ProvenanceCheckedIff(t: Tables, p: Entity)
    requires Sound(t) && p.Provenance? && Resolves(t, p)
    ensures Consistent(p) && CheckProvenance(t, p).None? <==> ProvenanceFitting(t, p)
  {
    var run := t.rows[p.run].payload;
    if run.experiment == p.experiment { assert StoredExperiment(t, run.experiment); }
  }

  lemma {:induction false} OutcomeCheckedIff(t: Tables, o: Entity)
    requires Sound(t) && o.Outcome? && Resolves(t, o)
    ensures Consistent(o) && CheckOutcome(t, o).None? <==> OutcomeFitting(t, o)
  {
    ObservationsCounted(t, o.run);
    ProvenanceCounted(t, o.run);
    OutcomeFits(t, o, |ObservationsOf(t, o.run)|, ProvenanceId(o.run) in t.rows);
    OutcomeChecks(t, o, |Select(t, Observations, ByRun(o.run))|, |Select(t, Provenances, ByRun(o.run))| != 0);
  }

  ghost predicate OutcomeResolves(t: Tables, o: Entity)
    requires o.Outcome?
  {
    RunIs(t, o.run) && forall a :: a in o.artifactIds ==> StoredArtifact(t, a)
  }

  ghost predicate OwnArtifacts(t: Tables, o: Entity)
    requires o.Outcome? && OutcomeResolves(t, o)
  {
    forall a :: a in o.artifactIds ==> t.rows[a].payload.run == o.run
  }

  /** What is checked of an outcome, given how many observations its run has and whether it has provenance. */
  ghost predicate OutcomeChecked(status: RunStatus, o: Entity, observed: nat, started: bool)
    requires o.Outcome?
  {
    && Consistent(o) && RunMove(status, o.result) && (status == Running ==> started) && o.observationCount == observed
  }

  lemma {:induction false} OutcomeChecks(t: Tables, o: Entity, observed: nat, started: bool)
    requires o.Outcome? && OutcomeResolves(t, o)
    requires observed == |Select(t, Observations, ByRun(o.run))| && (started <==> |Select(t, Provenances, ByRun(o.run))| != 0)
    ensures Consistent(o) && CheckOutcome(t, o).None? <==>
            OwnArtifacts(t, o) && OutcomeChecked(t.rows[o.run].payload.status, o, observed, started)
  {
  }

  lemma {:induction false} OutcomeFits(t: Tables, o: Entity, observed: nat, started: bool)
    requires o.Outcome? && Resolves(t, o) && observed == |ObservationsOf(t, o.run)| && (started <==> ProvenanceId(o.run) in t.rows)
    ensures OutcomeResolves(t, o)
    ensures OwnArtifacts(t, o) && OutcomeChecked(t.rows[o.run].payload.status, o, observed, started) <==> OutcomeFitting(t, o)
  {
  }

  lemma {:induction false} AttemptCheckedIff(t: Tables, a: Entity)
    requires Sound(t) && a.Attempt? && Resolves(t, a)
    ensures Consistent(a) && CheckAttempt(t, a).None? <==> AttemptFitting(t, a)
  {
    NextAttemptIff(t, a.unit, a.attempt);
  }

  lemma {:induction false} NextAttemptIff(t: Tables, unit: Id, k: nat)
    requires Sound(t)
    ensures k == |Select(t, Attempts, map["unit_id" := IdCell(unit)])| <==> forall n: nat :: AttemptId(unit, n) in t.rows <==> n < k
  {
    AttemptsAreSegment(t, unit);
    var found := |Select(t, Attempts, map["unit_id" := IdCell(unit)])|;
    assert found < k ==> AttemptId(unit, found) !in t.rows;
    assert k < found ==> AttemptId(unit, k) in t.rows;
  }

  lemma {:induction false} CheckedIff(t: Tables, e: Entity)
    requires Sound(t) && Resolves(t, e)
    ensures Consistent(e) && CheckKind(t, e).None? <==> Fitting(t, e)
  {
    match e
    case Provenance(_, _, _, _, _, _, _, _) => ProvenanceCheckedIff(t, e);
    case Outcome(_, _, _, _, _, _) => OutcomeCheckedIff(t, e);
    case Attempt(_, _, _, _, _) => AttemptCheckedIff(t, e);
    case _ =>
  }

  /** A record is admitted exactly if there is none with its identity, what it mentions is stored, and it fits
      what it mentions. */
  lemma {:induction false} AdmittedIff(t: Tables, e: Entity)
    requires Sound(t)
    ensures AddTo(t, e).Ok? <==> (forall id :: id in t.rows ==> !SameRecord(t.rows[id].payload, e)) && Resolves(t, e) && Fitting(t, e)
  {
    ResolvesIff(t, e);
    if Resolves(t, e) { CheckedIff(t, e); }
    FreshIff(t, e);
  }

  lemma {:induction false} FreshIff(t: Tables, e: Entity)
    requires Listed(t)
    ensures IdOf(e) !in t.rows <==> forall id :: id in t.rows ==> !SameRecord(t.rows[id].payload, e)
  {
    forall id | id in t.rows ensures SameRecord(t.rows[id].payload, e) <==> id == IdOf(e) {
      IdentityIff(t.rows[id].payload, e);
      assert IdOf(t.rows[id].payload) == id;
    }
  }

  lemma {:induction false} KindsOnlyRefuseInvalid(t: Tables, e: Entity)
    requires Sound(t) && Resolves(t, e)
    ensures CheckKind(t, e).Some? ==> CheckKind(t, e) == Some(Invalid)
  {
    if e.Provenance? && RunIs(t, e.run) {
      var x := t.rows[e.run].payload.experiment;
      RunsExperiment(t, e.run);
    }
  }

  lemma {:induction false} RunsExperiment(t: Tables, run: Id)
    requires Sound(t) && RunIs(t, run)
    ensures StoredExperiment(t, t.rows[run].payload.experiment)
  {
    var x := t.rows[run].payload.experiment;
    var i := Place(t, run);
    assert x in Refs(t.rows[t.order[i]].payload);
    assert x in t.order[..i];
    assert x in t.order;
    KindOfId(t, x);
  }

  /** Why a record that could be constructed is refused: it is there already, something it mentions is not
      there, or it does not fit what it mentions. */
  lemma {:induction false} RefusedFor(t: Tables, e: Entity)
    requires Sound(t) && WellFormed(e)
    ensures (exists id :: id in t.rows && SameRecord(t.rows[id].payload, e)) ==> AddTo(t, e) == Err(Duplicate)
    ensures (forall id :: id in t.rows ==> !SameRecord(t.rows[id].payload, e)) && !Resolves(t, e) ==>
              AddTo(t, e) == Err(MissingReference)
    ensures (forall id :: id in t.rows ==> !SameRecord(t.rows[id].payload, e)) && Resolves(t, e) && !Fitting(t, e) ==>
              AddTo(t, e) == Err(Invalid)
  {
    ResolvesIff(t, e);
    FreshIff(t, e);
    if Resolves(t, e) {
      CheckedIff(t, e);
      KindsOnlyRefuseInvalid(t, e);
    }
  }

  // Status changes ------------------------------------------------------------------------------------------

  /** The legal moves, listed. */
  ghost predicate LegalMove(a: Entity, b: Entity) {
    match (a, b)
    case (Experiment(_, _, _, _, s), Experiment(_, _, _, _, s')) =>
      (s, s') in {(Draft, Ready), (Draft, Cancelled), (Ready, Executing), (Ready, Cancelled),
                  (Executing, Done), (Executing, Broken), (Executing, Cancelled)}
    case (Run(_, _, _, _, _, s), Run(_, _, _, _, _, s')) =>
      (s, s') in {(Pending, Running), (Pending, Failed), (Running, Completed), (Running, Failed)}
    case (ScheduleUnit(_, _, _, s), ScheduleUnit(_, _, _, s')) =>
      (s, s') in {(Planned, Queued), (Planned, Blocked), (Planned, UnitCancelled),
                  (Queued, InProgress), (Queued, Blocked), (Queued, UnitCancelled),
                  (InProgress, Succeeded), (InProgress, UnitFailed), (InProgress, TimedOut), (InProgress, UnitCancelled),
                  (UnitFailed, RetryPending), (UnitFailed, UnitCancelled), (TimedOut, RetryPending), (TimedOut, UnitCancelled),
                  (RetryPending, Queued), (RetryPending, UnitCancelled),
                  (Blocked, Queued), (Blocked, Skipped), (Blocked, UnitCancelled)}
    case _ => false
  }

  /** Every other field is the same. */
  ghost predicate OnlyStatusDiffers(a: Entity, b: Entity) {
    match (a, b)
    case (Experiment(k, i, c, at, _), Experiment(k', i', c', at', _)) => k == k' && i == i' && c == c' && at == at'
    case (Run(x, env, seed, at, n, _), Run(x', env', seed', at', n', _)) =>
      x == x' && env == env' && seed == seed' && at == at' && n == n'
    case (ScheduleUnit(k, schedule, deps, _), ScheduleUnit(k', schedule', deps', _)) =>
      k == k' && schedule == schedule' && deps == deps'
    case _ => false
  }

  lemma {:induction false} StepIff(a: Entity, b: Entity)
    ensures StatusStep(a, b) <==> LegalMove(a, b) && OnlyStatusDiffers(a, b)
  {
  }

  /** A status update succeeds exactly for a stored record of which only the status changes, along a listed move. */
  lemma {:induction false} UpdateAdmittedIff(t: Tables, e: Entity)
    requires Sound(t)
    ensures UpdateStatus(t, e).Ok? <==>
            IdOf(e) in t.rows && LegalMove(t.rows[IdOf(e)].payload, e) && OnlyStatusDiffers(t.rows[IdOf(e)].payload, e)
  {
    UpdateSucceedsIff(t, e);
    if IdOf(e) in t.rows { StepIff(t.rows[IdOf(e)].payload, e); }
  }

  /** Otherwise the record is unknown, or more than its status would change, or along no listed move. */
  lemma {:induction false} UpdateRefusedFor(t: Tables, e: Entity)
    requires Sound(t)
    ensures IdOf(e) !in t.rows ==> UpdateStatus(t, e) == Err(NotFound)
    ensures IdOf(e) in t.rows && !(LegalMove(t.rows[IdOf(e)].payload, e) && OnlyStatusDiffers(t.rows[IdOf(e)].payload, e)) ==>
              UpdateStatus(t, e) == Err(Invalid)
  {
    if IdOf(e) in t.rows { StepIff(t.rows[IdOf(e)].payload, e); }
  }
}
