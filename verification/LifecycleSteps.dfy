/** Each transaction of the executor takes a lifecycle-correct registry to another one. */
module LifecycleSteps {
  import opened Common
  import opened Domain
  import opened Store
  import opened RegistryLaws
  import opened Lifecycle

  // Recording ------------------------------------------------------------------------------------

  /** A record that takes no part in the lifecycle. */
  predicate Bystander(e: Entity) { !e.Run? && !e.Provenance? && !e.Outcome? }

  lemma {:induction false} RunOkBeside(t: Tables, e: Entity, r: Id)
    requires Listed(t) && AddTo(t, e).Ok? && !e.Provenance? && !e.Outcome?
    requires RunIs(t, r) && RunOk(t, r)
    ensures RunIs(Insert(t, e), r) && RunOk(Insert(t, e), r)
  {
  }

  lemma {:induction false} RecordKeepsDense(t: Tables, e: Entity)
    requires RunsDense(t) && !e.Run?
    ensures RunsDense(Insert(t, e))
  {
    assert !IdOf(e).RunId?;
  }

  lemma {:induction false} RecordKeepsRunsOk(t: Tables, e: Entity)
    requires Listed(t) && RunsOk(t) && AddTo(t, e).Ok? && Bystander(e)
    ensures RunsOk(Insert(t, e))
  {
    forall r | RunIs(Insert(t, e), r) ensures RunOk(Insert(t, e), r) {
      RunOkBeside(t, e, r);
    }
  }

  lemma {:induction false} RecordKeepsLifecycle(t: Tables, e: Entity)
    requires LifecycleOk(t) && AddTo(t, e).Ok? && Bystander(e)
    ensures LifecycleOk(Insert(t, e)) && Grows(t, Insert(t, e))
  {
    AddKeepsSound(t, e);
    RecordKeepsDense(t, e);
    RecordKeepsRunsOk(t, e);
  }

  // Creating a run -------------------------------------------------------------------------------

  lemma {:induction false} RunRow(t: Tables, id: Id, x: Id, env: Id)
    requires Listed(t) && InStep(t) && id in t.rows
    ensures id in RunsOf(t, x, env) <==> id.RunId? && id.experiment == x && id.environment == env
  {
    var e := t.rows[id].payload;
    var filters: map<string, Cell> := map["experiment_id" := IdCell(x), "environment_id" := IdCell(env)];
    assert IdOf(e) == id;
    if e.Run? {
      assert ColumnsOf(e)["experiment_id"] == Some(IdCell(e.experiment));
      assert ColumnsOf(e)["environment_id"] == Some(IdCell(e.environment));
      assert "experiment_id" in filters && "environment_id" in filters;
      assert Matches(ColumnsOf(e), filters) <==> e.experiment == x && e.environment == env;
    }
  }

  lemma {:induction false} AttemptIsFound(t: Tables, x: Id, env: Id, seed: nat, n: nat)
    requires Listed(t) && InStep(t)
    ensures RunId(x, env, seed, n) in t.rows <==> n in AttemptsOf(t, x, env, seed)
  {
    var found := RunsOf(t, x, env);
    if RunId(x, env, seed, n) in t.rows {
      RunRow(t, RunId(x, env, seed, n), x, env);
      assert found[RunId(x, env, seed, n)].attempt == n;
    }
    if n in AttemptsOf(t, x, env, seed) {
      var id :| id in found && found[id].Run? && found[id].seed == seed && found[id].attempt == n;
      RunRow(t, id, x, env);
      assert IdOf(t.rows[id].payload) == id;
    }
  }

  /** The attempts made so far are exactly the numbers below the next one. */
  lemma {:induction false} AttemptsAreDense(t: Tables, x: Id, env: Id, seed: nat)
    requires Sound(t) && RunsDense(t)
    ensures forall n: nat :: RunId(x, env, seed, n) in t.rows <==> n < NextAttempt(t, x, env, seed)
  {
    forall n: nat ensures RunId(x, env, seed, n) in t.rows <==> n in AttemptsOf(t, x, env, seed) {
      AttemptIsFound(t, x, env, seed, n);
    }
    DenseBelow(t, x, env, seed, AttemptsOf(t, x, env, seed));
  }

  lemma {:induction false} DenseBelow(t: Tables, x: Id, env: Id, seed: nat, attempts: set<nat>)
    requires RunsDense(t) && forall n: nat :: RunId(x, env, seed, n) in t.rows <==> n in attempts
    ensures forall n: nat :: RunId(x, env, seed, n) in t.rows <==> n < MaxPlusOne(attempts)
  {
    var k := MaxPlusOne(attempts);
    forall n: nat ensures RunId(x, env, seed, n) in t.rows <==> n < k {
      if n < k { assert RunId(x, env, seed, k - 1) in t.rows; }
    }
  }

  lemma {:induction false} FreshRunIsBare(t: Tables, r: Id)
    requires Sound(t) && r !in t.rows
    ensures !Has(t, ProvenanceId(r)) && !Has(t, OutcomeId(r))
  {
    if Has(t, ProvenanceId(r)) { RefResolves(t, ProvenanceId(r), r); }
    if Has(t, OutcomeId(r)) { RefResolves(t, OutcomeId(r), r); }
  }

  lemma {:induction false} RefResolves(t: Tables, id: Id, ref: Id)
    requires Sound(t) && id in t.rows && ref in Refs(t.rows[id].payload)
    ensures ref in t.rows
  {
    var i := Place(t, id);
    assert ref in t.order[..i];
    assert ref in t.order;
  }

  lemma {:induction false} NextRunIsFresh(t: Tables, x: Id, env: Id, seed: nat, now: int)
    requires Sound(t) && RunsDense(t) && x in t.rows && x.ExperimentId? && env in t.rows && Names(env, "environment")
    ensures AddTo(t, Run(x, env, seed, now, NextAttempt(t, x, env, seed), Pending)).Ok?
  {
    AttemptsAreDense(t, x, env, seed);
  }

  lemma {:induction false} CreateKeepsDense(t: Tables, x: Id, env: Id, seed: nat, now: int)
    requires Sound(t) && RunsDense(t)
    ensures RunsDense(Insert(t, Run(x, env, seed, now, NextAttempt(t, x, env, seed), Pending)))
  {
    AttemptsAreDense(t, x, env, seed);
  }

  lemma {:induction false} CreateKeepsLifecycle(t: Tables, x: Id, env: Id, seed: nat, now: int)
    requires LifecycleOk(t) && Perform(t, CreateRun(x, env, seed, now)).Ok?
    ensures var t' := Perform(t, CreateRun(x, env, seed, now)).value; LifecycleOk(t') && Grows(t, t')
  {
    var run := Run(x, env, seed, now, NextAttempt(t, x, env, seed), Pending);
    var t' := Insert(t, run);
    AddKeepsSound(t, run);
    CreateKeepsDense(t, x, env, seed, now);
    FreshRunIsBare(t, IdOf(run));
    forall r | RunIs(t', r) ensures RunOk(t', r) {
      if r != IdOf(run) { RunOkBeside(t, run, r); }
    }
  }

  // Starting and closing ---------------------------------------------------------------------------

  lemma {:induction false} OtherRunsStayOk(t: Tables, t': Tables, e: Entity, r: Id, s: RunStatus, q: Id)
    requires RunIs(t, r) && AddedAndMoved(t, t', e, r, s) && q != r && RunIs(t', q)
    requires IdOf(e) == ProvenanceId(r) || IdOf(e) == OutcomeId(r)
    requires Listed(t) && RunsOk(t)
    ensures RunOk(t', q)
  {
    assert RunIs(t, q) && RunOk(t, q);
    assert t'.rows[q] == t.rows[q];
    assert Has(t', ProvenanceId(q)) == Has(t, ProvenanceId(q));
    assert Has(t', OutcomeId(q)) == Has(t, OutcomeId(q));
    assert Has(t, OutcomeId(q)) ==> t'.rows[OutcomeId(q)] == t.rows[OutcomeId(q)];
  }

  lemma {:induction false} MoveKeepsDense(t: Tables, t': Tables, e: Entity, r: Id, s: RunStatus)
    requires RunIs(t, r) && AddedAndMoved(t, t', e, r, s) && !IdOf(e).RunId? && RunsDense(t)
    ensures RunsDense(t')
  {
    forall x, env, seed: nat, n: nat, m: nat | RunId(x, env, seed, n) in t'.rows && m < n
      ensures RunId(x, env, seed, m) in t'.rows
    {
      assert RunId(x, env, seed, n) in t.rows;
    }
  }

  lemma {:induction false} StartKeepsLifecycle(t: Tables, t': Tables, p: Entity, r: Id)
    requires LifecycleOk(t) && Sound(t') && Grows(t, t') && p.Provenance? && p.run == r && RunIs(t, r)
    requires AddedAndMoved(t, t', p, r, Running)
    ensures LifecycleOk(t')
  {
    assert RunOk(t, r);
    MoveKeepsDense(t, t', p, r, Running);
    forall q | RunIs(t', q) ensures RunOk(t', q) {
      if q != r { OtherRunsStayOk(t, t', p, r, Running, q); }
    }
  }

  lemma {:induction false} ClosedRunIsOk(t: Tables, t': Tables, o: Entity, r: Id)
    requires RunIs(t, r) && RunOk(t, r) && o.Outcome? && o.run == r && WellFormed(o)
    requires AddedAndMoved(t, t', o, r, o.result)
    requires InPreparationError(o) <==> t.rows[r].payload.status == Pending
    ensures RunIs(t', r) && RunOk(t', r)
  {
    assert Has(t', ProvenanceId(r)) == Has(t, ProvenanceId(r));
    assert t'.rows[OutcomeId(r)].payload == o;
  }

  predicate InPreparationError(o: Entity)
    requires o.Outcome?
  {
    o.error.Some? && o.error.value.stage == Preparation
  }

  lemma {:induction false} CloseKeepsLifecycle(t: Tables, t': Tables, o: Entity, r: Id)
    requires LifecycleOk(t) && Sound(t') && Grows(t, t') && o.Outcome? && o.run == r && WellFormed(o) && RunIs(t, r)
    requires AddedAndMoved(t, t', o, r, o.result)
    requires InPreparationError(o) <==> t.rows[r].payload.status == Pending
    ensures LifecycleOk(t')
  {
    MoveKeepsDense(t, t', o, r, o.result);
    forall q | RunIs(t', q) ensures RunOk(t', q) {
      if q != r { OtherRunsStayOk(t, t', o, r, o.result, q); } else { ClosedRunIsOk(t, t', o, r); }
    }
  }

  // One admitted write on its own ---------------------------------------------------------------------

  lemma {:induction false} NewRunMustBePending(t: Tables, e: Entity)
    requires LifecycleOk(t) && AddTo(t, e).Ok? && e.Run?
    ensures RunsOk(Insert(t, e)) <==> e.status == Pending
  {
    var t' := Insert(t, e);
    FreshRunIsBare(t, IdOf(e));
    assert RunIs(t', IdOf(e));
    forall r | RunIs(t', r) && r != IdOf(e) ensures RunOk(t', r) { RunOkBeside(t, e, r); }
  }

  lemma {:induction false} LoneRecordBreaks(t: Tables, e: Entity)
    requires LifecycleOk(t) && AddTo(t, e).Ok? && (e.Provenance? || e.Outcome?)
    ensures !RunsOk(Insert(t, e))
  {
    assert RunIs(t, e.run) && RunOk(t, e.run);
    assert RunIs(Insert(t, e), e.run) && !RunOk(Insert(t, e), e.run);
  }

  /** Which single additions keep the lifecycle: everything but an outcome, provenance or a run that is not
      PENDING. */
  lemma {:induction false} AdditionKeepsRunsIff(t: Tables, e: Entity)
    requires LifecycleOk(t) && AddTo(t, e).Ok?
    ensures RunsOk(Insert(t, e)) <==> !e.Outcome? && !e.Provenance? && (e.Run? ==> e.status == Pending)
  {
    if e.Outcome? || e.Provenance? {
      LoneRecordBreaks(t, e);
    } else if e.Run? {
      NewRunMustBePending(t, e);
    } else {
      RecordKeepsRunsOk(t, e);
    }
  }

  /** Which single status updates keep it: all but those of runs. */
  lemma {:induction false} UpdateKeepsRunsIff(t: Tables, e: Entity)
    requires LifecycleOk(t) && UpdateStatus(t, e).Ok?
    ensures RunsOk(UpdateStatus(t, e).value) <==> !e.Run?
  {
    var t' := UpdateStatus(t, e).value;
    if e.Run? {
      assert RunIs(t, IdOf(e)) && RunOk(t, IdOf(e));
      assert RunIs(t', IdOf(e)) && !RunOk(t', IdOf(e));
    } else {
      forall r | RunIs(t', r) ensures RunOk(t', r) { RunOkBesideUpdate(t, e, r); }
    }
  }

  lemma {:induction false} RunOkBesideUpdate(t: Tables, e: Entity, r: Id)
    requires LifecycleOk(t) && UpdateStatus(t, e).Ok? && !e.Run? && RunIs(UpdateStatus(t, e).value, r)
    ensures RunOk(UpdateStatus(t, e).value, r)
  {
    assert RunIs(t, r) && RunOk(t, r);
  }

  // The registry alone is not enough ----------------------------------------------------------------

  /** Two admitted writes leave a run that has an outcome but is not finished. */
  lemma {:induction false} RegistryAllowsOutcomeWithoutStatus(t: Tables, run: Id, now: int)
    requires Sound(t) && RunIs(t, run) && t.rows[run].payload.status == Pending && RunOk(t, run)
    requires |Select(t, Observations, ByRun(run))| == 0
    ensures var o := Outcome(run, now, Failed, 0, {}, Some(ErrorInfo(Preparation, "", None)));
            AddTo(t, o).Ok? && Sound(AddTo(t, o).value) && !RunsOk(AddTo(t, o).value)
  {
    var o := Outcome(run, now, Failed, 0, {}, Some(ErrorInfo(Preparation, "", None)));
    assert Refs(o) == {run};
    assert CheckOutcome(t, o).None?;
    AddKeepsSound(t, o);
    OutcomeAlone(t, o);
  }

  lemma {:induction false} OutcomeAlone(t: Tables, o: Entity)
    requires o.Outcome? && RunIs(t, o.run) && t.rows[o.run].payload.status == Pending && IdOf(o) != o.run
    ensures !RunsOk(Insert(t, o))
  {
    assert RunIs(Insert(t, o), o.run) && !RunOk(Insert(t, o), o.run);
  }

  /** Two PENDING runs may each be recorded as a replay of the other. */
  lemma {:induction false} RegistryAllowsReplayCycle(t: Tables, p: Entity, q: Entity)
    requires Sound(t) && p.Provenance? && q.Provenance? && p.run != q.run
    requires p.replayOf.None? && q.replayOf.None? && p.experiment == q.experiment
    requires AddTo(t, p).Ok? && AddTo(t, q).Ok?
    ensures var p', q' := p.(replayOf := Some(q.run)), q.(replayOf := Some(p.run));
            && AddTo(t, p').Ok? && AddTo(AddTo(t, p').value, q').Ok?
            && Sound(AddTo(AddTo(t, p').value, q').value)
  {
    var p', q' := p.(replayOf := Some(q.run)), q.(replayOf := Some(p.run));
    ReplayAdmitted(t, p, q);
    AddKeepsSound(t, p');
    ReplayAdmitted(t, q, p);
    StillAdmitted(t, p', q');
    AddKeepsSound(Insert(t, p'), q');
  }

  lemma {:induction false} ReplayAdmitted(t: Tables, p: Entity, q: Entity)
    requires p.Provenance? && q.Provenance? && p.run != q.run && p.experiment == q.experiment
    requires p.replayOf.None? && q.replayOf.None? && AddTo(t, p).Ok? && AddTo(t, q).Ok?
    ensures AddTo(t, p.(replayOf := Some(q.run))).Ok?
  {
    assert q.run in Refs(q);
    assert Refs(p.(replayOf := Some(q.run))) == Refs(p) + {q.run};
  }

  lemma {:induction false} StillAdmitted(t: Tables, p: Entity, q: Entity)
    requires p.Provenance? && q.Provenance? && p.run != q.run && AddTo(t, p).Ok? && AddTo(t, q).Ok?
    ensures AddTo(Insert(t, p), q).Ok?
  {
  }
}
