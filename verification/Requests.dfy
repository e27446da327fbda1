/** Every run that starts was asked for: its provenance repeats a request. */
module Requests {
  import opened Common
  import opened Domain
  import opened Store
  import opened RegistryLaws
  import opened Lifecycle
  import opened LifecycleSteps
  import opened Executors
  import opened ExecutorSafety
  import opened ExecutorGuarantees
  import opened ReplayLinks
  import opened Causes

  /** An idle executor is asked for a run of the experiment under the seed, as a replay of a run or of none: as
      `execute` names them, or as the finished run that `replay` names has them on record. */
  ghost predicate Asks(w: World, a: Action, x: Id, seed: nat, replayOf: Option<Id>) {
    match a
    case Execute(i, experiment, asked, original) =>
      Free(w, i) && w.pcs[i].Idle? && experiment == x && asked == seed && original == replayOf
    case Replay(i, original) =>
      && Free(w, i) && w.pcs[i].Idle? && replayOf == Some(original)
      && RunIs(w.tables, original) && Finished(w.tables.rows[original].payload.status)
      && w.tables.rows[original].payload.experiment == x
      && Has(w.tables, ProvenanceId(original)) && w.tables.rows[ProvenanceId(original)].payload.Provenance?
      && w.tables.rows[ProvenanceId(original)].payload.seed == seed
    case _ => false
  }

  ghost predicate WasAsked(w: World, actions: seq<Action>, x: Id, seed: nat, replayOf: Option<Id>) {
    exists k :: 0 <= k < |actions| && Asks(Trace(w, actions[..k]), actions[k], x, seed, replayOf)
  }

  lemma {:induction false} AskedLater(w: World, actions: seq<Action>, x: Id, seed: nat, replayOf: Option<Id>)
    requires actions != []
    requires WasAsked(w, actions[..|actions| - 1], x, seed, replayOf)
             || Asks(Trace(w, actions[..|actions| - 1]), actions[|actions| - 1], x, seed, replayOf)
    ensures WasAsked(w, actions, x, seed, replayOf)
  {
    var n := |actions| - 1;
    if WasAsked(w, actions[..n], x, seed, replayOf) {
      var k :| 0 <= k < n && Asks(Trace(w, actions[..n][..k]), actions[..n][k], x, seed, replayOf);
      assert actions[..n][..k] == actions[..k];
      assert Asks(Trace(w, actions[..k]), actions[k], x, seed, replayOf);
    }
  }

  /** How an executor comes to have a run in preparation. */
  ghost predicate Prepares(w: World, a: Action, before: Pc, after: Pc) {
    match after
    case Creating(x, _, seed, replayOf) => before == after || Asks(w, a, x, seed, replayOf)
    case Preparing(run, _, replayOf) =>
      || before == after
      || (before.Creating? && run.Run? && before.experiment == run.experiment && before.seed == run.seed && before.replayOf == replayOf)
    case _ => true
  }

  lemma {:induction false} RequestPrepares(w: World, a: Action, j: nat)
    requires WorldOk(w) && j < |w.pcs| && (a.Execute? || a.Replay? || a.Return? || a.Raise? || a.Begin? || a.Client?)
    ensures |Next(w, a).pcs| == |w.pcs| && Prepares(w, a, w.pcs[j], Next(w, a).pcs[j])
  {
  }

  lemma {:induction false} SweepPrepares(w: World, a: Action, j: nat)
    requires WorldOk(w) && j < |w.pcs| && (a.Scan? || a.Examine? || a.Count? || a.Rest?)
    ensures |Next(w, a).pcs| == |w.pcs| && Prepares(w, a, w.pcs[j], Next(w, a).pcs[j])
  {
  }

  lemma {:induction false} FailurePrepares(w: World, a: Action, pc: Pc)
    ensures Prepares(w, a, pc, Failing(pc)) && Prepares(w, a, pc, Idle)
  {
  }

  lemma {:induction false} CommitPrepares(w: World, a: Action, pc: Pc, job: Job)
    requires LifecycleOk(w.tables) && PcOk(w.tables, pc) && Allowed(pc, job) && PerformAll(w.tables, ScriptOf(pc, job)).Ok?
    ensures Prepares(w, a, pc, After(pc, job, PerformAll(w.tables, ScriptOf(pc, job)).value))
  {
    if job.Create? {
      var create := CreateRun(pc.experiment, IdOf(job.env), pc.seed, job.now);
      TwoSteps(w.tables, EnsureEnvironment(job.env), create);
      var t := Perform(w.tables, EnsureEnvironment(job.env)).value;
      EnvironmentFollows(w.tables, job.env);
      CreatedRunIsHeld(t, pc.experiment, IdOf(job.env), pc.seed, job.now);
    }
  }

  lemma {:induction false} TxPrepares(w: World, a: Action, j: nat)
    requires WorldOk(w) && j < |w.pcs| && (a.Fail? || a.Crash? || a.Step? || a.Commit?)
    ensures |Next(w, a).pcs| == |w.pcs| && Prepares(w, a, w.pcs[j], Next(w, a).pcs[j])
  {
    SameSize(w, a);
    FailurePrepares(w, a, w.pcs[j]);
    if a.Commit? && Committed(w) != w && w.tx.value.owner == j {
      var script := ScriptOf(w.pcs[j], w.tx.value.job);
      assert script[..w.tx.value.done] == script;
      CommitPrepares(w, a, w.pcs[j], w.tx.value.job);
    }
  }

  lemma {:induction false} StepPrepares(w: World, a: Action, j: nat)
    requires WorldOk(w) && j < |w.pcs|
    ensures |Next(w, a).pcs| == |w.pcs| && Prepares(w, a, w.pcs[j], Next(w, a).pcs[j])
  {
    if a.Fail? || a.Crash? || a.Step? || a.Commit? {
      TxPrepares(w, a, j);
    } else if a.Scan? || a.Examine? || a.Count? || a.Rest? {
      SweepPrepares(w, a, j);
    } else {
      RequestPrepares(w, a, j);
    }
  }

  ghost predicate PcAsked(w: World, actions: seq<Action>, pc: Pc) {
    match pc
    case Creating(x, _, seed, replayOf) => WasAsked(w, actions, x, seed, replayOf)
    case Preparing(run, _, replayOf) => run.Run? && WasAsked(w, actions, run.experiment, run.seed, replayOf)
    case _ => true
  }

  lemma {:induction false} PcAskedNext(w: World, actions: seq<Action>, before: Pc, after: Pc)
    requires actions != [] && PcAsked(w, actions[..|actions| - 1], before)
    requires Prepares(Trace(w, actions[..|actions| - 1]), actions[|actions| - 1], before, after)
    ensures PcAsked(w, actions, after)
  {
    match after
    case Creating(x, _, seed, replayOf) => AskedLater(w, actions, x, seed, replayOf);
    case Preparing(run, _, replayOf) => AskedLater(w, actions, run.experiment, run.seed, replayOf);
    case _ =>
  }

  lemma {:induction false} PcsWereAsked(w: World, actions: seq<Action>, j: nat)
    requires WorldOk(w) && j < |w.pcs| && w.pcs[j].Idle?
    ensures |Trace(w, actions).pcs| == |w.pcs| && PcAsked(w, actions, Trace(w, actions).pcs[j])
  {
    if actions != [] {
      var n := |actions| - 1;
      var before := Trace(w, actions[..n]);
      PcsWereAsked(w, actions[..n], j);
      TraceKeepsOk(w, actions[..n]);
      StepPrepares(before, actions[n], j);
      PcAskedNext(w, actions, before.pcs[j], Trace(w, actions).pcs[j]);
    }
  }

  // Provenance ---------------------------------------------------------------------------------------------

  ghost predicate ProvenanceAsked(w: World, actions: seq<Action>, p: Entity) {
    match p
    case Provenance(_, x, _, _, seed, _, _, replayOf) => WasAsked(w, actions, x, seed, replayOf)
    case _ => false
  }

  /** Provenance is written for the run that an executor has in preparation. */
  ghost predicate Starts(pc: Pc, p: Entity) {
    match pc
    case Preparing(run, _, replayOf) =>
      run.Run? && p.Provenance? && p.experiment == run.experiment && p.seed == run.seed && p.replayOf == replayOf
    case _ => false
  }

  lemma {:induction false} StartOrNothing(t: Tables, pc: Pc, job: Job, r: Id)
    requires LifecycleOk(t) && PcOk(t, pc) && Allowed(pc, job) && PerformAll(t, ScriptOf(pc, job)).Ok?
    requires ProvenanceId(r) in PerformAll(t, ScriptOf(pc, job)).value.rows && ProvenanceId(r) !in t.rows
    ensures Starts(pc, PerformAll(t, ScriptOf(pc, job)).value.rows[ProvenanceId(r)].payload)
  {
    var t' := PerformAll(t, ScriptOf(pc, job)).value;
    if job.Start? {
      StartWrites(t, pc, job.startedAt, job.pid);
      PairEffect(t, ProvenanceOf(pc, job.startedAt, job.pid), pc.run, Running);
    } else {
      OthersAddNoProvenance(t, pc, job);
      assert Listed(t') && t.order <= t'.order by { JobDone(t, pc, job); }
      Unlisted(t, t', ProvenanceId(r));
    }
  }

  lemma {:induction false} Unlisted(t: Tables, t': Tables, id: Id)
    requires Listed(t) && Listed(t') && t.order <= t'.order && NoNewProvenance(t, t') && id.ProvenanceId? && id in t'.rows
    ensures id in t.rows
  {
    assert id in t'.order;
    var i :| 0 <= i < |t'.order| && t'.order[i] == id;
    assert t.order[i] in t.order;
  }

  lemma {:induction false} NewProvenance(w: World, a: Action, r: Id) returns (i: nat)
    requires WorldOk(w) && ProvenanceId(r) in Next(w, a).tables.rows && ProvenanceId(r) !in w.tables.rows
    ensures i < |w.pcs| && Starts(w.pcs[i], Next(w, a).tables.rows[ProvenanceId(r)].payload)
  {
    SameSize(w, a);
    assert a.Commit?;
    i := w.tx.value.owner;
    assert ScriptOf(w.pcs[i], w.tx.value.job)[..w.tx.value.done] == ScriptOf(w.pcs[i], w.tx.value.job);
    StartOrNothing(w.tables, w.pcs[i], w.tx.value.job, r);
  }

  /** From executors at rest, whatever they do: every run that was started since was asked for, with the
      experiment, the seed and the original that its provenance names. */
  lemma {:induction false} StartsWereAsked(w: World, actions: seq<Action>, r: Id)
    requires WorldOk(w) && (forall i :: 0 <= i < |w.pcs| ==> w.pcs[i].Idle?) && ProvenanceId(r) !in w.tables.rows
    requires ProvenanceId(r) in Trace(w, actions).tables.rows
    ensures ProvenanceAsked(w, actions, Trace(w, actions).tables.rows[ProvenanceId(r)].payload)
  {
    if actions != [] {
      var n := |actions| - 1;
      var before := Trace(w, actions[..n]);
      TraceKeepsOk(w, actions[..n]);
      if ProvenanceId(r) in before.tables.rows {
        StartsWereAsked(w, actions[..n], r);
        NextKeepsOk(before, actions[n]);
        NotAStatusRecord(before.tables, Trace(w, actions).tables, ProvenanceId(r));
        var p := before.tables.rows[ProvenanceId(r)].payload;
        AskedLater(w, actions, p.experiment, p.seed, p.replayOf);
      } else {
        NewStartWasAsked(w, actions, r);
      }
    }
  }

  lemma {:induction false} NewStartWasAsked(w: World, actions: seq<Action>, r: Id)
    requires WorldOk(w) && (forall i :: 0 <= i < |w.pcs| ==> w.pcs[i].Idle?) && actions != []
    requires ProvenanceId(r) !in Trace(w, actions[..|actions| - 1]).tables.rows && ProvenanceId(r) in Trace(w, actions).tables.rows
    ensures ProvenanceAsked(w, actions, Trace(w, actions).tables.rows[ProvenanceId(r)].payload)
  {
    var n := |actions| - 1;
    var before := Trace(w, actions[..n]);
    var p := Trace(w, actions).tables.rows[ProvenanceId(r)].payload;
    TraceKeepsOk(w, actions[..n]);
    var i := NewProvenance(before, actions[n], r);
    SizeKept(w, actions[..n]);
    PcsWereAsked(w, actions[..n], i);
    AskedLater(w, actions, p.experiment, p.seed, p.replayOf);
  }
}
