/** What the registry says about a run, traced back to what an executor did: the process that started it,
    and the event that ended it. */
module Causes {
  import opened Common
  import opened Domain
  import opened Store
  import opened RegistryLaws
  import opened Lifecycle
  import opened LifecycleSteps
  import opened Recording
  import opened Executors
  import opened ExecutorSafety
  import opened ExecutorGuarantees
  import opened ReplayLinks
  import opened Recovery

  // The recorded process --------------------------------------------------------------------------------

  lemma {:induction false} PidIsStored(t: Tables, r: Id)
    requires Sound(t) && Has(t, ProvenanceId(r))
    ensures t.rows[ProvenanceId(r)].payload.Provenance? && PidOf(t, r) == t.rows[ProvenanceId(r)].payload.pid
  {
    ProvenanceRow(t, ProvenanceId(r), r);
    assert IdOf(t.rows[ProvenanceId(r)].payload) == ProvenanceId(r);
  }

  /** The executor's start of the run in its hands is about to commit. */
  ghost predicate Starting(w: World, i: nat, startedAt: int, pid: Option<int>) {
    && i < |w.pcs| && w.pcs[i].Preparing? && w.pcs[i].run.Run? && w.tx.Some? && w.tx.value.owner == i
    && w.tx.value.job == Start(startedAt, pid) && w.tx.value.done == 2
  }

  /** RUNNING, with this provenance. */
  ghost predicate RunsAs(t: Tables, pc: Pc, startedAt: int, pid: Option<int>) {
    match pc
    case Preparing(run, configuration, replayOf) =>
      && run.Run? && RunIs(t, IdOf(run)) && t.rows[IdOf(run)].payload.status == Running && Has(t, ProvenanceId(IdOf(run)))
      && RecordsStart(t.rows[ProvenanceId(IdOf(run))].payload, run, configuration, startedAt, pid, replayOf)
    case _ => false
  }

  ghost predicate RecordsStart(p: Entity, run: Entity, configuration: Id, startedAt: int, pid: Option<int>, replayOf: Option<Id>)
    requires run.Run?
  {
    p == Provenance(IdOf(run), run.experiment, run.environment, configuration, run.seed, startedAt, pid, replayOf)
  }

  lemma {:induction false} StartWrites(t: Tables, pc: Pc, startedAt: int, pid: Option<int>)
    requires LifecycleOk(t) && PcOk(t, pc) && pc.Preparing? && PerformAll(t, ScriptOf(pc, Start(startedAt, pid))).Ok?
    ensures RunsAs(PerformAll(t, ScriptOf(pc, Start(startedAt, pid))).value, pc, startedAt, pid)
  {
    PairEffect(t, ProvenanceOf(pc, startedAt, pid), pc.run, Running);
  }

  lemma {:induction false} StartCommits(w: World, i: nat, startedAt: int, pid: Option<int>)
    requires WorldOk(w) && Starting(w, i, startedAt, pid)
    ensures RunsAs(Next(w, Commit).tables, w.pcs[i], startedAt, pid)
  {
    var script := ScriptOf(w.pcs[i], Start(startedAt, pid));
    assert |script| == 2 && script[..2] == script;
    assert PerformAll(w.tables, script) == Ok(Next(w, Commit).tables);
    StartWrites(w.tables, w.pcs[i], startedAt, pid);
  }

  /** Once a start is committed, whatever anyone does, the run's provenance is what the start recorded: its
      process, its time and what it was started from. */
  lemma {:induction false} StartIsRemembered(w: World, i: nat, startedAt: int, pid: Option<int>, actions: seq<Action>)
    requires WorldOk(w) && Starting(w, i, startedAt, pid)
    ensures var t := Trace(Next(w, Commit), actions).tables; var run := w.pcs[i].run;
            && PidOf(t, IdOf(run)) == pid && Has(t, ProvenanceId(IdOf(run)))
            && RecordsStart(t.rows[ProvenanceId(IdOf(run))].payload, run, w.pcs[i].configuration, startedAt, pid, w.pcs[i].replayOf)
  {
    var r, begun := IdOf(w.pcs[i].run), Next(w, Commit);
    var end := Trace(begun, actions);
    StartCommits(w, i, startedAt, pid);
    SoundThroughout(w, Commit, actions);
    NotAStatusRecord(begun.tables, end.tables, ProvenanceId(r));
    PidIsStored(end.tables, r);
  }

  lemma {:induction false} SoundThroughout(w: World, a: Action, actions: seq<Action>)
    requires WorldOk(w)
    ensures Sound(Next(w, a).tables) && Sound(Trace(Next(w, a), actions).tables)
    ensures Grows(Next(w, a).tables, Trace(Next(w, a), actions).tables)
  {
    NextKeepsOk(w, a);
    TraceKeepsOk(Next(w, a), actions);
  }

  /** So a run started by a process that is alive is never one that recovery closes. */
  lemma {:induction false} LiveRunIsNotAbandoned(w: World, i: nat, startedAt: int, p: int, actions: seq<Action>, alive: set<int>)
    requires WorldOk(w) && Starting(w, i, startedAt, Some(p)) && p in alive
    ensures !Abandoned(Trace(Next(w, Commit), actions).tables, alive, IdOf(w.pcs[i].run))
  {
    StartIsRemembered(w, i, startedAt, Some(p), actions);
  }

  // Events -----------------------------------------------------------------------------------------------

  /** A failure without its diagnostic. */
  function Bare(error: Option<ErrorInfo>): Option<ErrorInfo> {
    if error.Some? then Some(ErrorInfo(error.value.stage, error.value.errorType, None)) else None
  }

  /** An executor's procedure for the run ends: it returns and its artifacts are verified, it returns and they
      are not, or it raises. */
  ghost predicate Ends(w: World, a: Action, r: Id, error: Option<ErrorInfo>) {
    match a
    case Return(i, verified) =>
      && Free(w, i) && w.pcs[i].InProcedure? && IdOf(w.pcs[i].run) == r
      && (verified ==> error.None?)
      && (!verified ==> error == Some(ErrorInfo(ArtifactRegistration, "ArtifactError", None)))
    case Raise(i, stage, errorType) =>
      && Free(w, i) && w.pcs[i].InProcedure? && IdOf(w.pcs[i].run) == r
      && (stage == Execution || stage == Interrupted) && error == Some(ErrorInfo(stage, errorType, None))
    case _ => false
  }

  ghost function ArtifactsNow(t: Tables, r: Id): set<Id> { set id | id in t.rows && id.ArtifactId? && id.run == r }

  /** A pass of recovery examines the run, which has these artifacts, and no live process is on record for it. */
  ghost predicate FoundGone(w: World, a: Action, r: Id, artifacts: set<Id>) {
    match a
    case Examine(i, id, alive) =>
      && id == r && Free(w, i) && w.pcs[i].Scanning? && id in w.pcs[i].sweep.todo
      && !(PidOf(w.tables, r).Some? && alive) && artifacts == ArtifactsNow(w.tables, r)
    case _ => false
  }

  ghost predicate HasEnded(w: World, actions: seq<Action>, r: Id, error: Option<ErrorInfo>) {
    exists k :: 0 <= k < |actions| && Ends(Trace(w, actions[..k]), actions[k], r, error)
  }

  ghost predicate WasGone(w: World, actions: seq<Action>, r: Id, artifacts: set<Id>) {
    exists k :: 0 <= k < |actions| && FoundGone(Trace(w, actions[..k]), actions[k], r, artifacts)
  }

  lemma {:induction false} EndedLater(w: World, actions: seq<Action>, r: Id, error: Option<ErrorInfo>)
    requires actions != []
    requires HasEnded(w, actions[..|actions| - 1], r, error)
             || Ends(Trace(w, actions[..|actions| - 1]), actions[|actions| - 1], r, error)
    ensures HasEnded(w, actions, r, error)
  {
    var n := |actions| - 1;
    if HasEnded(w, actions[..n], r, error) {
      var k :| 0 <= k < n && Ends(Trace(w, actions[..n][..k]), actions[..n][k], r, error);
      assert actions[..n][..k] == actions[..k];
      assert Ends(Trace(w, actions[..k]), actions[k], r, error);
    }
  }

  lemma {:induction false} GoneLater(w: World, actions: seq<Action>, r: Id, artifacts: set<Id>)
    requires actions != []
    requires WasGone(w, actions[..|actions| - 1], r, artifacts) || FoundGone(Trace(w, actions[..|actions| - 1]), actions[|actions| - 1], r, artifacts)
    ensures WasGone(w, actions, r, artifacts)
  {
    var n := |actions| - 1;
    if WasGone(w, actions[..n], r, artifacts) {
      var k :| 0 <= k < n && FoundGone(Trace(w, actions[..n][..k]), actions[..n][k], r, artifacts);
      assert actions[..n][..k] == actions[..k];
      assert FoundGone(Trace(w, actions[..k]), actions[k], r, artifacts);
    }
  }

  // One step ---------------------------------------------------------------------------------------------

  /** How an executor comes to be closing or rescuing a run. */
  ghost predicate Leads(w: World, a: Action, before: Pc, after: Pc) {
    match after
    case Diagnosing(run, _, error) => before == after || Ends(w, a, IdOf(run), Bare(Some(error)))
    case Closing(run, _, failure) =>
      || before == after || Ends(w, a, IdOf(run), Bare(failure))
      || (before.Diagnosing? && before.run == run && Bare(Some(before.error)) == Bare(failure))
    case Counting(run, artifacts, _) => before == after || FoundGone(w, a, IdOf(run), artifacts)
    case Rescuing(run, artifacts, _, _) => before == after || (before.Counting? && before.run == run && before.artifacts == artifacts)
    case _ => true
  }

  lemma {:induction false} EventLeads(w: World, a: Action, j: nat)
    requires WorldOk(w) && j < |w.pcs| && (a.Return? || a.Raise? || a.Execute? || a.Replay? || a.Begin? || a.Client?)
    ensures |Next(w, a).pcs| == |w.pcs| && Leads(w, a, w.pcs[j], Next(w, a).pcs[j])
  {
  }

  lemma {:induction false} SweepLeads(w: World, a: Action, j: nat)
    requires WorldOk(w) && j < |w.pcs| && (a.Scan? || a.Examine? || a.Count? || a.Rest?)
    ensures |Next(w, a).pcs| == |w.pcs| && Leads(w, a, w.pcs[j], Next(w, a).pcs[j])
  {
    if a.Examine? && Free(w, a.who) && w.pcs[a.who].Scanning? {
      assert PcOk(w.tables, w.pcs[a.who]);
      assert a.id in w.pcs[a.who].sweep.todo ==> IdOf(w.pcs[a.who].sweep.todo[a.id]) == a.id;
      ArtifactsFound(w.tables, a.id);
    }
  }

  lemma {:induction false} ArtifactsFound(t: Tables, r: Id)
    requires Sound(t)
    ensures Select(t, Artifacts, ByRun(r)).Keys == ArtifactsNow(t, r)
  {
    forall id | id in t.rows ensures id in Select(t, Artifacts, ByRun(r)) <==> id.ArtifactId? && id.run == r { ArtifactRow(t, id, r); }
  }

  lemma {:induction false} ArtifactRow(t: Tables, id: Id, r: Id)
    requires Listed(t) && InStep(t) && id in t.rows
    ensures id in Select(t, Artifacts, ByRun(r)) <==> id.ArtifactId? && id.run == r
  {
    var e := t.rows[id].payload;
    assert IdOf(e) == id;
    if e.Artifact? {
      assert "run_id" in ColumnsOf(e) && ColumnsOf(e)["run_id"] == Some(IdCell(e.run));
      assert Matches(ColumnsOf(e), ByRun(r)) <==> e.run == r;
    }
  }

  lemma {:induction false} FailureLeads(w: World, a: Action, pc: Pc)
    ensures Leads(w, a, pc, Failing(pc)) && Leads(w, a, pc, Idle)
  {
  }

  lemma {:induction false} CommitLeads(w: World, a: Action, pc: Pc, job: Job, t: Tables)
    requires Allowed(pc, job)
    ensures Leads(w, a, pc, After(pc, job, t))
  {
  }

  lemma {:induction false} TxLeads(w: World, a: Action, j: nat)
    requires WorldOk(w) && j < |w.pcs| && (a.Fail? || a.Crash? || a.Step? || a.Commit?)
    ensures |Next(w, a).pcs| == |w.pcs| && Leads(w, a, w.pcs[j], Next(w, a).pcs[j])
  {
    SameSize(w, a);
    FailureLeads(w, a, w.pcs[j]);
    if a.Commit? && Committed(w) != w && w.tx.value.owner == j { CommitLeads(w, a, w.pcs[j], w.tx.value.job, w.tx.value.work); }
  }

  lemma {:induction false} StepLeads(w: World, a: Action, j: nat)
    requires WorldOk(w) && j < |w.pcs|
    ensures |Next(w, a).pcs| == |w.pcs| && Leads(w, a, w.pcs[j], Next(w, a).pcs[j])
  {
    if a.Fail? || a.Crash? || a.Step? || a.Commit? {
      TxLeads(w, a, j);
    } else if a.Scan? || a.Examine? || a.Count? || a.Rest? {
      SweepLeads(w, a, j);
    } else {
      EventLeads(w, a, j);
    }
  }

  /** What an executor's closing transaction writes. */
  ghost predicate Writes(pc: Pc, o: Entity) {
    match pc
    case Unstarted(run) => o.Outcome? && o.error.Some? && o.error.value.stage == Preparation
    case Closing(run, _, failure) => o.Outcome? && o.run == IdOf(run) && o.error == failure
    case Rescuing(run, artifacts, count, _) =>
      && o.Outcome? && o.run == IdOf(run) && o.artifactIds == artifacts && o.observationCount == count
      && o.error == Some(ErrorInfo(Interrupted, "experionyx.ProcessEnded", None))
    case _ => false
  }

  ghost predicate NoNewOutcome(t: Tables, t': Tables) { forall r :: OutcomeId(r) in t'.rows ==> OutcomeId(r) in t.rows }

  lemma {:induction false} OthersAddNoOutcome(t: Tables, pc: Pc, job: Job)
    requires LifecycleOk(t) && PcOk(t, pc) && Allowed(pc, job) && PerformAll(t, ScriptOf(pc, job)).Ok?
    requires !job.GiveUp? && !job.Close? && !job.Rescue?
    ensures NoNewOutcome(t, PerformAll(t, ScriptOf(pc, job)).value)
  {
    if job.Create? {
      CreateAddsNoOutcome(t, job.env, CreateRun(pc.experiment, IdOf(job.env), pc.seed, job.now));
    } else if job.Observe? || job.Register? {
      OneStep(t, ScriptOf(pc, job)[0]);
      AddNoOutcome(t, ScriptOf(pc, job)[0].op.entity);
    } else {
      StartAddsNoOutcome(t, pc, job);
    }
  }

  lemma {:induction false} AddNoOutcome(t: Tables, e: Entity)
    requires !e.Outcome?
    ensures NoNewOutcome(t, Insert(t, e))
  {
  }

  lemma {:induction false} StartAddsNoOutcome(t: Tables, pc: Pc, job: Job)
    requires LifecycleOk(t) && PcOk(t, pc) && Allowed(pc, job) && job.Start? && PerformAll(t, ScriptOf(pc, job)).Ok?
    ensures NoNewOutcome(t, PerformAll(t, ScriptOf(pc, job)).value)
  {
    PairEffect(t, ProvenanceOf(pc, job.startedAt, job.pid), pc.run, Running);
  }

  lemma {:induction false} CreateAddsNoOutcome(t: Tables, env: Entity, create: Statement)
    requires env.Other? && create.CreateRun? && PerformAll(t, [EnsureEnvironment(env), create]).Ok?
    ensures NoNewOutcome(t, PerformAll(t, [EnsureEnvironment(env), create]).value)
  {
    TwoSteps(t, EnsureEnvironment(env), create);
  }

  lemma {:induction false} CloseWrites(t: Tables, pc: Pc, job: Job, r: Id)
    requires LifecycleOk(t) && PcOk(t, pc) && Allowed(pc, job) && PerformAll(t, ScriptOf(pc, job)).Ok?
    requires job.GiveUp? || job.Close? || job.Rescue?
    requires OutcomeId(r) in PerformAll(t, ScriptOf(pc, job)).value.rows && OutcomeId(r) !in t.rows
    ensures Writes(pc, PerformAll(t, ScriptOf(pc, job)).value.rows[OutcomeId(r)].payload)
  {
    CloseScript(t, pc, job);
  }

  /** A new outcome is written by an executor that had come to write it. */
  ghost predicate Written(w: World, o: Entity) { exists i :: 0 <= i < |w.pcs| && Writes(w.pcs[i], o) }

  lemma {:induction false} CommitWrites(w: World, r: Id)
    requires WorldOk(w) && OutcomeId(r) in Committed(w).tables.rows && OutcomeId(r) !in w.tables.rows
    ensures Written(w, Committed(w).tables.rows[OutcomeId(r)].payload)
  {
    var Tx(i, job, done, work) := w.tx.value;
    assert ScriptOf(w.pcs[i], job)[..done] == ScriptOf(w.pcs[i], job);
    if job.GiveUp? || job.Close? || job.Rescue? {
      CloseWrites(w.tables, w.pcs[i], job, r);
    } else {
      OthersAddNoOutcome(w.tables, w.pcs[i], job);
    }
  }

  lemma {:induction false} StepWrites(w: World, a: Action, r: Id)
    requires WorldOk(w) && OutcomeId(r) in Next(w, a).tables.rows && OutcomeId(r) !in w.tables.rows
    ensures Written(w, Next(w, a).tables.rows[OutcomeId(r)].payload)
  {
    SameSize(w, a);
    if a.Commit? { CommitWrites(w, r); }
  }

  // Every run --------------------------------------------------------------------------------------------

  ghost predicate PcCaused(w: World, actions: seq<Action>, pc: Pc) {
    match pc
    case Diagnosing(run, _, error) => HasEnded(w, actions, IdOf(run), Bare(Some(error)))
    case Closing(run, _, failure) => HasEnded(w, actions, IdOf(run), Bare(failure))
    case Counting(run, artifacts, _) => WasGone(w, actions, IdOf(run), artifacts)
    case Rescuing(run, artifacts, _, _) => WasGone(w, actions, IdOf(run), artifacts)
    case _ => true
  }

  /** An outcome says that the run failed in preparation, or how its procedure ended, or that its process had
      gone, leaving these artifacts; and that is what happened. */
  ghost predicate OutcomeCaused(w: World, actions: seq<Action>, o: Entity) {
    match o
    case Outcome(r, _, _, _, artifacts, error) =>
      || (error.Some? && error.value.stage == Preparation)
      || HasEnded(w, actions, r, Bare(error))
      || (error == Some(ErrorInfo(Interrupted, "experionyx.ProcessEnded", None)) && WasGone(w, actions, r, artifacts))
    case _ => false
  }

  lemma {:induction false} PcCausedNext(w: World, actions: seq<Action>, before: Pc, after: Pc)
    requires actions != [] && PcCaused(w, actions[..|actions| - 1], before)
    requires Leads(Trace(w, actions[..|actions| - 1]), actions[|actions| - 1], before, after)
    ensures PcCaused(w, actions, after)
  {
    match after
    case Diagnosing(run, _, error) => EndedLater(w, actions, IdOf(run), Bare(Some(error)));
    case Closing(run, _, failure) => EndedLater(w, actions, IdOf(run), Bare(failure));
    case Counting(run, artifacts, _) => GoneLater(w, actions, IdOf(run), artifacts);
    case Rescuing(run, artifacts, _, _) => GoneLater(w, actions, IdOf(run), artifacts);
    case _ =>
  }

  lemma {:induction false} OutcomeCausedNext(w: World, actions: seq<Action>, o: Entity)
    requires actions != [] && OutcomeCaused(w, actions[..|actions| - 1], o)
    ensures OutcomeCaused(w, actions, o)
  {
    if HasEnded(w, actions[..|actions| - 1], o.run, Bare(o.error)) { EndedLater(w, actions, o.run, Bare(o.error)); }
    if WasGone(w, actions[..|actions| - 1], o.run, o.artifactIds) { GoneLater(w, actions, o.run, o.artifactIds); }
  }

  lemma {:induction false} WrittenIsCaused(w: World, actions: seq<Action>, pc: Pc, o: Entity)
    requires PcCaused(w, actions, pc) && Writes(pc, o)
    ensures OutcomeCaused(w, actions, o)
  {
  }

  lemma {:induction false} PcsHaveCauses(w: World, actions: seq<Action>, j: nat)
    requires WorldOk(w) && j < |w.pcs| && w.pcs[j].Idle?
    ensures |Trace(w, actions).pcs| == |w.pcs| && PcCaused(w, actions, Trace(w, actions).pcs[j])
  {
    if actions != [] {
      var n := |actions| - 1;
      var before := Trace(w, actions[..n]);
      PcsHaveCauses(w, actions[..n], j);
      TraceKeepsOk(w, actions[..n]);
      StepLeads(before, actions[n], j);
      PcCausedNext(w, actions, before.pcs[j], Trace(w, actions).pcs[j]);
    }
  }

  /** From executors at rest, whatever they do: every outcome stored since has the cause it states. In
      particular a run is COMPLETED only if its procedure returned and its artifacts were verified, and it is
      closed as gone only after recovery found no live process on record for it. */
  lemma {:induction false} OutcomesHaveCauses(w: World, actions: seq<Action>, r: Id)
    requires WorldOk(w) && (forall i :: 0 <= i < |w.pcs| ==> w.pcs[i].Idle?) && OutcomeId(r) !in w.tables.rows
    requires OutcomeId(r) in Trace(w, actions).tables.rows
    ensures OutcomeCaused(w, actions, Trace(w, actions).tables.rows[OutcomeId(r)].payload)
  {
    if actions != [] {
      var n := |actions| - 1;
      var before := Trace(w, actions[..n]);
      TraceKeepsOk(w, actions[..n]);
      if OutcomeId(r) in before.tables.rows {
        OutcomesHaveCauses(w, actions[..n], r);
        NextKeepsOk(before, actions[n]);
        NotAStatusRecord(before.tables, Trace(w, actions).tables, OutcomeId(r));
        OutcomeCausedNext(w, actions, before.tables.rows[OutcomeId(r)].payload);
      } else {
        NewOutcomeIsCaused(w, actions, r);
      }
    }
  }

  lemma {:induction false} NewOutcomeIsCaused(w: World, actions: seq<Action>, r: Id)
    requires WorldOk(w) && (forall i :: 0 <= i < |w.pcs| ==> w.pcs[i].Idle?) && actions != []
    requires OutcomeId(r) !in Trace(w, actions[..|actions| - 1]).tables.rows && OutcomeId(r) in Trace(w, actions).tables.rows
    ensures OutcomeCaused(w, actions, Trace(w, actions).tables.rows[OutcomeId(r)].payload)
  {
    var n := |actions| - 1;
    var before := Trace(w, actions[..n]);
    var o := Trace(w, actions).tables.rows[OutcomeId(r)].payload;
    TraceKeepsOk(w, actions[..n]);
    StepWrites(before, actions[n], r);
    var i :| 0 <= i < |before.pcs| && Writes(before.pcs[i], o);
    SizeKept(w, actions[..n]);
    PcsHaveCauses(w, actions[..n], i);
    WrittenIsCaused(w, actions[..n], before.pcs[i], o);
    OutcomeCausedNext(w, actions, o);
  }

  lemma {:induction false} SizeKept(w: World, actions: seq<Action>)
    ensures |Trace(w, actions).pcs| == |w.pcs|
  {
    if actions != [] {
      SizeKept(w, actions[..|actions| - 1]);
      SameSize(Trace(w, actions[..|actions| - 1]), actions[|actions| - 1]);
    }
  }
}
