/** One executor at work on its own connection: execute, replay and recovery step by step. */
module Execution {
  import opened Common
  import opened Domain
  import opened Store
  import opened RegistryLaws
  import opened SqliteRegistry
  import opened Lifecycle
  import opened LifecycleSteps
  import opened Recording
  import opened Executors
  import opened ExecutorSafety
  import opened ExecutorGuarantees
  import opened Procedures

  /** Nothing that was in the registry at `t0` has changed but for growth, and `pc` owns a newer run. */
  ghost predicate Underway(t0: Tables, t: Tables, pc: Pc) {
    Untouched(t0, t) && PcOk(t, pc) && Owner(pc).Some? && Owner(pc).value !in t0.rows
  }

  /** Runs recorded by `t0` are as they were. */
  ghost predicate Untouched(t0: Tables, t: Tables) { LifecycleOk(t) && Grows(t0, t) && OnlyMoves(t0, t, None) }

  lemma {:induction false} StillUntouched(t0: Tables, t: Tables, t': Tables, moved: Option<Id>, seen: Option<Id>)
    requires Untouched(t0, t) && Follows(t, t', moved, seen) && (moved.Some? ==> moved.value !in t0.rows)
    ensures Untouched(t0, t')
  {
    GrowsTransitively(t0, t, t');
    forall q | RunIs(t0, q) ensures q in t'.rows && t'.rows[q].payload == t0.rows[q].payload {
      assert RunIs(t, q) && Some(q) != moved;
    }
  }

  lemma {:induction false} StillUnderway(t0: Tables, t: Tables, pc: Pc, job: Job)
    requires Underway(t0, t, pc) && Allowed(pc, job) && PerformAll(t, ScriptOf(pc, job)).Ok?
    ensures var t' := PerformAll(t, ScriptOf(pc, job)).value;
            Untouched(t0, t') && PcOk(t', After(pc, job, t'))
  {
    JobDone(t, pc, job);
    StillUntouched(t0, t, PerformAll(t, ScriptOf(pc, job)).value, Moved(pc, job), Observes(pc, job));
  }

  /** The outcome stored for a finished run. */
  ghost predicate EndedWith(t: Tables, r: Id, o: Entity)
    requires o.Outcome?
  {
    && RunIs(t, r) && t.rows[r].payload.status == o.result
    && OutcomeId(r) in t.rows && t.rows[OutcomeId(r)].payload == o && o.run == r
  }

  lemma {:induction false} MovedEnds(t: Tables, t': Tables, o: Entity, r: Id)
    requires o.Outcome? && o.run == r && RunIs(t, r) && AddedAndMoved(t, t', o, r, o.result)
    ensures EndedWith(t', r, o) && OthersSame(t, t', r)
  {
  }

  ghost predicate OthersSame(t: Tables, t': Tables, r: Id) {
    forall id :: id in t.rows && id != r ==> id in t'.rows && t'.rows[id] == t.rows[id]
  }

  lemma {:induction false} CloseEnds(t: Tables, pc: Pc, job: Job)
    requires LifecycleOk(t) && PcOk(t, pc) && Allowed(pc, job) && (job.GiveUp? || job.Close? || job.Rescue?)
    requires PerformAll(t, ScriptOf(pc, job)).Ok?
    ensures EndedWith(PerformAll(t, ScriptOf(pc, job)).value, IdOf(pc.run), OutcomeOf(pc, job))
    ensures OthersSame(t, PerformAll(t, ScriptOf(pc, job)).value, IdOf(pc.run))
  {
    OutcomeStage(t, pc, job);
    CloseFollows(t, OutcomeOf(pc, job), pc.run);
    MovedEnds(t, PerformAll(t, ScriptOf(pc, job)).value, OutcomeOf(pc, job), IdOf(pc.run));
  }

  lemma {:induction false} ClosedProperly(t0: Tables, t: Tables, pc: Pc, job: Job)
    requires Underway(t0, t, pc) && pc.Closing? && Allowed(pc, job) && PerformAll(t, ScriptOf(pc, job)).Ok?
    ensures var t' := PerformAll(t, ScriptOf(pc, job)).value; Untouched(t0, t') && Grows(t, t')
    ensures EndedWith(PerformAll(t, ScriptOf(pc, job)).value, IdOf(pc.run), OutcomeOf(pc, job))
    ensures !InPreparationError(OutcomeOf(pc, job))
  {
    StillUnderway(t0, t, pc, job);
    JobDone(t, pc, job);
    CloseEnds(t, pc, job);
  }

  lemma {:induction false} FailureKept(t0: Tables, t: Tables, pc: Pc)
    requires Underway(t0, t, pc) && pc.Diagnosing? && StillRunning(t, pc)
    ensures Underway(t0, t, Failing(pc)) && StillRunning(t, Failing(pc))
  {
  }

  lemma {:induction false} CallKept(t0: Tables, t: Tables, pc: Pc, job: Job)
    requires Underway(t0, t, pc) && (pc.InProcedure? || pc.Diagnosing?) && StillRunning(t, pc) && Allowed(pc, job)
    requires PerformAll(t, ScriptOf(pc, job)).Ok?
    ensures var t' := PerformAll(t, ScriptOf(pc, job)).value;
            Underway(t0, t', After(pc, job, t')) && StillRunning(t', After(pc, job, t')) && Grows(t, t')
  {
    StillUnderway(t0, t, pc, job);
    CallKeepsStatus(t, pc, job);
  }

  /** The executor conducts the procedure of the run and has made its first `k` calls since `begun`. */
  ghost predicate Conducting(t0: Tables, begun: Tables, t: Tables, pc: Pc, run: Entity, calls: seq<Call>, k: nat)
    requires k <= |calls|
  {
    match pc
    case InProcedure(current, _) =>
      current == run && Underway(t0, t, pc) && StillRunning(t, pc) && Grows(begun, t) && Progress(t, pc, calls, k)
    case _ => false
  }

  lemma {:induction false} JobIsQuiet(t: Tables, pc: Pc, job: Job)
    requires LifecycleOk(t) && PcOk(t, pc) && Allowed(pc, job) && !job.Observe? && PerformAll(t, ScriptOf(pc, job)).Ok?
    ensures Quiet(t, PerformAll(t, ScriptOf(pc, job)).value)
  {
    JobDone(t, pc, job);
  }

  lemma {:induction false} FailureUnderway(t0: Tables, t: Tables, pc: Pc, error: ErrorInfo)
    requires Underway(t0, t, pc) && pc.InProcedure? && StillRunning(t, pc) && error.stage != Preparation && error.diagnostic.None?
    ensures Underway(t0, t, Diagnosing(pc.run, pc.notes, error)) && StillRunning(t, Diagnosing(pc.run, pc.notes, error))
  {
  }

  lemma {:induction false} NotesInSync(t0: Tables, t: Tables, pc: Pc)
    requires Underway(t0, t, pc) && pc.InProcedure?
    ensures InSync(t, IdOf(pc.run), pc.notes)
  {
  }

  lemma {:induction false} DiagnosticAdmittedIff(t: Tables, pc: Pc, s: Surroundings)
    requires LifecycleOk(t) && PcOk(t, pc) && pc.Diagnosing? && pc.run.Run?
    ensures PerformAll(t, ScriptOf(pc, Register(DIAGNOSTIC, s.digest, s.now))).Ok? <==> DiagnosticOf(IdOf(pc.run), s) !in t.rows
    ensures PerformAll(t, ScriptOf(pc, Register(DIAGNOSTIC, s.digest, s.now))).Ok? ==>
              Quiet(t, PerformAll(t, ScriptOf(pc, Register(DIAGNOSTIC, s.digest, s.now))).value)
    ensures Quiet(t, t)
  {
    ArtifactAdmittedIff(t, pc, Register(DIAGNOSTIC, s.digest, s.now));
    if PerformAll(t, ScriptOf(pc, Register(DIAGNOSTIC, s.digest, s.now))).Ok? { JobIsQuiet(t, pc, Register(DIAGNOSTIC, s.digest, s.now)); }
    GrowsItself(t);
  }

  lemma {:induction false} ArtifactAdmittedIff(t: Tables, pc: Pc, job: Job)
    requires Sound(t) && (pc.InProcedure? || pc.Diagnosing?) && Allowed(pc, job) && job.Register? && RunIs(t, IdOf(pc.run))
    ensures PerformAll(t, ScriptOf(pc, job)).Ok? <==> ArtifactId(IdOf(pc.run), job.path, job.digest) !in t.rows
  {
    OneStep(t, Do(Add(Artifact(IdOf(pc.run), job.path, job.digest, job.now))));
  }

  class Executor {
    const conn: Connection

    constructor (conn: Connection)
      ensures this.conn == conn
    {
      this.conn := conn;
    }

    ghost predicate Ready()
      reads conn, conn.db
    {
      conn.Valid() && conn.depth == 0
    }

    /** One statement inside an open transaction. */
    method PerformOne(s: Statement) returns (ok: bool)
      requires conn.Valid() && conn.depth > 0
      modifies conn, conn.db
      ensures conn.Valid() && conn.depth == old(conn.depth)
      ensures conn.db.committed == old(conn.db.committed) && conn.db.locked == old(conn.db.locked)
      ensures ok <==> Perform(old(conn.View()), s).Ok?
      ensures ok ==> Perform(old(conn.View()), s) == Ok(conn.View())
    {
      match s
      case Do(op) =>
        var r := conn.Apply(op);
        ok := r.Ok?;
      case EnsureEnvironment(env) =>
        if IdOf(env) in conn.View().rows {
          ok := true;
        } else {
          var r := conn.Apply(Add(env));
          ok := r.Ok?;
        }
      case CreateRun(x, env, seed, now) =>
        var r := conn.Apply(Add(Run(x, env, seed, now, NextAttempt(conn.View(), x, env, seed), Pending)));
        ok := r.Ok?;
    }

    /** A `with transaction()` block around a script: all of it is committed, or nothing. */
    method Transact(script: seq<Statement>) returns (ok: bool)
      requires Ready()
      modifies conn, conn.db
      ensures Ready() && conn.db.locked == old(conn.db.locked)
      ensures ok <==> !old(conn.db.locked) && PerformAll(old(conn.View()), script).Ok?
      ensures ok ==> PerformAll(old(conn.View()), script) == Ok(conn.View())
      ensures !ok ==> conn.View() == old(conn.View())
    {
      ghost var t := conn.View();
      var r := conn.Enter();
      if r.Err? {
        return false;
      }
      var k := 0;
      assert script[..0] == [];
      while k < |script|
        invariant 0 <= k <= |script|
        invariant conn.Valid() && conn.depth == 1 && conn.db.committed == t
        invariant PerformAll(t, script[..k]) == Ok(conn.View())
      {
        assert script[..k + 1][..k] == script[..k];
        ok := PerformOne(script[k]);
        if !ok {
          RefusedOnce(t, script, k);
          conn.Abort();
          return;
        }
        k := k + 1;
      }
      assert script[..k] == script;
      conn.Exit();
      ok := true;
    }

    /** Runs the calls of a procedure; stops at the first unhandled failure. */
    method RunCalls(p: Procedure, start: Pc, ghost t0: Tables) returns (pc: Pc, finished: bool, ghost made: nat)
      requires Ready() && !conn.db.locked && start.InProcedure? && Underway(t0, conn.View(), start)
      requires Proper(p) && StillRunning(conn.View(), start) && NoArtifactsOf(conn.View(), IdOf(start.run)) && start.notes == NOTHING
      modifies conn, conn.db
      ensures Ready() && !conn.db.locked && pc.InProcedure? && pc.run == start.run && Underway(t0, conn.View(), pc)
      ensures StillRunning(conn.View(), pc) && Grows(old(conn.View()), conn.View())
      ensures finished <==> !Stumbles(p.calls)
      ensures GotTo(p.calls, made) && Progress(conn.View(), pc, p.calls, made)
    {
      ghost var begun := conn.View();
      pc := start;
      var k := 0;
      GrowsItself(conn.View());
      NoProgress(conn.View(), start, p.calls);
      while k < |p.calls|
        invariant 0 <= k <= |p.calls| && SureFooted(p.calls, k)
        invariant Ready() && !conn.db.locked && Conducting(t0, begun, conn.View(), pc, start.run, p.calls, k)
      {
        assert p.calls[k] in p.calls;
        var ok: bool;
        pc, ok := RunCall(p.calls, k, pc, start.run, t0, begun);
        OneMoreCall(p.calls, k);
        if !ok && !p.calls[k].handled {
          return pc, false, k + 1;
        }
        k := k + 1;
      }
      finished, made := true, k;
    }

    /** One call of a procedure, which fails exactly if it registers a file again. */
    method RunCall(calls: seq<Call>, k: nat, start: Pc, ghost run: Entity, ghost t0: Tables, ghost begun: Tables)
      returns (pc: Pc, ok: bool)
      requires k < |calls| && (calls[k].job.Observe? || calls[k].job.Register?)
      requires Ready() && !conn.db.locked && Conducting(t0, begun, conn.View(), start, run, calls, k)
      modifies conn, conn.db
      ensures Ready() && !conn.db.locked && Conducting(t0, begun, conn.View(), pc, run, calls, k + 1)
      ensures !ok ==> conn.View() == old(conn.View())
      ensures ok <==> !Repeated(calls, k)
    {
      pc := start;
      var job := calls[k].job;
      ghost var before := conn.View();
      CallAdmittedIff(before, pc, calls, k);
      ok := Transact(ScriptOf(pc, job));
      if ok {
        CallKept(t0, before, pc, job);
        CallProgress(before, pc, calls, k);
        GrowsTransitively(begun, before, conn.View());
        pc := After(pc, job, conn.View());
      } else {
        RepeatProgress(before, start, calls, k);
      }
    }

    /** Keeps a diagnostic of a failure if it can. */
    method Diagnose(start: Pc, error: ErrorInfo, s: Surroundings, ghost t0: Tables) returns (pc: Pc)
      requires Ready() && !conn.db.locked && start.InProcedure? && Underway(t0, conn.View(), start)
      requires StillRunning(conn.View(), start) && error.stage != Preparation && error.diagnostic.None?
      modifies conn, conn.db
      ensures Ready() && !conn.db.locked && pc.Closing? && IdOf(pc.run) == IdOf(start.run)
      ensures Underway(t0, conn.View(), pc) && StillRunning(conn.View(), pc) && Grows(old(conn.View()), conn.View())
      ensures pc.failure.Some? && pc.failure.value.stage == error.stage && pc.failure.value.errorType == error.errorType
      ensures KeepsDiagnostic(old(conn.View()), start.notes, pc, s) && Quiet(old(conn.View()), conn.View())
    {
      ghost var before := conn.View();
      GrowsItself(before);
      pc := Diagnosing(start.run, start.notes, error);
      FailureUnderway(t0, before, start, error);
      var job := Register(DIAGNOSTIC, s.digest, s.now);
      DiagnosticAdmittedIff(before, pc, s);
      var ok := Transact(ScriptOf(pc, job));
      if ok {
        CallKept(t0, before, pc, job);
        pc := After(pc, job, conn.View());
      } else {
        FailureKept(t0, before, pc);
        pc := Failing(pc);
      }
    }

    /** Writes the outcome with the final status. */
    method Finalize(pc: Pc, s: Surroundings, ghost t0: Tables) returns (outcome: Entity)
      requires Ready() && !conn.db.locked && pc.Closing? && Underway(t0, conn.View(), pc) && StillRunning(conn.View(), pc)
      modifies conn, conn.db
      ensures Ready() && !conn.db.locked && Untouched(t0, conn.View()) && Grows(old(conn.View()), conn.View())
      ensures outcome.Outcome? && EndedWith(conn.View(), IdOf(pc.run), outcome) && !InPreparationError(outcome)
      ensures outcome.result == (if pc.failure.Some? then Failed else Completed) && outcome.error == pc.failure
      ensures outcome.observationCount == |pc.notes.observations| && outcome.finishedAt == s.now
      ensures forall a :: a in outcome.artifactIds <==> a in pc.notes.artifacts
      ensures Quiet(old(conn.View()), conn.View())
    {
      ghost var before := conn.View();
      FinalizerRefusedIff(before, pc, s.now);
      var _ := Transact(ScriptOf(pc, Close(s.now)));
      ClosedProperly(t0, before, pc, Close(s.now));
      JobIsQuiet(before, pc, Close(s.now));
      outcome := OutcomeOf(pc, Close(s.now));
    }

    /** Creates the PENDING run under the next free attempt number. */
    method CreateRun(pc: Pc, s: Surroundings) returns (r: Result<Pc, Error>)
      requires Ready() && LifecycleOk(conn.View()) && IsEnvironment(s.env) && pc.Creating? && PcOk(conn.View(), pc)
      modifies conn, conn.db
      ensures Ready() && conn.db.locked == old(conn.db.locked)
      ensures r.Ok? <==> !old(conn.db.locked) && Perform(old(conn.View()), EnsureEnvironment(s.env)).Ok?
      ensures r.Ok? ==>
                && Underway(old(conn.View()), conn.View(), r.value) && r.value.Preparing? && r.value.replayOf == pc.replayOf
                && CreatedFor(old(conn.View()), r.value, pc.experiment, pc.configuration, pc.seed, s)
                && OnlyNewRun(old(conn.View()), conn.View(), IdOf(r.value.run))
                && NoArtifactsOf(conn.View(), IdOf(r.value.run))
      ensures r.Err? ==> conn.View() == old(conn.View())
    {
      var create := Create(s.env, s.now);
      CreateSucceeds(conn.View(), pc, create);
      ghost var t0 := conn.View();
      var ok := Transact(ScriptOf(pc, create));
      if !ok {
        return Err(Busy);
      }
      CreateStarts(t0, pc, create);
      CreatedAsAsked(t0, pc, create, s);
      CreatesOneRun(t0, pc, create);
      CreatesBareRun(t0, pc, create);
      r := Ok(After(pc, create, conn.View()));
    }

    /** Records the provenance with RUNNING, or else the failure of the preparation. */
    method StartRun(pc: Pc, s: Surroundings, ghost t0: Tables) returns (r: Result<Pc, Error>)
      requires Ready() && !conn.db.locked && Underway(t0, conn.View(), pc) && pc.Preparing?
      requires NoArtifactsOf(conn.View(), IdOf(pc.run))
      modifies conn, conn.db
      ensures Ready() && !conn.db.locked
      ensures r.Ok? ==> NoArtifactsOf(conn.View(), IdOf(pc.run))
      ensures r.Ok? <==> s.bound && s.prepared && old(ReplayAdmissible(conn.View(), IdOf(pc.run), pc.replayOf))
      ensures r.Ok? ==>
                && r.value.InProcedure? && IdOf(r.value.run) == IdOf(pc.run) && r.value.notes == NOTHING
                && Underway(t0, conn.View(), r.value) && StillRunning(conn.View(), r.value)
                && StartedAs(conn.View(), pc, s)
      ensures r.Err? ==> Untouched(t0, conn.View()) && PreparationFailed(t0, conn.View(), pc.run, s.now)
    {
      ghost var created := conn.View();
      var ok := s.bound && s.prepared;
      var start := Start(s.now, s.pid);
      StartAdmittedIff(created, pc, s.now, s.pid);
      if ok {
        ok := Transact(ScriptOf(pc, start));
      }
      if ok {
        StillUnderway(t0, created, pc, start);
        StartRuns(t0, created, pc, start);
        StartIsRecorded(created, pc, start, s);
        StartAddsNoArtifact(created, pc, start);
        r := Ok(After(pc, start, conn.View()));
      } else {
        RecordFailure(Failing(pc), s, t0);
        r := Err(Invalid);
      }
    }

    /** PENDING to FAILED, so that the aborted preparation stays visible. */
    method RecordFailure(pc: Pc, s: Surroundings, ghost t0: Tables)
      requires Ready() && !conn.db.locked && Underway(t0, conn.View(), pc) && pc.Unstarted?
      modifies conn, conn.db
      ensures Ready() && !conn.db.locked
      ensures Untouched(t0, conn.View()) && PreparationFailed(t0, conn.View(), pc.run, s.now)
    {
      var giveUp := GiveUp(s.now, "PreparationError");
      GivingUpSucceeds(conn.View(), pc, s.now, "PreparationError");
      StillUnderway(t0, conn.View(), pc, giveUp);
      GivenUp(t0, conn.View(), pc, giveUp);
      var _ := Transact(ScriptOf(pc, giveUp));
    }

    /** Closes a run whose procedure has ended, with the error if there is one. */
    method CloseRun(pc: Pc, error: Option<ErrorInfo>, s: Surroundings, ghost t0: Tables) returns (outcome: Entity)
      requires Ready() && !conn.db.locked && pc.InProcedure? && Underway(t0, conn.View(), pc) && StillRunning(conn.View(), pc)
      requires error.Some? ==> error.value.stage != Preparation && error.value.diagnostic.None?
      modifies conn, conn.db
      ensures Ready() && !conn.db.locked && Untouched(t0, conn.View()) && Grows(old(conn.View()), conn.View())
      ensures outcome.Outcome? && EndedWith(conn.View(), IdOf(pc.run), outcome) && Records(outcome, error)
      ensures ClosesWith(old(conn.View()), pc.notes, outcome, error.Some?, s) && Quiet(old(conn.View()), conn.View())
    {
      if error.Some? {
        outcome := CloseFailed(pc, error.value, s, t0);
      } else {
        outcome := Finalize(Closing(pc.run, pc.notes, None), s, t0);
        SuccessClosesWith(old(conn.View()), Closing(pc.run, pc.notes, None), outcome, s);
      }
    }

    method CloseFailed(pc: Pc, error: ErrorInfo, s: Surroundings, ghost t0: Tables) returns (outcome: Entity)
      requires Ready() && !conn.db.locked && pc.InProcedure? && Underway(t0, conn.View(), pc) && StillRunning(conn.View(), pc)
      requires error.stage != Preparation && error.diagnostic.None?
      modifies conn, conn.db
      ensures Ready() && !conn.db.locked && Untouched(t0, conn.View()) && Grows(old(conn.View()), conn.View())
      ensures outcome.Outcome? && EndedWith(conn.View(), IdOf(pc.run), outcome) && Records(outcome, Some(error))
      ensures ClosesWith(old(conn.View()), pc.notes, outcome, true, s) && Quiet(old(conn.View()), conn.View())
    {
      var closing := Diagnose(pc, error, s, t0);
      ghost var closable := conn.View();
      outcome := Finalize(closing, s, t0);
      FailureClosesWith(old(conn.View()), pc.notes, closing, outcome, s);
      GrowsTransitively(old(conn.View()), closable, conn.View());
      QuietTransitively(old(conn.View()), closable, conn.View());
    }

    /** Calls the procedure and closes the run. */
    method Conduct(pc: Pc, s: Surroundings, p: Procedure, ghost t0: Tables) returns (outcome: Entity)
      requires Ready() && !conn.db.locked && pc.InProcedure? && Underway(t0, conn.View(), pc) && Proper(p)
      requires StillRunning(conn.View(), pc) && NoArtifactsOf(conn.View(), IdOf(pc.run)) && pc.notes == NOTHING
      modifies conn, conn.db
      ensures Ready() && !conn.db.locked && Untouched(t0, conn.View()) && Grows(old(conn.View()), conn.View())
      ensures outcome.Outcome? && EndedWith(conn.View(), IdOf(pc.run), outcome) && Records(outcome, FailureOf(p))
      ensures Worked(conn.View(), outcome, p.calls, s)
    {
      var after, finished, made := RunCalls(p, pc, t0);
      ghost var called := conn.View();
      var error := ErrorAfter(finished, p.ending);
      ErrorIsFailure(p, finished);
      outcome := CloseRun(after, error, s, t0);
      GrowsTransitively(old(conn.View()), called, conn.View());
      NotesInSync(t0, called, after);
      WorkIsAccounted(called, conn.View(), after, outcome, p.calls, made, s);
    }

    /** Creates and starts a run, or else writes nothing or the failure of its preparation. */
    method Launch(x: Id, seed: nat, replayOf: Option<Id>, s: Surroundings, ghost t0: Tables) returns (r: Result<Pc, Error>)
      requires Ready() && LifecycleOk(conn.View()) && IsEnvironment(s.env) && t0 == conn.View()
      modifies conn, conn.db
      ensures Ready() && conn.db.locked == old(conn.db.locked)
      ensures r.Ok? <==> Begins(t0, x, replayOf, s, conn.db.locked)
      ensures r.Ok? ==>
                && !conn.db.locked && r.value.InProcedure? && Underway(t0, conn.View(), r.value) && StillRunning(conn.View(), r.value)
                && r.value.notes == NOTHING && NoArtifactsOf(conn.View(), IdOf(r.value.run)) && NewRun(t0, conn.View(), IdOf(r.value.run), x, seed, replayOf, s)
      ensures !Startable(t0, x, s, conn.db.locked) ==> conn.View() == t0
      ensures r.Err? && Startable(t0, x, s, conn.db.locked) ==>
                Untouched(t0, conn.View()) && LeftFailed(t0, conn.View(), x, seed, s)
    {
      StartableIff(t0, x, s, conn.db.locked);
      if !Executable(conn.View(), x) {
        return Err(Invalid);
      }
      var created := CreateRun(Creating(x, conn.View().rows[x].payload.configuration, seed, replayOf), s);
      if created.Err? {
        return Err(created.error);
      }
      BeginsIff(t0, conn.View(), created.value, x, s, conn.db.locked);
      r := StartRun(created.value, s, t0);
      if r.Ok? {
        LaunchedRun(t0, conn.View(), created.value, x, seed, s);
      } else {
        FailedRun(t0, conn.View(), created.value, x, seed, s);
      }
    }

    /** A new run of the experiment, from creation to its outcome. Earlier runs are not touched. An
        interrupt is recorded like any failure and then raised again; any other exception means that
        nothing was written, or that a run that failed in preparation was. */
    method Execute(x: Id, seed: nat, replayOf: Option<Id>, s: Surroundings, p: Procedure) returns (r: Reply)
      requires Ready() && LifecycleOk(conn.View()) && IsEnvironment(s.env) && Proper(p)
      modifies conn, conn.db
      ensures Ready() && conn.db.locked == old(conn.db.locked) && Untouched(old(conn.View()), conn.View())
      ensures r.Refused? <==> !Begins(old(conn.View()), x, replayOf, s, old(conn.db.locked))
      ensures r.Reraised? <==> Begins(old(conn.View()), x, replayOf, s, old(conn.db.locked)) && Interrupts(p)
      ensures r.Closed? ==> r.outcome.Outcome? && Ran(old(conn.View()), conn.View(), r.outcome, x, seed, replayOf, s, p)
      ensures r.Reraised? ==> Recorded(old(conn.View()), conn.View(), x, seed, replayOf, s, p)
      ensures !Startable(old(conn.View()), x, s, old(conn.db.locked)) ==> conn.View() == old(conn.View())
      ensures r.Refused? && Startable(old(conn.View()), x, s, old(conn.db.locked)) ==>
                LeftFailed(old(conn.View()), conn.View(), x, seed, s)
    {
      ghost var t0 := conn.View();
      var launched := Launch(x, seed, replayOf, s, t0);
      if launched.Err? {
        GrowsItself(t0);
        return Refused(launched.error);
      }
      ghost var begun := conn.View();
      var outcome := Conduct(launched.value, s, p, t0);
      RunIsRecorded(t0, begun, conn.View(), outcome, x, seed, replayOf, s, p);
      AnswerIs(outcome, p);
      r := Answer(outcome);
    }

    /** Asks for a new run from a finished run's records. */
    method Replay(original: Id, s: Surroundings, p: Procedure) returns (r: Reply)
      requires Ready() && LifecycleOk(conn.View()) && IsEnvironment(s.env) && Proper(p)
      modifies conn, conn.db
      ensures Ready() && conn.db.locked == old(conn.db.locked) && Untouched(old(conn.View()), conn.View())
      ensures r.Refused? <==> !ReplayBegins(old(conn.View()), original, s, old(conn.db.locked))
      ensures r.Reraised? <==> ReplayBegins(old(conn.View()), original, s, old(conn.db.locked)) && Interrupts(p)
      ensures r.Closed? ==>
                var t := old(conn.View());
                && r.outcome.Outcome?
                && Ran(t, conn.View(), r.outcome, t.rows[original].payload.experiment, t.rows[ProvenanceId(original)].payload.seed, Some(original), s, p)
      ensures r.Reraised? ==>
                var t := old(conn.View());
                Recorded(t, conn.View(), t.rows[original].payload.experiment, t.rows[ProvenanceId(original)].payload.seed, Some(original), s, p)
      ensures !Replayable(old(conn.View()), original) ==> conn.View() == old(conn.View())
    {
      ghost var t0 := conn.View();
      var pc := ReplayFrom(conn.View(), original);
      ReplayNeeds(t0, original);
      if Replayable(t0, original) { StartableIff(t0, t0.rows[original].payload.experiment, s, conn.db.locked); }
      if !pc.Creating? {
        assert Untouched(t0, t0) by { GrowsItself(t0); }
        return Refused(Invalid);
      }
      r := Execute(pc.experiment, pc.seed, pc.replayOf, s, p);
    }
  }

  // What a caller gets ---------------------------------------------------------------------------------

  /** A result, an interrupt raised again after its run was closed, or a refusal. */
  datatype Reply = Closed(outcome: Entity) | Reraised | Refused(error: Error)

  function Answer(o: Entity): Reply
    requires o.Outcome?
  {
    if o.error.Some? && o.error.value.stage == Interrupted then Reraised else Closed(o)
  }

  lemma {:induction false} AnswerIs(o: Entity, p: Procedure)
    requires o.Outcome? && Proper(p) && Records(o, FailureOf(p))
    ensures Answer(o).Reraised? <==> Interrupts(p)
    ensures !InPreparationError(o)
  {
  }

  lemma {:induction false} CallAdmittedIff(t: Tables, pc: Pc, calls: seq<Call>, k: nat)
    requires LifecycleOk(t) && PcOk(t, pc) && k < |calls| && pc.InProcedure? && Allowed(pc, calls[k].job)
    requires calls[k].job.Observe? || calls[k].job.Register?
    requires ArtifactsMatch(t, IdOf(pc.run), calls, k)
    ensures PerformAll(t, ScriptOf(pc, calls[k].job)).Ok? <==> !Repeated(calls, k)
  {
    var job := calls[k].job;
    if job.Observe? {
      ObserveAdmitted(t, pc, job);
    } else {
      ArtifactAdmittedIff(t, pc, job);
    }
  }

  lemma {:induction false} NoArtifactsYet(t: Tables, r: Id)
    requires Sound(t) && r !in t.rows
    ensures NoArtifactsOf(t, r)
  {
    forall id | id in t.rows && id.ArtifactId? ensures id.run != r {
      assert IdOf(t.rows[id].payload) == id;
      if id.run == r { RefResolves(t, id, r); }
    }
  }

  lemma {:induction false} CreatesBareRun(t0: Tables, pc: Pc, job: Job)
    requires LifecycleOk(t0) && Allowed(pc, job) && job.Create? && PerformAll(t0, ScriptOf(pc, job)).Ok?
    ensures var t := PerformAll(t0, ScriptOf(pc, job)).value; LastAdded(t).Some? && NoArtifactsOf(t, IdOf(LastAdded(t).value))
  {
    var create := CreateRun(pc.experiment, IdOf(job.env), pc.seed, job.now);
    TwoSteps(t0, EnsureEnvironment(job.env), create);
    var t1 := Perform(t0, EnsureEnvironment(job.env)).value;
    EnvironmentFollows(t0, job.env);
    RunIsAdded(t1, create);
    NoArtifactsYet(t1, IdOf(LastAdded(Perform(t1, create).value).value));
  }

  lemma {:induction false} StartAddsNoArtifact(t: Tables, pc: Pc, job: Job)
    requires LifecycleOk(t) && PcOk(t, pc) && pc.Preparing? && Allowed(pc, job) && job.Start? && PerformAll(t, ScriptOf(pc, job)).Ok?
    requires NoArtifactsOf(t, IdOf(pc.run))
    ensures NoArtifactsOf(PerformAll(t, ScriptOf(pc, job)).value, IdOf(pc.run))
  {
    PairEffect(t, ProvenanceOf(pc, job.startedAt, job.pid), pc.run, Running);
  }

  /** The run is created and started. */
  ghost predicate Begins(t: Tables, x: Id, replayOf: Option<Id>, s: Surroundings, locked: bool) {
    Startable(t, x, s, locked) && s.bound && s.prepared && Original(t, x, replayOf)
  }

  ghost predicate ReplayBegins(t: Tables, original: Id, s: Surroundings, locked: bool) {
    && Replayable(t, original) && Startable(t, t.rows[original].payload.experiment, s, locked)
    && s.bound && s.prepared
  }

  /** The outcome of a new run with its provenance, as the procedure earned it. */
  ghost predicate Recorded(t0: Tables, t: Tables, x: Id, seed: nat, replayOf: Option<Id>, s: Surroundings, p: Procedure)
    requires Proper(p)
  {
    exists o: Entity :: o.Outcome? && Ran(t0, t, o, x, seed, replayOf, s, p)
  }

  /** The outcome is the one stored for a new run with its provenance, and says how the procedure ended. */
  ghost predicate Ran(t0: Tables, t: Tables, o: Entity, x: Id, seed: nat, replayOf: Option<Id>, s: Surroundings, p: Procedure)
    requires Proper(p)
  {
    match o
    case Outcome(r, _, _, _, _, _) =>
      NewRun(t0, t, r, x, seed, replayOf, s) && EndedWith(t, r, o) && Records(o, FailureOf(p)) && Worked(t, o, p.calls, s)
    case _ => false
  }

  /** Finished, and started once: its provenance is on record. */
  ghost predicate Replayable(t: Tables, r: Id) {
    RunIs(t, r) && Finished(t.rows[r].payload.status) && ProvenanceId(r) in t.rows && t.rows[ProvenanceId(r)].payload.Provenance?
  }

  lemma {:induction false} ReplayNeeds(t: Tables, r: Id)
    requires LifecycleOk(t)
    ensures var pc := ReplayFrom(t, r);
            pc.Creating? ==>
              && Replayable(t, r) && pc.replayOf == Some(r)
              && pc.experiment == t.rows[r].payload.experiment && pc.seed == t.rows[ProvenanceId(r)].payload.seed
    ensures ReplayFrom(t, r).Creating? <==> Replayable(t, r) && Executable(t, t.rows[r].payload.experiment)
  {
    if Replayable(t, r) { ProvenanceFound(t, r); }
  }

  lemma {:induction false} ProvenanceFound(t: Tables, r: Id)
    requires Sound(t) && ProvenanceId(r) in t.rows && t.rows[ProvenanceId(r)].payload.Provenance?
    ensures ProvenanceId(r) in Select(t, Provenances, ByRun(r))
  {
    var e := t.rows[ProvenanceId(r)].payload;
    assert IdOf(e) == ProvenanceId(r);
    assert "run_id" in ColumnsOf(e) && ColumnsOf(e)["run_id"] == Some(IdCell(e.run));
  }

  /** The experiment is READY, RUNNING or COMPLETED, the environment snapshot is there or mentions only what
      is there, and the lock is free. */
  ghost predicate Startable(t: Tables, x: Id, s: Surroundings, locked: bool) {
    && x in t.rows && t.rows[x].payload.Experiment?
    && var status := t.rows[x].payload.experimentStatus;
    && (status.Ready? || status.Executing? || status.Done?)
    && s.env.Other? && (IdOf(s.env) in t.rows || forall k :: 0 <= k < |s.env.refs| ==> s.env.refs[k] in t.rows)
    && !locked
  }

  lemma {:induction false} StartableIff(t: Tables, x: Id, s: Surroundings, locked: bool)
    requires IsEnvironment(s.env)
    ensures Startable(t, x, s, locked) <==> Executable(t, x) && !locked && Perform(t, EnsureEnvironment(s.env)).Ok?
  {
    SnapshotAdmitted(t, s.env);
  }

  lemma {:induction false} SnapshotAdmitted(t: Tables, env: Entity)
    requires env.Other?
    ensures Perform(t, EnsureEnvironment(env)).Ok? <==>
            IdOf(env) in t.rows || forall k :: 0 <= k < |env.refs| ==> env.refs[k] in t.rows
  {
    assert Refs(env) == set r | r in env.refs;
    if Refs(env) <= t.rows.Keys {
      forall k | 0 <= k < |env.refs| ensures env.refs[k] in t.rows { assert env.refs[k] in Refs(env); }
    }
  }

  /** The attempts at `t0` were exactly the numbers below `n`. */
  ghost predicate FirstFree(t0: Tables, x: Id, env: Id, seed: nat, n: nat) {
    forall m: nat :: RunId(x, env, seed, m) in t0.rows <==> m < n
  }

  /** The run in preparation was created at `now` as the next attempt at the experiment under this seed in
      this environment. */
  ghost predicate CreatedFor(t0: Tables, pc: Pc, x: Id, configuration: Id, seed: nat, s: Surroundings)
    requires pc.Preparing? && pc.run.Run?
  {
    && pc.run.experiment == x && pc.run.environment == IdOf(s.env) && pc.run.seed == seed && pc.run.createdAt == s.now
    && FirstFree(t0, x, IdOf(s.env), seed, pc.run.attempt) && pc.configuration == configuration
  }

  /** The run's provenance says when it was started, by which process, and from what. */
  ghost predicate StartedAs(t: Tables, pc: Pc, s: Surroundings)
    requires pc.Preparing? && pc.run.Run?
  {
    && RunIs(t, IdOf(pc.run)) && SameButStatus(pc.run, t.rows[IdOf(pc.run)].payload)
    && ProvenanceId(IdOf(pc.run)) in t.rows
    && t.rows[ProvenanceId(IdOf(pc.run))].payload ==
       Provenance(IdOf(pc.run), pc.run.experiment, pc.run.environment, pc.configuration, pc.run.seed, s.now, s.pid, pc.replayOf)
  }

  function Record(t: Tables, id: Id): Option<Entity> { if id in t.rows then Some(t.rows[id].payload) else None }

  /** A run that did not exist at `t0`: the next attempt at the experiment under the seed, created and started
      in these surroundings, with its provenance. */
  ghost predicate NewRun(t0: Tables, t: Tables, r: Id, x: Id, seed: nat, replayOf: Option<Id>, s: Surroundings) {
    match Record(t, r)
    case Some(Run(experiment, environment, runSeed, createdAt, attempt, _)) =>
      && r !in t0.rows && x in t0.rows && t0.rows[x].payload.Experiment?
      && experiment == x && environment == IdOf(s.env) && runSeed == seed && createdAt == s.now
      && FirstFree(t0, x, IdOf(s.env), seed, attempt)
      && Record(t, ProvenanceId(r)) ==
         Some(Provenance(r, x, IdOf(s.env), t0.rows[x].payload.configuration, seed, s.now, s.pid, replayOf))
    case _ => false
  }

  lemma {:induction false} LaunchedRun(t0: Tables, t: Tables, pc: Pc, x: Id, seed: nat, s: Surroundings)
    requires pc.Preparing? && pc.run.Run? && x in t0.rows && t0.rows[x].payload.Experiment? && IdOf(pc.run) !in t0.rows
    requires CreatedFor(t0, pc, x, t0.rows[x].payload.configuration, seed, s) && StartedAs(t, pc, s)
    ensures NewRun(t0, t, IdOf(pc.run), x, seed, pc.replayOf, s)
  {
  }

  /** The new run never started: it is FAILED in preparation, without provenance, observations or artifacts. */
  ghost predicate PreparationFailed(t0: Tables, t: Tables, run: Entity, now: int)
    requires run.Run?
  {
    var r := IdOf(run);
    && r !in t0.rows && RunIs(t, r) && t.rows[r].payload == run.(status := Failed) && ProvenanceId(r) !in t.rows
    && OutcomeId(r) in t.rows && t.rows[OutcomeId(r)].payload.Outcome?
    && var o := t.rows[OutcomeId(r)].payload;
    && o.finishedAt == now && o.observationCount == 0 && o.artifactIds == {} && o.error.Some?
    && o.error.value.stage == Preparation && o.error.value.diagnostic.None?
  }

  ghost predicate LeftFailed(t0: Tables, t: Tables, x: Id, seed: nat, s: Surroundings) {
    exists pc: Pc :: pc.Preparing? && pc.run.Run? && CreatedFor(t0, pc, x, pc.configuration, seed, s) && PreparationFailed(t0, t, pc.run, s.now)
  }

  lemma {:induction false} FailedRun(t0: Tables, t: Tables, pc: Pc, x: Id, seed: nat, s: Surroundings)
    requires pc.Preparing? && pc.run.Run? && CreatedFor(t0, pc, x, pc.configuration, seed, s) && PreparationFailed(t0, t, pc.run, s.now)
    ensures LeftFailed(t0, t, x, seed, s)
  {
  }

  lemma {:induction false} NewRunStays(t0: Tables, t: Tables, t': Tables, r: Id, x: Id, seed: nat, replayOf: Option<Id>, s: Surroundings)
    requires NewRun(t0, t, r, x, seed, replayOf, s) && Grows(t, t')
    ensures NewRun(t0, t', r, x, seed, replayOf, s)
  {
  }

  lemma {:induction false} RunIsRecorded(t0: Tables, t: Tables, t': Tables, o: Entity, x: Id, seed: nat, replayOf: Option<Id>,
                                         s: Surroundings, p: Procedure)
    requires o.Outcome? && Proper(p) && NewRun(t0, t, o.run, x, seed, replayOf, s) && Grows(t, t')
    requires EndedWith(t', o.run, o) && Records(o, FailureOf(p)) && Worked(t', o, p.calls, s)
    ensures Ran(t0, t', o, x, seed, replayOf, s, p) && Recorded(t0, t', x, seed, replayOf, s, p)
  {
    NewRunStays(t0, t, t', o.run, x, seed, replayOf, s);
    assert Ran(t0, t', o, x, seed, replayOf, s, p);
  }

  /** Creating a run fails only with its environment snapshot. */
  lemma {:induction false} CreateSucceeds(t: Tables, pc: Pc, job: Job)
    requires LifecycleOk(t) && PcOk(t, pc) && Allowed(pc, job) && job.Create?
    ensures PerformAll(t, ScriptOf(pc, job)).Ok? <==> Perform(t, EnsureEnvironment(job.env)).Ok?
  {
    var ensure, create := EnsureEnvironment(job.env), CreateRun(pc.experiment, IdOf(job.env), pc.seed, job.now);
    TwoSteps(t, ensure, create);
    if Perform(t, ensure).Ok? {
      EnvironmentFollows(t, job.env);
      EnvironmentIsThere(t, job.env);
      ExperimentIsThere(t, Perform(t, ensure).value, pc.experiment, pc.configuration);
      NextRunIsFresh(Perform(t, ensure).value, pc.experiment, IdOf(job.env), pc.seed, job.now);
    }
  }

  lemma {:induction false} EnvironmentIsThere(t: Tables, env: Entity)
    requires IsEnvironment(env) && Perform(t, EnsureEnvironment(env)).Ok?
    ensures IdOf(env) in Perform(t, EnsureEnvironment(env)).value.rows && Names(IdOf(env), "environment")
  {
  }

  lemma {:induction false} ExperimentIsThere(t: Tables, t': Tables, x: Id, configuration: Id)
    requires Listed(t) && Grows(t, t') && Configured(t, x, configuration)
    ensures x in t'.rows && x.ExperimentId?
  {
    assert IdOf(t.rows[x].payload) == x;
  }

  lemma {:induction false} CreateStarts(t0: Tables, pc: Pc, job: Job)
    requires LifecycleOk(t0) && PcOk(t0, pc) && Allowed(pc, job) && job.Create? && PerformAll(t0, ScriptOf(pc, job)).Ok?
    ensures var t := PerformAll(t0, ScriptOf(pc, job)).value;
            var next := After(pc, job, t);
            Underway(t0, t, next) && next.Preparing? && next.replayOf == pc.replayOf
  {
    var t := PerformAll(t0, ScriptOf(pc, job)).value;
    assert ExecutorSafety.Done(t0, pc, job, t) by { JobDone(t0, pc, job); }
    assert LastAdded(t).Some? && LastAdded(t).value.Run? by { CreatesOneRun(t0, pc, job); }
    CreationUnderway(t0, t, pc, job);
  }

  lemma {:induction false} CreationUnderway(t0: Tables, t: Tables, pc: Pc, job: Job)
    requires Allowed(pc, job) && job.Create? && ExecutorSafety.Done(t0, pc, job, t) && LastAdded(t).Some? && LastAdded(t).value.Run?
    ensures Underway(t0, t, After(pc, job, t)) && After(pc, job, t).Preparing? && After(pc, job, t).replayOf == pc.replayOf
  {
  }

  lemma {:induction false} CreatedAsAsked(t0: Tables, pc: Pc, job: Job, s: Surroundings)
    requires LifecycleOk(t0) && Allowed(pc, job) && job == Create(s.env, s.now) && PerformAll(t0, ScriptOf(pc, job)).Ok?
    ensures var next := After(pc, job, PerformAll(t0, ScriptOf(pc, job)).value);
            next.Preparing? && next.run.Run? && CreatedFor(t0, next, pc.experiment, pc.configuration, pc.seed, s)
  {
    var create := CreateRun(pc.experiment, IdOf(s.env), pc.seed, s.now);
    TwoSteps(t0, EnsureEnvironment(s.env), create);
    var t1 := Perform(t0, EnsureEnvironment(s.env)).value;
    EnvironmentFollows(t0, s.env);
    SameAttempts(t0, s.env, pc.experiment, pc.seed);
    AttemptsAreDense(t1, pc.experiment, IdOf(s.env), pc.seed);
  }

  /** Taking the snapshot makes no attempt. */
  lemma {:induction false} SameAttempts(t: Tables, env: Entity, x: Id, seed: nat)
    requires env.Other? && Perform(t, EnsureEnvironment(env)).Ok?
    ensures forall m: nat :: RunId(x, IdOf(env), seed, m) in t.rows <==>
              RunId(x, IdOf(env), seed, m) in Perform(t, EnsureEnvironment(env)).value.rows
  {
  }

  /** The run is the only one that was not there before. */
  ghost predicate OnlyNewRun(t0: Tables, t: Tables, r: Id) {
    RunIs(t, r) && r !in t0.rows && forall q :: RunIs(t, q) && q != r ==> RunIs(t0, q) && t.rows[q] == t0.rows[q]
  }

  lemma {:induction false} EnvironmentAddsNoRun(t: Tables, env: Entity)
    requires env.Other? && Perform(t, EnsureEnvironment(env)).Ok?
    ensures forall q :: RunIs(Perform(t, EnsureEnvironment(env)).value, q) ==>
              RunIs(t, q) && Perform(t, EnsureEnvironment(env)).value.rows[q] == t.rows[q]
    ensures t.rows.Keys <= Perform(t, EnsureEnvironment(env)).value.rows.Keys
  {
  }

  lemma {:induction false} RunIsAdded(t: Tables, create: Statement)
    requires create.CreateRun? && Perform(t, create).Ok?
    ensures LastAdded(Perform(t, create).value).Some? && LastAdded(Perform(t, create).value).value.Run?
    ensures OnlyNewRun(t, Perform(t, create).value, IdOf(LastAdded(Perform(t, create).value).value))
  {
  }

  lemma {:induction false} CreatesOneRun(t0: Tables, pc: Pc, job: Job)
    requires Allowed(pc, job) && job.Create? && PerformAll(t0, ScriptOf(pc, job)).Ok?
    ensures var t := PerformAll(t0, ScriptOf(pc, job)).value; LastAdded(t).Some? && OnlyNewRun(t0, t, IdOf(LastAdded(t).value))
  {
    var create := CreateRun(pc.experiment, IdOf(job.env), pc.seed, job.now);
    TwoSteps(t0, EnsureEnvironment(job.env), create);
    EnvironmentAddsNoRun(t0, job.env);
    RunIsAdded(Perform(t0, EnsureEnvironment(job.env)).value, create);
  }

  /** A run that a new run of the experiment may replay. */
  ghost predicate Original(t: Tables, x: Id, replayOf: Option<Id>) {
    replayOf.Some? ==> RunIs(t, replayOf.value) && t.rows[replayOf.value].payload.experiment == x
  }

  lemma {:induction false} SameOriginals(t0: Tables, t: Tables, run: Entity, replayOf: Option<Id>)
    requires Grows(t0, t) && run.Run? && OnlyNewRun(t0, t, IdOf(run)) && t.rows[IdOf(run)].payload == run
    ensures ReplayAdmissible(t, IdOf(run), replayOf) <==> Original(t0, run.experiment, replayOf)
  {
  }

  lemma {:induction false} BeginsIff(t0: Tables, t: Tables, pc: Pc, x: Id, s: Surroundings, locked: bool)
    requires pc.Preparing? && pc.run.Run? && pc.run.experiment == x && Startable(t0, x, s, locked)
    requires Grows(t0, t) && OnlyNewRun(t0, t, IdOf(pc.run)) && t.rows[IdOf(pc.run)].payload == pc.run
    ensures Begins(t0, x, pc.replayOf, s, locked) <==>
            s.bound && s.prepared && ReplayAdmissible(t, IdOf(pc.run), pc.replayOf)
  {
    SameOriginals(t0, t, pc.run, pc.replayOf);
  }

  lemma {:induction false} StartRuns(t0: Tables, t: Tables, pc: Pc, job: Job)
    requires Underway(t0, t, pc) && Allowed(pc, job) && job.Start? && PerformAll(t, ScriptOf(pc, job)).Ok?
    ensures var t' := PerformAll(t, ScriptOf(pc, job)).value;
            StillRunning(t', After(pc, job, t'))
  {
    PairEffect(t, ProvenanceOf(pc, job.startedAt, job.pid), pc.run, Running);
  }

  lemma {:induction false} StartIsRecorded(t: Tables, pc: Pc, job: Job, s: Surroundings)
    requires LifecycleOk(t) && PcOk(t, pc) && pc.Preparing? && Allowed(pc, job) && job == Start(s.now, s.pid)
    requires PerformAll(t, ScriptOf(pc, job)).Ok?
    ensures StartedAs(PerformAll(t, ScriptOf(pc, job)).value, pc, s)
  {
    PairEffect(t, ProvenanceOf(pc, s.now, s.pid), pc.run, Running);
  }

  lemma {:induction false} GivenUp(t0: Tables, t: Tables, pc: Pc, job: Job)
    requires Underway(t0, t, pc) && pc.Unstarted? && Allowed(pc, job) && job.GiveUp? && PerformAll(t, ScriptOf(pc, job)).Ok?
    ensures PreparationFailed(t0, PerformAll(t, ScriptOf(pc, job)).value, pc.run, job.now)
  {
    assert RunOk(t, IdOf(pc.run));
    PairEffect(t, OutcomeOf(pc, job), pc.run, Failed);
  }

  ghost predicate StillRunning(t: Tables, pc: Pc)
    requires pc.InProcedure? || pc.Diagnosing? || pc.Closing?
  {
    RunIs(t, IdOf(pc.run)) && t.rows[IdOf(pc.run)].payload.status == Running
  }

  lemma {:induction false} CallKeepsStatus(t: Tables, pc: Pc, job: Job)
    requires LifecycleOk(t) && PcOk(t, pc) && Allowed(pc, job) && (job.Observe? || job.Register?)
    requires PerformAll(t, ScriptOf(pc, job)).Ok?
    ensures var t' := PerformAll(t, ScriptOf(pc, job)).value; StillRunning(t', pc) == StillRunning(t, pc) && Grows(t, t')
  {
    JobDone(t, pc, job);
  }

  lemma {:induction false} ObserveAdmitted(t: Tables, pc: Pc, job: Job)
    requires LifecycleOk(t) && PcOk(t, pc) && Allowed(pc, job) && job.Observe?
    ensures PerformAll(t, ScriptOf(pc, job)).Ok?
  {
    var e := Observation(IdOf(pc.run), job.name, NextSequence(pc.notes, job.name), job.now, job.value);
    OneStep(t, Do(Add(e)));
    ObserveSucceeds(t, IdOf(pc.run), pc.notes, e);
  }

  /** A script with a refused statement is refused. */
  lemma {:induction false} RefusedOnce(t: Tables, script: seq<Statement>, k: nat)
    requires k < |script| && PerformAll(t, script[..k + 1]).Err?
    ensures PerformAll(t, script).Err?
    decreases |script|
  {
    if k + 1 < |script| {
      var rest := script[..|script| - 1];
      assert rest[..k + 1] == script[..k + 1];
      RefusedOnce(t, rest, k);
    } else {
      assert script[..k + 1] == script;
    }
  }
}
