/** What a procedure does with its run, and what is on record once it has done it. */
module Procedures {
  import opened Common
  import opened Domain
  import opened Store
  import opened RegistryLaws
  import opened Lifecycle
  import opened Recording
  import opened Executors
  import opened ExecutorSafety

  /** What a procedure does: calls on its context, each with or without a handler around it, and how it
      ends unless an unhandled call failed. */
  datatype Procedure = Procedure(calls: seq<Call>, ending: Ending)

  datatype Call = Call(job: Job, handled: bool)

  datatype Ending = Returned(verified: bool) | Raised(stage: FailureStage, errorType: string)

  predicate Proper(p: Procedure) {
    && (forall c :: c in p.calls ==> c.job.Observe? || c.job.Register?)
    && (p.ending.Raised? ==> p.ending.stage == Execution || p.ending.stage == Interrupted)
  }

  /** The files, clock and process the executor meets. */
  datatype Surroundings = Surroundings(env: Entity, now: int, pid: Option<int>, bound: bool, prepared: bool, digest: string)

  /** The same file registered by an earlier call. */
  predicate Repeated(calls: seq<Call>, k: nat)
    requires k < |calls|
  {
    calls[k].job.Register? && RegisteredIn(calls, k, calls[k].job.path, calls[k].job.digest)
  }

  predicate RegisteredIn(calls: seq<Call>, k: nat, path: string, digest: string)
    requires k <= |calls|
  {
    exists j :: 0 <= j < k && calls[j].job.Register? && calls[j].job.path == path && calls[j].job.digest == digest
  }

  /** No unhandled failure among the first `k` calls. */
  predicate SureFooted(calls: seq<Call>, k: nat)
    requires k <= |calls|
  {
    forall j :: 0 <= j < k ==> calls[j].handled || !Repeated(calls, j)
  }

  lemma {:induction false} OneMoreCall(calls: seq<Call>, k: nat)
    requires k < |calls| && SureFooted(calls, k)
    ensures SureFooted(calls, k + 1) <==> calls[k].handled || !Repeated(calls, k)
    ensures !SureFooted(calls, k + 1) ==> Stumbles(calls) && GotTo(calls, k + 1)
  {
  }

  /** The only call that fails is one that registers a file again; unhandled, it ends the procedure. */
  predicate Stumbles(calls: seq<Call>) { !SureFooted(calls, |calls|) }

  function EndingError(e: Ending): Option<ErrorInfo> {
    match e
    case Returned(true) => None
    case Returned(false) => Some(ErrorInfo(ArtifactRegistration, "ArtifactError", None))
    case Raised(stage, errorType) => Some(ErrorInfo(stage, errorType, None))
  }

  /** The error a procedure's run is closed with, before any diagnostic. */
  function FailureOf(p: Procedure): (error: Option<ErrorInfo>)
    requires Proper(p)
    ensures error.None? <==> !Stumbles(p.calls) && p.ending == Returned(true)
    ensures error.Some? ==> error.value.stage != Preparation && error.value.diagnostic.None?
    ensures error.Some? && error.value.stage == Interrupted <==> Interrupts(p)
    ensures Stumbles(p.calls) ==> error.Some? && error.value.stage == Execution
    ensures !Stumbles(p.calls) && p.ending == Returned(false) ==> error.Some? && error.value.stage == ArtifactRegistration
    ensures !Stumbles(p.calls) && p.ending.Raised? ==>
              error.Some? && error.value.stage == p.ending.stage && error.value.errorType == p.ending.errorType
  {
    if Stumbles(p.calls) then Some(ErrorInfo(Execution, "RegistryError", None)) else EndingError(p.ending)
  }

  function ErrorAfter(finished: bool, ending: Ending): Option<ErrorInfo> {
    if finished then EndingError(ending) else Some(ErrorInfo(Execution, "RegistryError", None))
  }

  lemma {:induction false} ErrorIsFailure(p: Procedure, finished: bool)
    requires Proper(p) && (finished <==> !Stumbles(p.calls))
    ensures ErrorAfter(finished, p.ending) == FailureOf(p)
    ensures FailureOf(p).Some? ==> FailureOf(p).value.stage != Preparation && FailureOf(p).value.diagnostic.None?
  {
  }

  /** The procedure gets to raise an interrupt. */
  predicate Interrupts(p: Procedure) { !Stumbles(p.calls) && p.ending.Raised? && p.ending.stage == Interrupted }

  /** COMPLETED without an error, else FAILED at the error's stage. */
  predicate Records(o: Entity, error: Option<ErrorInfo>)
    requires o.Outcome?
  {
    match error
    case None => o.result == Completed && o.error.None?
    case Some(e) => o.result == Failed && o.error.Some? && o.error.value.stage == e.stage && o.error.value.errorType == e.errorType
  }

  // Files ------------------------------------------------------------------------------------------------

  lemma {:induction false} NothingRegistered(t: Tables, r: Id, calls: seq<Call>)
    requires NoArtifactsOf(t, r)
    ensures ArtifactsMatch(t, r, calls, 0)
  {
  }

  ghost predicate NoArtifactsOf(t: Tables, r: Id) { forall id :: id in t.rows && id.ArtifactId? ==> id.run != r }

  /** The run's artifacts are the files the first `k` calls registered. */
  ghost predicate ArtifactsMatch(t: Tables, r: Id, calls: seq<Call>, k: nat)
    requires k <= |calls|
  {
    forall path, digest :: ArtifactId(r, path, digest) in t.rows <==> RegisteredIn(calls, k, path, digest)
  }

  lemma {:induction false} MoreRegistered(calls: seq<Call>, k: nat, path: string, digest: string)
    requires k < |calls|
    ensures RegisteredIn(calls, k + 1, path, digest) <==>
            || RegisteredIn(calls, k, path, digest)
            || (calls[k].job.Register? && calls[k].job.path == path && calls[k].job.digest == digest)
  {
  }

  lemma {:induction false} CallRegisters(t: Tables, pc: Pc, calls: seq<Call>, k: nat)
    requires k < |calls| && pc.InProcedure? && Allowed(pc, calls[k].job) && (calls[k].job.Observe? || calls[k].job.Register?)
    requires ArtifactsMatch(t, IdOf(pc.run), calls, k) && PerformAll(t, ScriptOf(pc, calls[k].job)).Ok?
    ensures ArtifactsMatch(PerformAll(t, ScriptOf(pc, calls[k].job)).value, IdOf(pc.run), calls, k + 1)
  {
    var t' := PerformAll(t, ScriptOf(pc, calls[k].job)).value;
    OneStep(t, ScriptOf(pc, calls[k].job)[0]);
    forall path, digest ensures ArtifactId(IdOf(pc.run), path, digest) in t'.rows <==> RegisteredIn(calls, k + 1, path, digest) {
      MoreRegistered(calls, k, path, digest);
    }
  }

  lemma {:induction false} RepeatRegisters(t: Tables, r: Id, calls: seq<Call>, k: nat)
    requires k < |calls| && Repeated(calls, k) && ArtifactsMatch(t, r, calls, k)
    ensures ArtifactsMatch(t, r, calls, k + 1)
  {
    forall path, digest ensures ArtifactId(r, path, digest) in t.rows <==> RegisteredIn(calls, k + 1, path, digest) {
      MoreRegistered(calls, k, path, digest);
    }
  }

  // The run's records -------------------------------------------------------------------------------------

  /** How many of the first `k` calls observe under a name. */
  function Earlier(calls: seq<Call>, k: nat, name: string): nat
    requires k <= |calls|
  {
    if k == 0 then 0
    else Earlier(calls, k - 1, name) + if calls[k - 1].job.Observe? && calls[k - 1].job.name == name then 1 else 0
  }

  function ObserveCalls(calls: seq<Call>, k: nat): nat
    requires k <= |calls|
  {
    if k == 0 then 0 else ObserveCalls(calls, k - 1) + if calls[k - 1].job.Observe? then 1 else 0
  }

  /** The procedure made its first `k` calls: all of them, or up to an unhandled one that failed. */
  ghost predicate GotTo(calls: seq<Call>, k: nat) {
    k <= |calls| && if SureFooted(calls, k) then k == |calls| else k > 0 && SureFooted(calls, k - 1)
  }

  /** The notes agree with the first `k` calls. */
  ghost predicate Tallies(notes: Notes, r: Id, calls: seq<Call>, k: nat)
    requires k <= |calls|
  {
    && (forall name :: NextSequence(notes, name) == Earlier(calls, k, name))
    && |notes.observations| == ObserveCalls(calls, k)
    && forall path, digest :: ArtifactId(r, path, digest) in notes.artifacts <==> RegisteredIn(calls, k, path, digest)
  }

  ghost predicate Stores(t: Tables, e: Entity) { IdOf(e) in t.rows && t.rows[IdOf(e)].payload == e }

  /** What call `j` asked for is stored: its observation, numbered by the earlier ones under its name, or its
      file, unless it was registered before. */
  ghost predicate CallStored(t: Tables, r: Id, calls: seq<Call>, j: nat)
    requires j < |calls|
  {
    match calls[j].job
    case Observe(name, value, now) => Stores(t, Observation(r, name, Earlier(calls, j, name), now, value))
    case Register(path, digest, now) => Repeated(calls, j) || Stores(t, Artifact(r, path, digest, now))
    case _ => true
  }

  ghost predicate OnRecord(t: Tables, r: Id, calls: seq<Call>, k: nat)
    requires k <= |calls|
  {
    forall j: nat :: j < k ==> CallStored(t, r, calls, j)
  }

  lemma {:induction false} CallStaysStored(t: Tables, t': Tables, r: Id, calls: seq<Call>, j: nat)
    requires j < |calls| && CallStored(t, r, calls, j) && Grows(t, t')
    ensures CallStored(t', r, calls, j)
  {
  }

  lemma {:induction false} StaysOnRecord(t: Tables, t': Tables, r: Id, calls: seq<Call>, k: nat)
    requires k <= |calls| && OnRecord(t, r, calls, k) && Grows(t, t')
    ensures OnRecord(t', r, calls, k)
  {
    forall j: nat | j < k ensures CallStored(t', r, calls, j) { CallStaysStored(t, t', r, calls, j); }
  }

  lemma {:induction false} NothingTallied(r: Id, calls: seq<Call>)
    ensures Tallies(NOTHING, r, calls, 0)
  {
  }

  /** One call that was admitted. */
  lemma {:induction false} CallTallied(t: Tables, pc: Pc, calls: seq<Call>, k: nat)
    requires k < |calls| && pc.InProcedure? && Allowed(pc, calls[k].job) && (calls[k].job.Observe? || calls[k].job.Register?)
    requires PerformAll(t, ScriptOf(pc, calls[k].job)).Ok? && Tallies(pc.notes, IdOf(pc.run), calls, k)
    ensures var t' := PerformAll(t, ScriptOf(pc, calls[k].job)).value;
            After(pc, calls[k].job, t').InProcedure? && Tallies(After(pc, calls[k].job, t').notes, IdOf(pc.run), calls, k + 1)
  {
    if calls[k].job.Observe? {
      ObservationTallied(pc.notes, IdOf(pc.run), calls, k);
    } else {
      RegistrationTallied(pc.notes, IdOf(pc.run), calls, k);
    }
  }

  lemma {:induction false} ObservationTallied(notes: Notes, r: Id, calls: seq<Call>, k: nat)
    requires k < |calls| && calls[k].job.Observe? && Tallies(notes, r, calls, k)
    ensures Tallies(Observed(notes, r, calls[k].job.name), r, calls, k + 1)
  {
    var after := Observed(notes, r, calls[k].job.name);
    forall name ensures NextSequence(after, name) == Earlier(calls, k + 1, name) {
      assert NextSequence(notes, name) == Earlier(calls, k, name);
    }
    forall path, digest ensures ArtifactId(r, path, digest) in after.artifacts <==> RegisteredIn(calls, k + 1, path, digest) {
      MoreRegistered(calls, k, path, digest);
    }
  }

  lemma {:induction false} RegistrationTallied(notes: Notes, r: Id, calls: seq<Call>, k: nat)
    requires k < |calls| && calls[k].job.Register? && Tallies(notes, r, calls, k)
    ensures Tallies(Registered(notes, ArtifactId(r, calls[k].job.path, calls[k].job.digest)), r, calls, k + 1)
  {
    var after := Registered(notes, ArtifactId(r, calls[k].job.path, calls[k].job.digest));
    forall name ensures NextSequence(after, name) == Earlier(calls, k + 1, name) {
      assert NextSequence(notes, name) == Earlier(calls, k, name);
    }
    forall path, digest ensures ArtifactId(r, path, digest) in after.artifacts <==> RegisteredIn(calls, k + 1, path, digest) {
      MoreRegistered(calls, k, path, digest);
    }
  }

  /** A refused one. */
  lemma {:induction false} RepeatTallied(notes: Notes, r: Id, calls: seq<Call>, k: nat)
    requires k < |calls| && Repeated(calls, k) && Tallies(notes, r, calls, k)
    ensures Tallies(notes, r, calls, k + 1)
  {
    forall path, digest ensures ArtifactId(r, path, digest) in notes.artifacts <==> RegisteredIn(calls, k + 1, path, digest) {
      MoreRegistered(calls, k, path, digest);
    }
  }

  lemma {:induction false} CallIsStored(t: Tables, pc: Pc, calls: seq<Call>, k: nat)
    requires k < |calls| && pc.InProcedure? && Allowed(pc, calls[k].job) && (calls[k].job.Observe? || calls[k].job.Register?)
    requires PerformAll(t, ScriptOf(pc, calls[k].job)).Ok? && Tallies(pc.notes, IdOf(pc.run), calls, k)
    ensures CallStored(PerformAll(t, ScriptOf(pc, calls[k].job)).value, IdOf(pc.run), calls, k)
  {
    OneStep(t, ScriptOf(pc, calls[k].job)[0]);
  }

  lemma {:induction false} OneMoreOnRecord(t: Tables, t': Tables, r: Id, calls: seq<Call>, k: nat)
    requires k < |calls| && OnRecord(t, r, calls, k) && Grows(t, t') && CallStored(t', r, calls, k)
    ensures OnRecord(t', r, calls, k + 1)
  {
    StaysOnRecord(t, t', r, calls, k);
  }

  // The outcome --------------------------------------------------------------------------------------------

  /** The diagnostic that is kept of a failure. */
  function DiagnosticOf(r: Id, s: Surroundings): Id { ArtifactId(r, DIAGNOSTIC, s.digest) }

  /** The outcome of a run whose procedure ended at `t` with these notes, and with an error or without. */
  ghost predicate ClosesWith(t: Tables, notes: Notes, o: Entity, failed: bool, s: Surroundings) {
    match o
    case Outcome(r, finishedAt, _, count, artifacts, error) =>
      && finishedAt == s.now && count == |notes.observations| && (error.Some? <==> failed)
      && (forall a :: a in artifacts <==> a in notes.artifacts || (failed && a == DiagnosticOf(r, s) && a !in t.rows))
      && (failed ==> error.value.diagnostic == if DiagnosticOf(r, s) in t.rows then None else Some(DiagnosticOf(r, s)))
    case _ => false
  }

  /** The diagnostic is noted and named in the error unless its file had been registered. */
  ghost predicate KeepsDiagnostic(t: Tables, notes: Notes, pc: Pc, s: Surroundings) {
    match pc
    case Closing(run, notes', failure) =>
      var diagnostic := DiagnosticOf(IdOf(run), s);
      && failure.Some? && failure.value.diagnostic == (if diagnostic in t.rows then None else Some(diagnostic))
      && notes' == if diagnostic in t.rows then notes else Registered(notes, diagnostic)
    case _ => false
  }

  lemma {:induction false} FailureClosesWith(t: Tables, notes: Notes, pc: Pc, o: Entity, s: Surroundings)
    requires KeepsDiagnostic(t, notes, pc, s) && o.Outcome? && o.run == IdOf(pc.run) && o.error == pc.failure
    requires o.finishedAt == s.now && o.observationCount == |pc.notes.observations|
    requires forall a :: a in o.artifactIds <==> a in pc.notes.artifacts
    ensures ClosesWith(t, notes, o, true, s)
  {
  }

  lemma {:induction false} SuccessClosesWith(t: Tables, pc: Pc, o: Entity, s: Surroundings)
    requires pc.Closing? && pc.failure.None? && o.Outcome? && o.error.None?
    requires o.finishedAt == s.now && o.observationCount == |pc.notes.observations|
    requires forall a :: a in o.artifactIds <==> a in pc.notes.artifacts
    ensures ClosesWith(t, pc.notes, o, false, s)
  {
  }

  /** The outcome accounts for the first `k` calls: how many observed, which files they registered, and the
      diagnostic of a failure, unless the procedure had registered that very file. */
  ghost predicate SumsUp(o: Entity, calls: seq<Call>, k: nat, s: Surroundings)
    requires o.Outcome? && k <= |calls|
  {
    && o.finishedAt == s.now && o.observationCount == ObserveCalls(calls, k)
    && (forall a :: a in o.artifactIds ==> a.ArtifactId? && a.run == o.run)
    && (forall path, digest :: ArtifactId(o.run, path, digest) in o.artifactIds <==>
          RegisteredIn(calls, k, path, digest) || (o.error.Some? && path == "diagnostics/traceback.txt" && digest == s.digest))
    && (o.error.Some? ==>
          o.error.value.diagnostic ==
          if RegisteredIn(calls, k, "diagnostics/traceback.txt", s.digest) then None
          else Some(ArtifactId(o.run, "diagnostics/traceback.txt", s.digest)))
  }

  /** What the calls asked for is stored, no other observations are, and the outcome says so. */
  ghost predicate WorkedTo(t: Tables, o: Entity, calls: seq<Call>, k: nat, s: Surroundings)
    requires o.Outcome? && k <= |calls|
  {
    && OnRecord(t, o.run, calls, k) && SumsUp(o, calls, k, s)
    && forall name, n: nat :: ObservationId(o.run, name, n) in t.rows <==> n < Earlier(calls, k, name)
  }

  ghost predicate Worked(t: Tables, o: Entity, calls: seq<Call>, s: Surroundings)
    requires o.Outcome?
  {
    exists k: nat :: GotTo(calls, k) && WorkedTo(t, o, calls, k, s)
  }

  /** Where a procedure stands after `k` calls. */
  ghost predicate Progress(t: Tables, pc: Pc, calls: seq<Call>, k: nat)
    requires k <= |calls|
  {
    match pc
    case InProcedure(run, notes) =>
      ArtifactsMatch(t, IdOf(run), calls, k) && Tallies(notes, IdOf(run), calls, k) && OnRecord(t, IdOf(run), calls, k)
    case _ => false
  }

  lemma {:induction false} NoProgress(t: Tables, pc: Pc, calls: seq<Call>)
    requires pc.InProcedure? && pc.notes == NOTHING && NoArtifactsOf(t, IdOf(pc.run))
    ensures Progress(t, pc, calls, 0)
  {
    NothingRegistered(t, IdOf(pc.run), calls);
    NothingTallied(IdOf(pc.run), calls);
  }

  lemma {:induction false} CallProgress(t: Tables, pc: Pc, calls: seq<Call>, k: nat)
    requires k < |calls| && pc.InProcedure? && Allowed(pc, calls[k].job) && (calls[k].job.Observe? || calls[k].job.Register?)
    requires PerformAll(t, ScriptOf(pc, calls[k].job)).Ok? && Progress(t, pc, calls, k)
    requires Grows(t, PerformAll(t, ScriptOf(pc, calls[k].job)).value)
    ensures var t' := PerformAll(t, ScriptOf(pc, calls[k].job)).value; Progress(t', After(pc, calls[k].job, t'), calls, k + 1)
  {
    CallRegisters(t, pc, calls, k);
    CallTallied(t, pc, calls, k);
    CallIsStored(t, pc, calls, k);
    OneMoreOnRecord(t, PerformAll(t, ScriptOf(pc, calls[k].job)).value, IdOf(pc.run), calls, k);
  }

  lemma {:induction false} RepeatProgress(t: Tables, pc: Pc, calls: seq<Call>, k: nat)
    requires k < |calls| && Repeated(calls, k) && Progress(t, pc, calls, k)
    ensures Progress(t, pc, calls, k + 1)
  {
    RepeatRegisters(t, IdOf(pc.run), calls, k);
    RepeatTallied(pc.notes, IdOf(pc.run), calls, k);
    assert CallStored(t, IdOf(pc.run), calls, k);
  }

  /** Nothing was observed in between. */
  ghost predicate Quiet(t: Tables, t': Tables) { Grows(t, t') && OnlyObserves(t, t', None) }

  lemma {:induction false} QuietTransitively(a: Tables, b: Tables, c: Tables)
    requires Quiet(a, b) && Quiet(b, c)
    ensures Quiet(a, c)
  {
    GrowsTransitively(a, b, c);
  }

  lemma {:induction false} OutcomeSumsUp(t: Tables, notes: Notes, o: Entity, calls: seq<Call>, k: nat, s: Surroundings)
    requires o.Outcome? && k <= |calls| && ArtifactsMatch(t, o.run, calls, k) && Tallies(notes, o.run, calls, k)
    requires ClosesWith(t, notes, o, o.error.Some?, s) && InSync(t, o.run, notes)
    ensures SumsUp(o, calls, k, s)
  {
  }

  lemma {:induction false} SameObservations(t: Tables, t': Tables, notes: Notes, r: Id, calls: seq<Call>, k: nat)
    requires k <= |calls| && Tallies(notes, r, calls, k) && InSync(t, r, notes) && Quiet(t, t')
    ensures forall name, n: nat :: ObservationId(r, name, n) in t'.rows <==> n < Earlier(calls, k, name)
  {
    forall name, n: nat ensures ObservationId(r, name, n) in t'.rows <==> n < Earlier(calls, k, name) {
      assert ObservationId(r, name, n) in t.rows <==> n < NextSequence(notes, name);
    }
  }

  lemma {:induction false} WorkIsAccounted(t: Tables, t': Tables, pc: Pc, o: Entity, calls: seq<Call>, k: nat, s: Surroundings)
    requires o.Outcome? && GotTo(calls, k) && Progress(t, pc, calls, k) && o.run == IdOf(pc.run) && InSync(t, o.run, pc.notes)
    requires ClosesWith(t, pc.notes, o, o.error.Some?, s) && Quiet(t, t')
    ensures Worked(t', o, calls, s)
  {
    StaysOnRecord(t, t', o.run, calls, k);
    OutcomeSumsUp(t, pc.notes, o, calls, k, s);
    SameObservations(t, t', pc.notes, o.run, calls, k);
    assert WorkedTo(t', o, calls, k, s);
  }
}
