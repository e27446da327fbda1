/** Concrete registries and runs of the system in which a promise fails without its condition. */
module Witnesses {
  import opened Common
  import opened Domain
  import opened Store
  import opened RegistryLaws
  import opened Lifecycle
  import opened LifecycleSteps
  import opened Executors
  import opened ExecutorSafety
  import opened ExecutorGuarantees
  import opened Execution
  import opened ReplayLinks

  const INVESTIGATION := Other("investigation", "i", [])
  const CONFIGURATION := Other("configuration", "c", [])
  const ENVIRONMENT := Other("environment", "e", [])
  const EXPERIMENT := Experiment("x", OtherId("investigation", "i"), OtherId("configuration", "c"), 0, Ready)

  function RunOf(seed: nat): Entity { Run(ExperimentId("x"), OtherId("environment", "e"), seed, 0, 0, Pending) }

  function RunIdOf(seed: nat): Id { RunId(ExperimentId("x"), OtherId("environment", "e"), seed, 0) }

  // The registry alone ---------------------------------------------------------------------------------

  /** Two PENDING runs of one experiment. */
  const SETUP: seq<Op> := [Add(INVESTIGATION), Add(CONFIGURATION), Add(ENVIRONMENT), Add(EXPERIMENT), Add(RunOf(0)), Add(RunOf(1))]

  lemma {:induction false} PlainAdd(t: Tables, e: Entity)
    requires WellFormed(e) && IdOf(e) !in t.rows && Refs(e) <= t.rows.Keys
    requires e.Other? || e.Experiment? || e.Run?
    ensures AddTo(t, e) == Ok(Insert(t, e))
  {
  }

  lemma {:induction false} HistoryAdds(ops: seq<Op>, e: Entity)
    requires AddTo(History(ops), e).Ok?
    ensures History(ops + [Add(e)]) == Insert(History(ops), e)
  {
    assert (ops + [Add(e)])[..|ops|] == ops;
  }

  lemma {:induction false} FirstRecords()
    ensures var t := History([Add(INVESTIGATION), Add(CONFIGURATION), Add(ENVIRONMENT)]);
            && t.rows.Keys == {IdOf(INVESTIGATION), IdOf(CONFIGURATION), IdOf(ENVIRONMENT)}
  {
    PlainAdd(EMPTY, INVESTIGATION);
    HistoryAdds([], INVESTIGATION);
    assert [] + [Add(INVESTIGATION)] == [Add(INVESTIGATION)];
    PlainAdd(History([Add(INVESTIGATION)]), CONFIGURATION);
    HistoryAdds([Add(INVESTIGATION)], CONFIGURATION);
    assert [Add(INVESTIGATION)] + [Add(CONFIGURATION)] == [Add(INVESTIGATION), Add(CONFIGURATION)];
    PlainAdd(History([Add(INVESTIGATION), Add(CONFIGURATION)]), ENVIRONMENT);
    HistoryAdds([Add(INVESTIGATION), Add(CONFIGURATION)], ENVIRONMENT);
    assert [Add(INVESTIGATION), Add(CONFIGURATION)] + [Add(ENVIRONMENT)] == [Add(INVESTIGATION), Add(CONFIGURATION), Add(ENVIRONMENT)];
  }

  lemma {:induction false} SetupRecords()
    ensures var t := History(SETUP);
            && Sound(t) && t.rows.Keys == {IdOf(INVESTIGATION), IdOf(CONFIGURATION), IdOf(ENVIRONMENT), ExperimentId("x"), RunIdOf(0), RunIdOf(1)}
            && t.rows[ExperimentId("x")].payload == EXPERIMENT
            && t.rows[RunIdOf(0)].payload == RunOf(0) && t.rows[RunIdOf(1)].payload == RunOf(1)
  {
    var first := [Add(INVESTIGATION), Add(CONFIGURATION), Add(ENVIRONMENT)];
    FirstRecords();
    PlainAdd(History(first), EXPERIMENT);
    HistoryAdds(first, EXPERIMENT);
    PlainAdd(History(first + [Add(EXPERIMENT)]), RunOf(0));
    HistoryAdds(first + [Add(EXPERIMENT)], RunOf(0));
    PlainAdd(History(first + [Add(EXPERIMENT)] + [Add(RunOf(0))]), RunOf(1));
    HistoryAdds(first + [Add(EXPERIMENT)] + [Add(RunOf(0))], RunOf(1));
    assert first + [Add(EXPERIMENT)] + [Add(RunOf(0))] + [Add(RunOf(1))] == SETUP;
    HistoryIsSound(SETUP);
  }

  /** Seven additions from nothing leave a run with an outcome that is still PENDING. */
  lemma {:induction false} UnfinishedOutcomeIsAdmitted()
    ensures var o := Outcome(RunIdOf(0), 0, Failed, 0, {}, Some(ErrorInfo(Preparation, "", None)));
            && Sound(History(SETUP + [Add(o)])) && !RunsOk(History(SETUP + [Add(o)]))
            && Has(History(SETUP + [Add(o)]), OutcomeId(RunIdOf(0)))
  {
    var o := Outcome(RunIdOf(0), 0, Failed, 0, {}, Some(ErrorInfo(Preparation, "", None)));
    SetupRunIsBare();
    RegistryAllowsOutcomeWithoutStatus(History(SETUP), RunIdOf(0), 0);
    HistoryAdds(SETUP, o);
  }

  lemma {:induction false} SetupRunIsBare()
    ensures var t := History(SETUP);
            && Sound(t) && RunIs(t, RunIdOf(0)) && t.rows[RunIdOf(0)].payload.status == Pending && RunOk(t, RunIdOf(0))
            && |Select(t, Observations, ByRun(RunIdOf(0)))| == 0
  {
    SetupRecords();
    RecordsAreBare(History(SETUP));
    NoObservations(History(SETUP), RunIdOf(0));
  }

  lemma {:induction false} RecordsAreBare(t: Tables)
    requires t.rows.Keys == {IdOf(INVESTIGATION), IdOf(CONFIGURATION), IdOf(ENVIRONMENT), ExperimentId("x"), RunIdOf(0), RunIdOf(1)}
    requires t.rows[RunIdOf(0)].payload == RunOf(0)
    ensures RunIs(t, RunIdOf(0)) && RunOk(t, RunIdOf(0))
    ensures forall id :: id in t.rows && id.ObservationId? ==> id.run != RunIdOf(0)
  {
    assert !Has(t, ProvenanceId(RunIdOf(0))) && !Has(t, OutcomeId(RunIdOf(0)));
  }

  function LinkOf(seed: nat, other: Option<Id>): Entity {
    Provenance(RunIdOf(seed), ExperimentId("x"), OtherId("environment", "e"), OtherId("configuration", "c"), seed, 0, None, other)
  }

  /** Eight additions from nothing make two runs replay each other. */
  lemma {:induction false} ReplayCycleIsAdmitted()
    ensures var t := History(SETUP + [Add(LinkOf(0, Some(RunIdOf(1))))] + [Add(LinkOf(1, Some(RunIdOf(0))))]);
            Sound(t) && ReplayPath(t, [RunIdOf(0), RunIdOf(1), RunIdOf(0)])
  {
    var p, q := LinkOf(0, Some(RunIdOf(1))), LinkOf(1, Some(RunIdOf(0)));
    SetupRecords();
    LinkAdmitted(History(SETUP), 0);
    LinkAdmitted(History(SETUP), 1);
    RegistryAllowsReplayCycle(History(SETUP), LinkOf(0, None), LinkOf(1, None));
    HistoryAdds(SETUP, p);
    HistoryAdds(SETUP + [Add(p)], q);
    LinksCycle(History(SETUP), p, q);
  }

  lemma {:induction false} LinksCycle(t: Tables, p: Entity, q: Entity)
    requires p == LinkOf(0, Some(RunIdOf(1))) && q == LinkOf(1, Some(RunIdOf(0))) && RunIs(t, RunIdOf(0))
    ensures ReplayPath(Insert(Insert(t, p), q), [RunIdOf(0), RunIdOf(1), RunIdOf(0)])
  {
    var t' := Insert(Insert(t, p), q);
    assert Replays(t', RunIdOf(0), RunIdOf(1)) && Replays(t', RunIdOf(1), RunIdOf(0));
  }

  lemma {:induction false} LinkAdmitted(t: Tables, seed: nat)
    requires t.rows.Keys == {IdOf(INVESTIGATION), IdOf(CONFIGURATION), IdOf(ENVIRONMENT), ExperimentId("x"), RunIdOf(0), RunIdOf(1)}
    requires t.rows[ExperimentId("x")].payload == EXPERIMENT && seed < 2 && t.rows[RunIdOf(seed)].payload == RunOf(seed)
    ensures AddTo(t, LinkOf(seed, None)).Ok?
  {
    assert CheckProvenance(t, LinkOf(seed, None)).None?;
    assert Refs(LinkOf(seed, None)) <= t.rows.Keys;
  }

  // Executors whose callers are not careful ------------------------------------------------------------------

  lemma {:induction false} TraceAppends(w: World, a: seq<Action>, b: seq<Action>)
    ensures Trace(w, a + b) == Trace(Trace(w, a), b)
  {
    if b == [] {
      assert a + b == a;
    } else {
      TraceAppends(w, a, b[..|b| - 1]);
      assert (a + b)[..|a + b| - 1] == a + b[..|b| - 1];
    }
  }

  function Whole(i: nat, job: Job): seq<Action> { [Begin(i, job), Step, Step, Commit] }

  lemma {:induction false} TraceWhole(w: World, i: nat, job: Job)
    ensures Trace(w, Whole(i, job)) == Next(Next(Next(Next(w, Begin(i, job)), Step), Step), Commit)
  {
    var s := Whole(i, job);
    assert s[..3][..2] == s[..2] && s[..2][..1] == s[..1] && s[..1][..0] == [] && s[..4] == s;
    assert Trace(w, s[..1]) == Next(Trace(w, s[..1][..0]), s[0]);
    assert Trace(w, s[..2]) == Next(Trace(w, s[..1]), Step);
    assert Trace(w, s[..3]) == Next(Trace(w, s[..2]), Step);
  }

  /** A transaction of two statements that nobody disturbs. */
  lemma {:induction false} WholeCommits(w: World, i: nat, job: Job)
    requires w.tx.None? && i < |w.pcs| && Allowed(w.pcs[i], job) && |ScriptOf(w.pcs[i], job)| == 2
    requires PerformAll(w.tables, ScriptOf(w.pcs[i], job)).Ok?
    ensures var t := PerformAll(w.tables, ScriptOf(w.pcs[i], job)).value;
            Trace(w, Whole(i, job)) == World(t, None, w.pcs[i := After(w.pcs[i], job, t)])
  {
    var script := ScriptOf(w.pcs[i], job);
    assert script == [script[0], script[1]];
    TwoSteps(w.tables, script[0], script[1]);
    var t1 := Perform(w.tables, script[0]).value;
    var t2 := Perform(t1, script[1]).value;
    TraceWhole(w, i, job);
    Beginning(w, i, job);
    Stepping(w, Tx(i, job, 0, w.tables), t1);
    Stepping(w, Tx(i, job, 1, t1), t2);
    Finishing(w, Tx(i, job, 2, t2));
  }

  lemma {:induction false} Beginning(w: World, i: nat, job: Job)
    requires w.tx.None? && i < |w.pcs| && Allowed(w.pcs[i], job)
    ensures Next(w, Begin(i, job)) == w.(tx := Some(Tx(i, job, 0, w.tables)))
  {
  }

  lemma {:induction false} Stepping(w: World, tx: Tx, work: Tables)
    requires tx.owner < |w.pcs| && Allowed(w.pcs[tx.owner], tx.job) && tx.done < |ScriptOf(w.pcs[tx.owner], tx.job)|
    requires Perform(tx.work, ScriptOf(w.pcs[tx.owner], tx.job)[tx.done]) == Ok(work)
    ensures Next(w.(tx := Some(tx)), Step) == w.(tx := Some(Tx(tx.owner, tx.job, tx.done + 1, work)))
  {
  }

  lemma {:induction false} Finishing(w: World, tx: Tx)
    requires tx.owner < |w.pcs| && Allowed(w.pcs[tx.owner], tx.job) && tx.done == |ScriptOf(w.pcs[tx.owner], tx.job)|
    ensures Next(w.(tx := Some(tx)), Commit) == World(tx.work, None, w.pcs[tx.owner := After(w.pcs[tx.owner], tx.job, tx.work)])
  {
  }

  /** Two executors prepare runs of one experiment, each named as the other's original. */
  ghost predicate Crossed(w: World, a: Entity, b: Entity) {
    && w.tx.None? && |w.pcs| == 2 && w.pcs[0].Preparing? && w.pcs[1].Preparing?
    && w.pcs[0].run == a && w.pcs[1].run == b && a.Run? && b.Run?
    && a.experiment == b.experiment && IdOf(a) != IdOf(b)
    && w.pcs[0].replayOf == Some(IdOf(b)) && w.pcs[1].replayOf == Some(IdOf(a))
  }

  /** One undisturbed start of an admissible replay. */
  lemma {:induction false} Starts(w: World, i: nat)
    requires WorldOk(w) && w.tx.None? && i < |w.pcs| && w.pcs[i].Preparing? && w.pcs[i].run.Run? && w.pcs[i].replayOf.Some?
    requires ReplayAdmissible(w.tables, IdOf(w.pcs[i].run), w.pcs[i].replayOf)
    ensures var w' := Trace(w, Whole(i, Start(0, None)));
            && w'.tx.None? && Grows(w.tables, w'.tables)
            && |w'.pcs| == |w.pcs| && (forall j :: 0 <= j < |w.pcs| && j != i ==> w'.pcs[j] == w.pcs[j])
            && Replays(w'.tables, IdOf(w.pcs[i].run), w.pcs[i].replayOf.value)
  {
    assert PcOk(w.tables, w.pcs[i]);
    StartAdmittedIff(w.tables, w.pcs[i], 0, None);
    WholeCommits(w, i, Start(0, None));
    StartLinks(w.tables, w.pcs[i], Start(0, None));
    TraceKeepsOk(w, Whole(i, Start(0, None)));
  }

  lemma {:induction false} PreparedRunIs(w: World, i: nat)
    requires WorldOk(w) && i < |w.pcs| && w.pcs[i].Preparing?
    ensures w.pcs[i].run.Run? && RunIs(w.tables, IdOf(w.pcs[i].run)) && w.tables.rows[IdOf(w.pcs[i].run)].payload == w.pcs[i].run
  {
    assert PcOk(w.tables, w.pcs[i]);
  }

  /** Both then start, and the cycle is committed. */
  lemma {:induction false} CrossedRunsCycle(w: World, a: Entity, b: Entity)
    requires WorldOk(w) && Crossed(w, a, b)
    ensures ReplayPath(Trace(w, Whole(0, Start(0, None)) + Whole(1, Start(0, None))).tables, [IdOf(a), IdOf(b), IdOf(a)])
  {
    PreparedRunIs(w, 0);
    PreparedRunIs(w, 1);
    Starts(w, 0);
    var w1 := Trace(w, Whole(0, Start(0, None)));
    TraceKeepsOk(w, Whole(0, Start(0, None)));
    SameExperimentLater(w.tables, w1.tables, IdOf(b), IdOf(a));
    Starts(w1, 1);
    TraceAppends(w, Whole(0, Start(0, None)), Whole(1, Start(0, None)));
    ClosesCycle(w1.tables, Trace(w1, Whole(1, Start(0, None))).tables, IdOf(a), IdOf(b));
  }

  lemma {:induction false} ClosesCycle(t: Tables, t': Tables, a: Id, b: Id)
    requires Grows(t, t') && SameExperiment(t, b, a) && Replays(t, a, b) && Replays(t', b, a)
    ensures ReplayPath(t', [a, b, a])
  {
    LinkStays(t, t', a, b);
    SameExperimentLater(t, t', b, a);
  }

  lemma {:induction false} SameExperimentLater(t: Tables, t': Tables, r: Id, o: Id)
    requires Grows(t, t') && SameExperiment(t, r, o)
    ensures SameExperiment(t', r, o)
  {
  }

  lemma {:induction false} StartLinks(t: Tables, pc: Pc, job: Job)
    requires LifecycleOk(t) && PcOk(t, pc) && pc.Preparing? && Allowed(pc, job) && job.Start? && pc.replayOf.Some?
    requires PerformAll(t, ScriptOf(pc, job)).Ok?
    ensures Replays(PerformAll(t, ScriptOf(pc, job)).value, IdOf(pc.run), pc.replayOf.value)
  {
    PairEffect(t, ProvenanceOf(pc, job.startedAt, job.pid), pc.run, Running);
  }

  // Reaching it from nothing --------------------------------------------------------------------------------

  /** A first run of its kind gets attempt 0. */
  lemma {:induction false} FirstAttempt(t: Tables, pc: Pc, job: Job)
    requires LifecycleOk(t) && PcOk(t, pc) && Allowed(pc, job) && job.Create? && PerformAll(t, ScriptOf(pc, job)).Ok?
    requires RunId(pc.experiment, IdOf(job.env), pc.seed, 0) !in t.rows
    ensures After(pc, job, PerformAll(t, ScriptOf(pc, job)).value) ==
            Preparing(Run(pc.experiment, IdOf(job.env), pc.seed, job.now, 0, Pending), pc.configuration, pc.replayOf)
  {
    var create := CreateRun(pc.experiment, IdOf(job.env), pc.seed, job.now);
    TwoSteps(t, EnsureEnvironment(job.env), create);
    var t1 := Perform(t, EnsureEnvironment(job.env)).value;
    AttemptIsZero(t, job.env, create);
    LastIsRun(t1, create);
  }

  lemma {:induction false} AttemptIsZero(t: Tables, env: Entity, create: Statement)
    requires LifecycleOk(t) && env.Other? && create.CreateRun? && Perform(t, EnsureEnvironment(env)).Ok?
    requires RunId(create.experiment, create.environment, create.seed, 0) !in t.rows
    ensures NextAttempt(Perform(t, EnsureEnvironment(env)).value, create.experiment, create.environment, create.seed) == 0
  {
    var t1 := Perform(t, EnsureEnvironment(env)).value;
    EnvironmentFollows(t, env);
    AttemptsAreDense(t1, create.experiment, create.environment, create.seed);
    assert RunId(create.experiment, create.environment, create.seed, 0) !in t1.rows;
  }

  lemma {:induction false} LastIsRun(t: Tables, create: Statement)
    requires create.CreateRun? && Perform(t, create).Ok?
    ensures LastAdded(Perform(t, create).value) ==
            Some(Run(create.experiment, create.environment, create.seed, create.now,
                     NextAttempt(t, create.experiment, create.environment, create.seed), Pending))
  {
  }

  const REQUESTS: seq<Action> := [
    Client(Add(INVESTIGATION)), Client(Add(CONFIGURATION)), Client(Add(EXPERIMENT)),
    Execute(0, ExperimentId("x"), 0, Some(RunIdOf(1))), Execute(1, ExperimentId("x"), 1, Some(RunIdOf(0)))]

  lemma {:induction false} TraceSteps(w: World, actions: seq<Action>, a: Action)
    ensures Trace(w, actions + [a]) == Next(Trace(w, actions), a)
  {
    assert (actions + [a])[..|actions|] == actions;
  }

  lemma {:induction false} Requested()
    ensures var w := Trace(Initial(2), REQUESTS);
            && w.tx.None? && w.tables.rows.Keys == {IdOf(INVESTIGATION), IdOf(CONFIGURATION), ExperimentId("x")}
            && w.pcs == [Creating(ExperimentId("x"), IdOf(CONFIGURATION), 0, Some(RunIdOf(1))),
                         Creating(ExperimentId("x"), IdOf(CONFIGURATION), 1, Some(RunIdOf(0)))]
  {
    var a: seq<Action> := [];
    var w := Initial(2);
    assert Trace(w, a) == w;
    PlainAdd(w.tables, INVESTIGATION);
    TraceSteps(w, a, REQUESTS[0]);
    var w1 := Next(w, REQUESTS[0]);
    PlainAdd(w1.tables, CONFIGURATION);
    TraceSteps(w, a + [REQUESTS[0]], REQUESTS[1]);
    var w2 := Next(w1, REQUESTS[1]);
    PlainAdd(w2.tables, EXPERIMENT);
    TraceSteps(w, a + [REQUESTS[0]] + [REQUESTS[1]], REQUESTS[2]);
    var w3 := Next(w2, REQUESTS[2]);
    TraceSteps(w, a + [REQUESTS[0]] + [REQUESTS[1]] + [REQUESTS[2]], REQUESTS[3]);
    TraceSteps(w, a + [REQUESTS[0]] + [REQUESTS[1]] + [REQUESTS[2]] + [REQUESTS[3]], REQUESTS[4]);
    assert a + [REQUESTS[0]] + [REQUESTS[1]] + [REQUESTS[2]] + [REQUESTS[3]] + [REQUESTS[4]] == REQUESTS;
  }

  /** One undisturbed creation under attempt 0. */
  lemma {:induction false} Creates(w: World, i: nat)
    requires WorldOk(w) && w.tx.None? && i < |w.pcs| && w.pcs[i].Creating?
    requires RunId(w.pcs[i].experiment, IdOf(ENVIRONMENT), w.pcs[i].seed, 0) !in w.tables.rows
    ensures var w' := Trace(w, Whole(i, Create(ENVIRONMENT, 0)));
            && w'.tx.None?
            && w'.pcs == w.pcs[i := Preparing(Run(w.pcs[i].experiment, IdOf(ENVIRONMENT), w.pcs[i].seed, 0, 0, Pending),
                                              w.pcs[i].configuration, w.pcs[i].replayOf)]
            && w'.tables.rows.Keys == w.tables.rows.Keys + {IdOf(ENVIRONMENT), RunId(w.pcs[i].experiment, IdOf(ENVIRONMENT), w.pcs[i].seed, 0)}
  {
    var create := Create(ENVIRONMENT, 0);
    assert PcOk(w.tables, w.pcs[i]);
    CreateSucceeds(w.tables, w.pcs[i], create);
    FirstAttempt(w.tables, w.pcs[i], create);
    WholeCommits(w, i, create);
    CreatedKeys(w.tables, w.pcs[i], create);
  }

  lemma {:induction false} CreatedKeys(t: Tables, pc: Pc, job: Job)
    requires Allowed(pc, job) && job.Create? && PerformAll(t, ScriptOf(pc, job)).Ok?
    requires LastAdded(PerformAll(t, ScriptOf(pc, job)).value).Some?
    ensures var t' := PerformAll(t, ScriptOf(pc, job)).value;
            t'.rows.Keys == t.rows.Keys + {IdOf(job.env), IdOf(LastAdded(t').value)}
  {
    TwoSteps(t, EnsureEnvironment(job.env), CreateRun(pc.experiment, IdOf(job.env), pc.seed, job.now));
  }

  const CREATIONS: seq<Action> := Whole(0, Create(ENVIRONMENT, 0)) + Whole(1, Create(ENVIRONMENT, 0))

  const STARTS: seq<Action> := Whole(0, Start(0, None)) + Whole(1, Start(0, None))

  /** Two callers of `execute` who name each other's coming run, whose id can be foreseen, commit a
      replay cycle. */
  lemma {:induction false} CarelessCallersReachCycle()
    ensures ReplayPath(Trace(Initial(2), REQUESTS + CREATIONS + STARTS).tables, [RunIdOf(0), RunIdOf(1), RunIdOf(0)])
    ensures !CarefulTrace(Initial(2), REQUESTS + CREATIONS + STARTS)
  {
    BothPrepared();
    CrossedRunsCycle(Trace(Initial(2), REQUESTS + CREATIONS), RunOf(0), RunOf(1));
    TraceAppends(Initial(2), REQUESTS + CREATIONS, STARTS);
    CycleIsCareless(2, REQUESTS + CREATIONS + STARTS);
  }

  lemma {:induction false} BothPrepared()
    ensures var w := Trace(Initial(2), REQUESTS + CREATIONS); WorldOk(w) && Crossed(w, RunOf(0), RunOf(1))
  {
    InitialIsOk(2);
    TraceKeepsOk(Initial(2), REQUESTS);
    Requested();
    PreparesBoth(Trace(Initial(2), REQUESTS));
    TraceAppends(Initial(2), REQUESTS, CREATIONS);
    TraceKeepsOk(Initial(2), REQUESTS + CREATIONS);
  }

  lemma {:induction false} PreparesBoth(w: World)
    requires WorldOk(w) && w.tx.None? && w.tables.rows.Keys == {IdOf(INVESTIGATION), IdOf(CONFIGURATION), ExperimentId("x")}
    requires w.pcs == [Creating(ExperimentId("x"), IdOf(CONFIGURATION), 0, Some(RunIdOf(1))),
                       Creating(ExperimentId("x"), IdOf(CONFIGURATION), 1, Some(RunIdOf(0)))]
    ensures Crossed(Trace(w, CREATIONS), RunOf(0), RunOf(1))
  {
    PreparesFirst(w);
    TraceKeepsOk(w, Whole(0, Create(ENVIRONMENT, 0)));
    PreparesSecond(Trace(w, Whole(0, Create(ENVIRONMENT, 0))));
    TraceAppends(w, Whole(0, Create(ENVIRONMENT, 0)), Whole(1, Create(ENVIRONMENT, 0)));
  }

  lemma {:induction false} PreparesFirst(w: World)
    requires WorldOk(w) && w.tx.None? && w.tables.rows.Keys == {IdOf(INVESTIGATION), IdOf(CONFIGURATION), ExperimentId("x")}
    requires w.pcs == [Creating(ExperimentId("x"), IdOf(CONFIGURATION), 0, Some(RunIdOf(1))),
                       Creating(ExperimentId("x"), IdOf(CONFIGURATION), 1, Some(RunIdOf(0)))]
    ensures var w1 := Trace(w, Whole(0, Create(ENVIRONMENT, 0)));
            && w1.tx.None? && RunIdOf(1) !in w1.tables.rows
            && w1.pcs == [Preparing(RunOf(0), IdOf(CONFIGURATION), Some(RunIdOf(1))),
                          Creating(ExperimentId("x"), IdOf(CONFIGURATION), 1, Some(RunIdOf(0)))]
  {
    Creates(w, 0);
  }

  lemma {:induction false} PreparesSecond(w: World)
    requires WorldOk(w) && w.tx.None? && RunIdOf(1) !in w.tables.rows
    requires w.pcs == [Preparing(RunOf(0), IdOf(CONFIGURATION), Some(RunIdOf(1))),
                       Creating(ExperimentId("x"), IdOf(CONFIGURATION), 1, Some(RunIdOf(0)))]
    ensures var w' := Trace(w, Whole(1, Create(ENVIRONMENT, 0))); Crossed(w', RunOf(0), RunOf(1))
  {
    Creates(w, 1);
  }

  lemma {:induction false} CycleIsCareless(n: nat, actions: seq<Action>)
    requires ReplayPath(Trace(Initial(n), actions).tables, [RunIdOf(0), RunIdOf(1), RunIdOf(0)])
    ensures !CarefulTrace(Initial(n), actions)
  {
    var p := [RunIdOf(0), RunIdOf(1), RunIdOf(0)];
    assert p[0] == p[2];
    if CarefulTrace(Initial(n), actions) { ReachedReplaysFormForest(n, actions, p); }
  }
}
