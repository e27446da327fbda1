/** The run lifecycle: what every committed state satisfies, and the transactions that keep it. */
module Lifecycle {
  import opened Common
  import opened Domain
  import opened Store
  import opened RegistryLaws

  // Invariants ----------------------------------------------------------------------------------

  predicate Has(t: Tables, id: Id) { id in t.rows }

  /** PENDING: neither provenance nor outcome. RUNNING: provenance, no outcome. Finished: an outcome
      of the same status, with provenance unless the run failed in preparation. */
  ghost predicate RunOk(t: Tables, r: Id)
    requires RunIs(t, r)
  {
    match t.rows[r].payload.status
    case Pending => !Has(t, ProvenanceId(r)) && !Has(t, OutcomeId(r))
    case Running => Has(t, ProvenanceId(r)) && !Has(t, OutcomeId(r))
    case Completed => Has(t, ProvenanceId(r)) && OutcomeIs(t, r, Completed)
    case Failed => OutcomeIs(t, r, Failed) && (Has(t, ProvenanceId(r)) <==> !InPreparation(t, r))
  }

  predicate OutcomeIs(t: Tables, r: Id, s: RunStatus) {
    Has(t, OutcomeId(r)) && t.rows[OutcomeId(r)].payload.Outcome? && t.rows[OutcomeId(r)].payload.result == s
  }

  predicate InPreparation(t: Tables, r: Id) {
    && Has(t, OutcomeId(r)) && t.rows[OutcomeId(r)].payload.Outcome?
    && t.rows[OutcomeId(r)].payload.error.Some? && t.rows[OutcomeId(r)].payload.error.value.stage == Preparation
  }

  ghost predicate RunsOk(t: Tables) { forall r :: RunIs(t, r) ==> RunOk(t, r) }

  /** Attempts of each (experiment, environment, seed) are numbered without gaps. */
  ghost predicate RunsDense(t: Tables) {
    forall x, env, seed: nat, n: nat, m: nat ::
      RunId(x, env, seed, n) in t.rows && m < n ==> RunId(x, env, seed, m) in t.rows
  }

  ghost predicate SameExperiment(t: Tables, r: Id, o: Id) {
    RunIs(t, r) && RunIs(t, o) && t.rows[r].payload.experiment == t.rows[o].payload.experiment
  }

  ghost predicate LifecycleOk(t: Tables) { Sound(t) && RunsOk(t) && RunsDense(t) }

  // Statements of the executor's transactions --------------------------------------------------------

  /** `max(earlier, default=-1) + 1` over the attempts found. */
  function MaxPlusOne(s: set<nat>): (n: nat)
    ensures forall m :: m in s ==> m < n
    ensures n > 0 ==> n - 1 in s
    decreases |s|
  {
    if s == {} then 0
    else
      HasMax(s);
      var m: nat :| m in s && forall k :: k in s ==> k <= m;
      m + 1
  }

  lemma {:induction false} HasMax(s: set<nat>)
    requires s != {}
    ensures exists m: nat :: m in s && forall k :: k in s ==> k <= m
    decreases |s|
  {
    var x :| x in s;
    var others := s - {x};
    if others == {} {
      assert forall k :: k in s ==> k == x || k in others;
      assert x in s && forall k :: k in s ==> k <= x;
    } else {
      HasMax(others);
      var m :| m in others && forall k :: k in others ==> k <= m;
      assert forall k :: k in s ==> k == x || k in others;
      var top := if x <= m then m else x;
      assert top in s && forall k :: k in s ==> k <= top;
    }
  }

  function RunsOf(t: Tables, x: Id, env: Id): map<Id, Entity> {
    Select(t, Runs, map["experiment_id" := IdCell(x), "environment_id" := IdCell(env)])
  }

  function AttemptsOf(t: Tables, x: Id, env: Id, seed: nat): set<nat> {
    var found := RunsOf(t, x, env);
    set id | id in found && found[id].Run? && found[id].seed == seed :: found[id].attempt
  }

  function NextAttempt(t: Tables, x: Id, env: Id, seed: nat): nat { MaxPlusOne(AttemptsOf(t, x, env, seed)) }

  datatype Statement =
    | Do(op: Op)
    | EnsureEnvironment(env: Entity)
    | CreateRun(experiment: Id, environment: Id, seed: nat, now: int)

  function Perform(t: Tables, s: Statement): Result<Tables, Error> {
    match s
    case Do(op) => ApplyOp(t, op)
    case EnsureEnvironment(env) => if IdOf(env) in t.rows then Ok(t) else AddTo(t, env)
    case CreateRun(x, env, seed, now) => AddTo(t, Run(x, env, seed, now, NextAttempt(t, x, env, seed), Pending))
  }

  function PerformAll(t: Tables, script: seq<Statement>): Result<Tables, Error> {
    if script == [] then Ok(t)
    else
      match PerformAll(t, script[..|script| - 1])
      case Err(e) => Err(e)
      case Ok(t') => Perform(t', script[|script| - 1])
  }

  // The scripts ----------------------------------------------------------------------------------

  /** A record about a run and the run's move to a new status, in one transaction: provenance with
      RUNNING, or an outcome with the final status. */
  function Pair(e: Entity, run: Entity, s: RunStatus): seq<Statement>
    requires run.Run?
  {
    [Do(Add(e)), Do(Update(run.(status := s)))]
  }

  lemma {:induction false} TwoSteps(t: Tables, a: Statement, b: Statement)
    ensures PerformAll(t, [a, b]) ==
            match Perform(t, a)
            case Err(e) => Err(e)
            case Ok(t') => Perform(t', b)
  {
    assert [a, b][..1] == [a] && [a][..0] == [];
    assert PerformAll(t, [a]) == Perform(t, a);
  }

  lemma {:induction false} OneStep(t: Tables, a: Statement)
    ensures PerformAll(t, [a]) == Perform(t, a)
  {
    assert [a][..0] == [];
  }

  // What each script does -------------------------------------------------------------------------

  /** Exactly `e` was added and the run `r` took the status `s`; no other row changed. */
  ghost predicate AddedAndMoved(t: Tables, t': Tables, e: Entity, r: Id, s: RunStatus)
    requires RunIs(t, r)
  {
    && IdOf(e) !in t.rows && IdOf(e) != r
    && t'.order == t.order + [IdOf(e)]
    && t'.rows.Keys == t.rows.Keys + {IdOf(e)}
    && t'.rows[IdOf(e)].payload == e
    && RunMove(t.rows[r].payload.status, s)
    && t'.rows[r].payload == t.rows[r].payload.(status := s)
    && forall id :: id in t.rows && id != r ==> t'.rows[id] == t.rows[id]
  }

  /** Adding `e` and then moving the run succeeds exactly when both are admissible on their own. */
  lemma {:induction false} PairSucceedsIff(t: Tables, e: Entity, run: Entity, s: RunStatus)
    requires Sound(t) && run.Run? && !e.Run? && RunIs(t, IdOf(run)) && SameButStatus(t.rows[IdOf(run)].payload, run)
    ensures PerformAll(t, Pair(e, run, s)).Ok? <==>
            AddTo(t, e).Ok? && RunMove(t.rows[IdOf(run)].payload.status, s)
    ensures PerformAll(t, Pair(e, run, s)).Ok? ==>
            PerformAll(t, Pair(e, run, s)) == UpdateStatus(Insert(t, e), run.(status := s))
  {
    var next := run.(status := s);
    TwoSteps(t, Do(Add(e)), Do(Update(next)));
    if AddTo(t, e).Ok? {
      AddKeepsSound(t, e);
      assert IdOf(e) != IdOf(run);
      UpdateSucceedsIff(Insert(t, e), next);
    }
  }

  lemma {:induction false} PairKeepsSound(t: Tables, e: Entity, run: Entity, s: RunStatus)
    requires Sound(t) && run.Run? && !e.Run? && RunIs(t, IdOf(run)) && SameButStatus(t.rows[IdOf(run)].payload, run)
    requires PerformAll(t, Pair(e, run, s)).Ok?
    ensures Sound(PerformAll(t, Pair(e, run, s)).value) && Grows(t, PerformAll(t, Pair(e, run, s)).value)
  {
    PairSucceedsIff(t, e, run, s);
    AddKeepsSound(t, e);
    UpdateKeepsSound(Insert(t, e), run.(status := s));
    GrowsTransitively(t, Insert(t, e), PerformAll(t, Pair(e, run, s)).value);
  }

  lemma {:induction false} PairEffect(t: Tables, e: Entity, run: Entity, s: RunStatus)
    requires Sound(t) && run.Run? && !e.Run? && RunIs(t, IdOf(run)) && SameButStatus(t.rows[IdOf(run)].payload, run)
    requires PerformAll(t, Pair(e, run, s)).Ok?
    ensures AddedAndMoved(t, PerformAll(t, Pair(e, run, s)).value, e, IdOf(run), s)
  {
    PairSucceedsIff(t, e, run, s);
    assert IdOf(e) != IdOf(run);
    UpdatedAfterAdding(t, e, run, s);
  }

  lemma {:induction false} UpdatedAfterAdding(t: Tables, e: Entity, run: Entity, s: RunStatus)
    requires run.Run? && RunIs(t, IdOf(run)) && SameButStatus(t.rows[IdOf(run)].payload, run)
    requires AddTo(t, e).Ok? && IdOf(e) != IdOf(run) && UpdateStatus(Insert(t, e), run.(status := s)).Ok?
    ensures AddedAndMoved(t, UpdateStatus(Insert(t, e), run.(status := s)).value, e, IdOf(run), s)
  {
  }
}
