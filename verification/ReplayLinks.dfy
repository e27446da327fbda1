/** Replay links: who may be named as an original, and why following them ends. */
module ReplayLinks {
  import opened Common
  import opened Domain
  import opened Store
  import opened RegistryLaws
  import opened Lifecycle
  import opened LifecycleSteps
  import opened Executors
  import opened ExecutorSafety

  // Invariants ----------------------------------------------------------------------------------------

  /** A replay names a run of its experiment whose provenance was recorded before its own. */
  ghost predicate ReplaysBack(t: Tables)
    requires Listed(t)
  {
    forall i, r :: 0 <= i < |t.order| && t.order[i] == ProvenanceId(r) ==> ReplayOk(t, r, t.order[..i])
  }

  ghost predicate ReplayOk(t: Tables, r: Id, earlier: seq<Id>)
    requires ProvenanceId(r) in t.rows
  {
    var p := t.rows[ProvenanceId(r)].payload;
    p.Provenance? && p.replayOf.Some? ==>
      && ProvenanceId(p.replayOf.value) in earlier
      && SameExperiment(t, r, p.replayOf.value)
  }

  /** A run that has started, of the same experiment. */
  ghost predicate ReplayTarget(t: Tables, experiment: Id, replayOf: Option<Id>) {
    replayOf.Some? ==>
      && RunIs(t, replayOf.value) && Has(t, ProvenanceId(replayOf.value))
      && t.rows[replayOf.value].payload.experiment == experiment
  }

  ghost predicate PcReplays(t: Tables, pc: Pc) {
    match pc
    case Creating(x, _, _, replayOf) => ReplayTarget(t, x, replayOf)
    case Preparing(run, _, replayOf) => run.Run? && ReplayTarget(t, run.experiment, replayOf)
    case _ => true
  }

  ghost predicate ReplaysOk(w: World)
    requires Listed(w.tables)
  {
    ReplaysBack(w.tables) && forall i :: 0 <= i < |w.pcs| ==> PcReplays(w.tables, w.pcs[i])
  }

  /** Whoever calls `execute` with `replay_of` names a started run of the experiment, as `replay` does. */
  ghost predicate Careful(w: World, a: Action) {
    a.Execute? ==> ReplayTarget(w.tables, a.experiment, a.replayOf)
  }

  /** Old replay links stay as they were; only a provenance record just appended needs a look. */
  lemma {:induction false} ReplaysStayBack(t: Tables, t': Tables)
    requires Listed(t) && Listed(t') && Grows(t, t') && ReplaysBack(t)
    requires forall i, r :: |t.order| <= i < |t'.order| && t'.order[i] == ProvenanceId(r) ==> ReplayOk(t', r, t'.order[..i])
    ensures ReplaysBack(t')
  {
    forall i, r | 0 <= i < |t'.order| && t'.order[i] == ProvenanceId(r) ensures ReplayOk(t', r, t'.order[..i]) {
      if i < |t.order| {
        assert t'.order[..i] == t.order[..i];
        assert t.order[i] in t.order && ReplayOk(t, r, t.order[..i]);
        assert t'.rows[ProvenanceId(r)].payload == t.rows[ProvenanceId(r)].payload;
      }
    }
  }

  ghost predicate NoNewProvenance(t: Tables, t': Tables) {
    forall i :: |t.order| <= i < |t'.order| ==> !t'.order[i].ProvenanceId?
  }

  lemma {:induction false} TargetIsStable(t: Tables, t': Tables, x: Id, replayOf: Option<Id>)
    requires Grows(t, t') && ReplayTarget(t, x, replayOf)
    ensures ReplayTarget(t', x, replayOf)
  {
  }

  lemma {:induction false} PcReplaysStable(t: Tables, t': Tables, pc: Pc)
    requires Grows(t, t') && PcReplays(t, pc)
    ensures PcReplays(t', pc)
  {
    match pc
    case Creating(x, _, _, replayOf) => TargetIsStable(t, t', x, replayOf);
    case Preparing(run, _, replayOf) => TargetIsStable(t, t', run.experiment, replayOf);
    case _ =>
  }

  // Transactions ---------------------------------------------------------------------------------------

  lemma {:induction false} StartLinksBack(t: Tables, pc: Pc, job: Job)
    requires LifecycleOk(t) && PcOk(t, pc) && PcReplays(t, pc) && ReplaysBack(t)
    requires Allowed(pc, job) && job.Start? && PerformAll(t, ScriptOf(pc, job)).Ok?
    requires LifecycleOk(PerformAll(t, ScriptOf(pc, job)).value) && Grows(t, PerformAll(t, ScriptOf(pc, job)).value)
    ensures ReplaysBack(PerformAll(t, ScriptOf(pc, job)).value)
  {
    var p, r := ProvenanceOf(pc, job.startedAt, job.pid), IdOf(pc.run);
    var t' := PerformAll(t, Pair(p, pc.run, Running)).value;
    PairEffect(t, p, pc.run, Running);
    NewLinkGoesBack(t, t', p, r, pc.run.experiment);
    ReplaysStayBack(t, t');
  }

  lemma {:induction false} NewLinkGoesBack(t: Tables, t': Tables, p: Entity, r: Id, x: Id)
    requires Listed(t) && Grows(t, t') && p.Provenance? && p.run == r && RunIs(t, r) && t.rows[r].payload.experiment == x
    requires AddedAndMoved(t, t', p, r, Running) && ReplayTarget(t, x, p.replayOf)
    ensures forall i, q :: |t.order| <= i < |t'.order| && t'.order[i] == ProvenanceId(q) ==>
              ProvenanceId(q) in t'.rows && ReplayOk(t', q, t'.order[..i])
  {
    forall i, q | |t.order| <= i < |t'.order| && t'.order[i] == ProvenanceId(q)
      ensures ProvenanceId(q) in t'.rows && ReplayOk(t', q, t'.order[..i])
    {
      assert q == r && t'.order[..i] == t.order;
    }
  }

  lemma {:induction false} OthersAddNoProvenance(t: Tables, pc: Pc, job: Job)
    requires LifecycleOk(t) && PcOk(t, pc) && Allowed(pc, job) && !job.Start? && PerformAll(t, ScriptOf(pc, job)).Ok?
    ensures NoNewProvenance(t, PerformAll(t, ScriptOf(pc, job)).value)
  {
    if job.Create? {
      CreateAddsNoProvenance(t, job.env, CreateRun(pc.experiment, IdOf(job.env), pc.seed, job.now));
    } else if job.Observe? || job.Register? {
      OneStep(t, ScriptOf(pc, job)[0]);
      AddNoProvenance(t, ScriptOf(pc, job)[0].op.entity);
    } else {
      CloseScript(t, pc, job);
      MoveAddsNoProvenance(t, PerformAll(t, ScriptOf(pc, job)).value, OutcomeOf(pc, job), IdOf(pc.run));
    }
  }

  lemma {:induction false} AddNoProvenance(t: Tables, e: Entity)
    requires !e.Provenance?
    ensures NoNewProvenance(t, Insert(t, e)) && |Insert(t, e).order| == |t.order| + 1
  {
  }

  lemma {:induction false} CreateAddsNoProvenance(t: Tables, env: Entity, create: Statement)
    requires env.Other? && create.CreateRun? && PerformAll(t, [EnsureEnvironment(env), create]).Ok?
    ensures NoNewProvenance(t, PerformAll(t, [EnsureEnvironment(env), create]).value)
  {
    TwoSteps(t, EnsureEnvironment(env), create);
    var t1 := Perform(t, EnsureEnvironment(env)).value;
    AddNoProvenance(t, env);
    AddNoProvenance(t1, Run(create.experiment, create.environment, create.seed, create.now,
                            NextAttempt(t1, create.experiment, create.environment, create.seed), Pending));
  }

  lemma {:induction false} MoveAddsNoProvenance(t: Tables, t': Tables, o: Entity, r: Id)
    requires o.Outcome? && RunIs(t, r) && AddedAndMoved(t, t', o, r, o.result)
    ensures NoNewProvenance(t, t')
  {
  }

  lemma {:induction false} JobKeepsBack(t: Tables, pc: Pc, job: Job)
    requires LifecycleOk(t) && PcOk(t, pc) && PcReplays(t, pc) && ReplaysBack(t)
    requires Allowed(pc, job) && PerformAll(t, ScriptOf(pc, job)).Ok?
    requires LifecycleOk(PerformAll(t, ScriptOf(pc, job)).value) && Grows(t, PerformAll(t, ScriptOf(pc, job)).value)
    ensures ReplaysBack(PerformAll(t, ScriptOf(pc, job)).value)
  {
    if job.Start? {
      StartLinksBack(t, pc, job);
    } else {
      OthersAddNoProvenance(t, pc, job);
      ReplaysStayBack(t, PerformAll(t, ScriptOf(pc, job)).value);
    }
  }

  lemma {:induction false} NextPcReplays(t: Tables, pc: Pc, job: Job)
    requires LifecycleOk(t) && PcOk(t, pc) && PcReplays(t, pc)
    requires Allowed(pc, job) && PerformAll(t, ScriptOf(pc, job)).Ok? && Grows(t, PerformAll(t, ScriptOf(pc, job)).value)
    ensures PcReplays(PerformAll(t, ScriptOf(pc, job)).value, After(pc, job, PerformAll(t, ScriptOf(pc, job)).value))
  {
    if job.Create? {
      var create := CreateRun(pc.experiment, IdOf(job.env), pc.seed, job.now);
      TwoSteps(t, EnsureEnvironment(job.env), create);
      var t1 := Perform(t, EnsureEnvironment(job.env)).value;
      EnvironmentFollows(t, job.env);
      CreatedRunIsHeld(t1, pc.experiment, IdOf(job.env), pc.seed, job.now);
      TargetIsStable(t, Perform(t1, create).value, pc.experiment, pc.replayOf);
    }
  }

  // Every step -----------------------------------------------------------------------------------------

  lemma {:induction false} CommitKeepsReplays(w: World)
    requires WorldOk(w) && ReplaysOk(w) && WorldOk(Committed(w)) && Grows(w.tables, Committed(w).tables)
    ensures ReplaysOk(Committed(w))
  {
    if Committed(w) != w {
      var Tx(i, job, done, work) := w.tx.value;
      var script := ScriptOf(w.pcs[i], job);
      assert script[..done] == script;
      JobKeepsBack(w.tables, w.pcs[i], job);
      NextPcReplays(w.tables, w.pcs[i], job);
      var after := w.pcs[i := After(w.pcs[i], job, work)];
      forall j | 0 <= j < |after| ensures PcReplays(work, after[j]) {
        PcReplaysStable(w.tables, work, w.pcs[j]);
      }
    }
  }

  lemma {:induction false} ClientKeepsReplays(w: World, op: Op)
    requires WorldOk(w) && ReplaysOk(w) && w.tx.None? && Outside(op) && ApplyOp(w.tables, op).Ok?
    requires WorldOk(Next(w, Client(op))) && Grows(w.tables, Next(w, Client(op)).tables)
    ensures ReplaysOk(Next(w, Client(op)))
  {
    var t' := ApplyOp(w.tables, op).value;
    ReplaysStayBack(w.tables, t');
    forall j | 0 <= j < |w.pcs| ensures PcReplays(t', w.pcs[j]) { PcReplaysStable(w.tables, t', w.pcs[j]); }
  }

  /** `replay` names a finished run with provenance, in its own experiment. */
  lemma {:induction false} ReplayIsCareful(t: Tables, o: Id)
    ensures PcReplays(t, ReplayFrom(t, o))
  {
  }

  lemma {:induction false} NextKeepsReplays(w: World, a: Action)
    requires WorldOk(w) && ReplaysOk(w) && Careful(w, a) && WorldOk(Next(w, a)) && Grows(w.tables, Next(w, a).tables)
    ensures ReplaysOk(Next(w, a))
  {
    if a.Client? {
      if w.tx.None? && Outside(a.op) && ApplyOp(w.tables, a.op).Ok? { ClientKeepsReplays(w, a.op); }
    } else if a.Commit? {
      CommitKeepsReplays(w);
    } else {
      LocalKeepsReplays(w, a);
    }
  }

  lemma {:induction false} AtSize(w: World, i: nat, pc: Pc)
    requires i < |w.pcs|
    ensures |At(w, i, pc).pcs| == |w.pcs|
  {
  }

  lemma {:induction false} SameSize(w: World, a: Action)
    ensures |Next(w, a).pcs| == |w.pcs|
    ensures !a.Client? && !a.Commit? ==> Next(w, a).tables == w.tables
  {
    match a
    case Step =>
      if Stepped(w) != w && Stepped(w).tx.None? { AtSize(w, w.tx.value.owner, Failing(w.pcs[w.tx.value.owner])); }
    case Fail(i) => if i < |w.pcs| { AtSize(w, i, Failing(w.pcs[i])); }
    case Crash(i) => if i < |w.pcs| { AtSize(w, i, Idle); }
    case Commit =>
      if Committed(w) != w {
        var tx := w.tx.value;
        AtSize(w, tx.owner, After(w.pcs[tx.owner], tx.job, tx.work));
      }
    case _ =>
  }

  ghost predicate Elsewhere(pc: Pc) { !pc.Creating? && !pc.Preparing? }

  /** A local move leaves an executor where it was, or with nothing to replay, or at a request. */
  lemma {:induction false} RequestMoves(w: World, a: Action, j: nat)
    requires (a.Execute? || a.Replay? || a.Return? || a.Raise?) && j < |w.pcs|
    requires PcReplays(w.tables, w.pcs[j]) && Careful(w, a)
    ensures Next(w, a).tables == w.tables && |Next(w, a).pcs| == |w.pcs| && PcReplays(w.tables, Next(w, a).pcs[j])
  {
    if a.Replay? { ReplayIsCareful(w.tables, a.original); }
  }

  lemma {:induction false} TxMoves(w: World, a: Action, j: nat)
    requires (a.Begin? || a.Step? || a.Fail? || a.Crash?) && j < |w.pcs|
    ensures Next(w, a).tables == w.tables && |Next(w, a).pcs| == |w.pcs|
    ensures Next(w, a).pcs[j] == w.pcs[j] || Elsewhere(Next(w, a).pcs[j])
  {
    SameSize(w, a);
  }

  lemma {:induction false} SweepMoves(w: World, a: Action, j: nat)
    requires (a.Scan? || a.Examine? || a.Count? || a.Rest?) && j < |w.pcs|
    ensures Next(w, a).tables == w.tables && |Next(w, a).pcs| == |w.pcs|
    ensures Next(w, a).pcs[j] == w.pcs[j] || Elsewhere(Next(w, a).pcs[j])
  {
  }

  lemma {:induction false} LocalPcReplays(w: World, a: Action, j: nat)
    requires j < |w.pcs| && PcReplays(w.tables, w.pcs[j]) && Careful(w, a) && !a.Client? && !a.Commit?
    ensures Next(w, a).tables == w.tables && |Next(w, a).pcs| == |w.pcs| && PcReplays(w.tables, Next(w, a).pcs[j])
  {
    if a.Execute? || a.Replay? || a.Return? || a.Raise? {
      RequestMoves(w, a, j);
    } else if a.Begin? || a.Step? || a.Fail? || a.Crash? {
      TxMoves(w, a, j);
    } else {
      SweepMoves(w, a, j);
    }
  }

  lemma {:induction false} LocalKeepsReplays(w: World, a: Action)
    requires Listed(w.tables) && ReplaysOk(w) && Careful(w, a) && !a.Client? && !a.Commit?
    ensures Next(w, a).tables == w.tables && ReplaysOk(Next(w, a))
  {
    SameSize(w, a);
    forall j | 0 <= j < |w.pcs| ensures PcReplays(w.tables, Next(w, a).pcs[j]) { LocalPcReplays(w, a, j); }
  }

  /** Every caller along the way is careful. */
  ghost predicate CarefulTrace(w: World, actions: seq<Action>) {
    forall k :: 0 <= k < |actions| ==> Careful(Trace(w, actions[..k]), actions[k])
  }

  lemma {:induction false} TraceKeepsReplays(w: World, actions: seq<Action>)
    requires WorldOk(w) && ReplaysOk(w) && CarefulTrace(w, actions)
    ensures WorldOk(Trace(w, actions)) && ReplaysOk(Trace(w, actions))
  {
    if actions != [] {
      var n := |actions| - 1;
      forall k | 0 <= k < n ensures Careful(Trace(w, actions[..n][..k]), actions[..n][k]) {
        assert actions[..n][..k] == actions[..k];
      }
      TraceKeepsReplays(w, actions[..n]);
      NextKeepsOk(Trace(w, actions[..n]), actions[n]);
      NextKeepsReplays(Trace(w, actions[..n]), actions[n]);
    }
  }

  lemma {:induction false} InitialReplays(n: nat)
    ensures WorldOk(Initial(n)) && ReplaysOk(Initial(n))
  {
    InitialIsOk(n);
  }

  // Paths --------------------------------------------------------------------------------------------

  ghost predicate Replays(t: Tables, r: Id, o: Id) {
    var id := ProvenanceId(r);
    id in t.rows && t.rows[id].payload.Provenance? && t.rows[id].payload.replayOf == Some(o)
  }

  lemma {:induction false} LinkStays(t: Tables, t': Tables, r: Id, o: Id)
    requires Grows(t, t') && Replays(t, r, o)
    ensures Replays(t', r, o)
  {
  }

  /** Each run on the path is recorded as a replay of the next. */
  ghost predicate ReplayPath(t: Tables, p: seq<Id>) {
    p != [] && RunIs(t, p[0]) && forall i, j :: 0 <= i && j == i + 1 && j < |p| ==> Replays(t, p[i], p[j])
  }

  /** One link: the original's provenance comes earlier, in the same experiment. */
  lemma {:induction false} LinkGoesBack(t: Tables, r: Id, o: Id, i: nat) returns (j: nat)
    requires LifecycleOk(t) && ReplaysBack(t) && i < |t.order| && t.order[i] == ProvenanceId(r) && Replays(t, r, o)
    ensures j < i && t.order[j] == ProvenanceId(o) && SameExperiment(t, r, o)
  {
    assert ReplayOk(t, r, t.order[..i]);
    j :| 0 <= j < i && t.order[..i][j] == ProvenanceId(o);
  }

  lemma {:induction false} ReplayDescends(t: Tables, p: seq<Id>, k: nat) returns (at: nat)
    requires LifecycleOk(t) && ReplaysBack(t) && ReplayPath(t, p) && |p| > 1 && k < |p|
    ensures at < |t.order| && t.order[at] == ProvenanceId(p[k])
    ensures SameExperiment(t, p[0], p[k])
    ensures forall m: nat, j: nat :: m < k && j < |t.order| && t.order[j] == ProvenanceId(p[m]) ==> at + (k - m) <= j
  {
    if k == 0 {
      assert Replays(t, p[0], p[1]);
      at := Place(t, ProvenanceId(p[0]));
    } else {
      var before := ReplayDescends(t, p, k - 1);
      at := LinkGoesBack(t, p[k - 1], p[k], before);
      forall m: nat, j: nat | m < k && j < |t.order| && t.order[j] == ProvenanceId(p[m]) ensures at + (k - m) <= j {
        if m == k - 1 { assert j == before; }
      }
    }
  }

  /** Following replays never returns to a run, ends within the registry's size and stays inside one
      experiment. */
  lemma {:induction false} ReplaysFormForest(t: Tables, p: seq<Id>)
    requires LifecycleOk(t) && ReplaysBack(t) && ReplayPath(t, p)
    ensures |p| <= |t.order|
    ensures forall i :: 0 <= i < |p| ==> SameExperiment(t, p[0], p[i])
    ensures forall i, j :: 0 <= i < j < |p| ==> p[i] != p[j]
  {
    var first := Place(t, p[0]);
    if |p| > 1 {
      var top := ReplayDescends(t, p, 0);
      var bottom := ReplayDescends(t, p, |p| - 1);
      forall i | 0 <= i < |p| ensures SameExperiment(t, p[0], p[i]) {
        var _ := ReplayDescends(t, p, i);
      }
      forall i, j | 0 <= i < j < |p| ensures p[i] != p[j] {
        var b := ReplayDescends(t, p, j);
        assert t.order[b] == ProvenanceId(p[j]);
      }
    }
  }


  /** In every state that careful callers reach. */
  lemma {:induction false} ReachedReplaysFormForest(n: nat, actions: seq<Action>, p: seq<Id>)
    requires CarefulTrace(Initial(n), actions) && ReplayPath(Trace(Initial(n), actions).tables, p)
    ensures |p| <= |Trace(Initial(n), actions).tables.order|
    ensures forall i :: 0 <= i < |p| ==> SameExperiment(Trace(Initial(n), actions).tables, p[0], p[i])
    ensures forall i, j :: 0 <= i < j < |p| ==> p[i] != p[j]
  {
    InitialReplays(n);
    TraceKeepsReplays(Initial(n), actions);
    ReplaysFormForest(Trace(Initial(n), actions).tables, p);
  }
}
