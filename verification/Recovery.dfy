/** Closing the runs a dead process left RUNNING. */
module Recovery {
  import opened Common
  import opened Domain
  import opened Store
  import opened RegistryLaws
  import opened SqliteRegistry
  import opened Lifecycle
  import opened Recording
  import opened Executors
  import opened ExecutorSafety
  import opened ExecutorGuarantees
  import opened Execution

  /** RUNNING without a live process on record. */
  predicate Abandoned(t: Tables, alive: set<int>, id: Id) {
    RunIs(t, id) && t.rows[id].payload.status == Running && !(PidOf(t, id).Some? && PidOf(t, id).value in alive)
  }

  /** Closed as FAILED by an outcome that counts the run's observations and lists its artifacts. */
  ghost predicate ClosedAsInterrupted(t0: Tables, t: Tables, r: Id, now: int) {
    && RunIs(t, r) && t.rows[r].payload.status == Failed
    && OutcomeId(r) in t.rows && t.rows[OutcomeId(r)].payload.Outcome?
    && InterruptedOutcome(t0, r, t.rows[OutcomeId(r)].payload, now)
  }

  ghost predicate InterruptedOutcome(t0: Tables, r: Id, o: Entity, now: int)
    requires o.Outcome?
  {
    && o.run == r && o.result == Failed && o.finishedAt == now
    && o.error == Some(ErrorInfo(Interrupted, "experionyx.ProcessEnded", None))
    && o.observationCount == |Select(t0, Observations, ByRun(r))|
    && o.artifactIds == Select(t0, Artifacts, ByRun(r)).Keys
  }

  function OutcomesOf(closed: set<Id>): set<Id> { set r | r in closed :: OutcomeId(r) }

  /** Since `t0` only the runs in `closed` changed, and only their outcomes were added. */
  ghost predicate OnlyClosed(t0: Tables, t: Tables, closed: set<Id>, now: int) {
    RowsKept(t0, t, closed) && WereRunning(t0, closed) && AllClosed(t0, t, closed, now)
  }

  ghost predicate RowsKept(t0: Tables, t: Tables, closed: set<Id>) {
    t.rows.Keys == t0.rows.Keys + OutcomesOf(closed) && forall id :: id in t0.rows && id !in closed ==> t.rows[id] == t0.rows[id]
  }

  ghost predicate WereRunning(t: Tables, closed: set<Id>) {
    forall r :: r in closed ==> RunIs(t, r) && t.rows[r].payload.status == Running
  }

  ghost predicate AllClosed(t0: Tables, t: Tables, closed: set<Id>, now: int) {
    forall r :: r in closed ==> ClosedAsInterrupted(t0, t, r, now)
  }

  lemma {:induction false} OutcomeRow(t: Tables, id: Id)
    requires Listed(t) && id in t.rows && id.OutcomeId?
    ensures t.rows[id].payload.Outcome?
  {
    assert IdOf(t.rows[id].payload) == id;
  }

  ghost predicate OfKind(t: Tables, k: Kind, id: Id) { id in t.rows && KindOf(t.rows[id].payload) == k }

  lemma {:induction false} SameEntry(t0: Tables, t: Tables, closed: set<Id>, k: Kind, id: Id)
    requires Listed(t) && RowsKept(t0, t, closed) && k != Outcomes && k != Runs
    requires id in closed ==> RunIs(t0, id) && RunIs(t, id)
    ensures OfKind(t, k, id) <==> OfKind(t0, k, id)
    ensures OfKind(t, k, id) ==> t.rows[id] == t0.rows[id]
  {
    if id in t.rows && id !in t0.rows { OutcomeRow(t, id); }
  }

  lemma {:induction false} SameSelection(t0: Tables, t: Tables, closed: set<Id>, k: Kind, r: Id, now: int)
    requires Listed(t) && OnlyClosed(t0, t, closed, now) && k != Outcomes && k != Runs
    ensures Select(t, k, ByRun(r)) == Select(t0, k, ByRun(r))
  {
    forall id ensures (OfKind(t, k, id) <==> OfKind(t0, k, id)) && (OfKind(t, k, id) ==> t.rows[id] == t0.rows[id]) {
      if id in closed { assert ClosedAsInterrupted(t0, t, id, now); }
      SameEntry(t0, t, closed, k, id);
    }
    SelectionDependsOnKind(t0, t, k, ByRun(r));
  }

  lemma {:induction false} SelectionDependsOnKind(t0: Tables, t: Tables, k: Kind, filters: map<string, Cell>)
    requires forall id :: (OfKind(t, k, id) <==> OfKind(t0, k, id)) && (OfKind(t, k, id) ==> t.rows[id] == t0.rows[id])
    ensures Select(t, k, filters) == Select(t0, k, filters)
  {
    var a, b := Select(t, k, filters), Select(t0, k, filters);
    forall id ensures (id in a <==> id in b) && (id in a ==> a[id] == b[id]) {
      assert OfKind(t, k, id) <==> OfKind(t0, k, id);
    }
    assert a.Keys == b.Keys;
  }

  lemma {:induction false} SamePid(t0: Tables, t: Tables, closed: set<Id>, r: Id, now: int)
    requires Listed(t0) && Listed(t) && OnlyClosed(t0, t, closed, now)
    ensures PidOf(t, r) == PidOf(t0, r)
  {
    SameSelection(t0, t, closed, Provenances, r, now);
  }

  /** Nothing is abandoned any more once every abandoned run has been closed. */
  lemma {:induction false} NoneLeft(t0: Tables, t: Tables, closed: set<Id>, alive: set<int>, id: Id, now: int)
    requires Listed(t0) && Listed(t) && OnlyClosed(t0, t, closed, now)
    requires forall r :: Abandoned(t0, alive, r) ==> r in closed
    ensures !Abandoned(t, alive, id)
  {
    SamePid(t0, t, closed, id, now);
    if id in closed {
      assert ClosedAsInterrupted(t0, t, id, now);
    } else if RunIs(t, id) {
      SameRun(t0, t, closed, id);
    }
  }

  lemma {:induction false} SameRun(t0: Tables, t: Tables, closed: set<Id>, id: Id)
    requires Listed(t) && RowsKept(t0, t, closed) && RunIs(t, id) && id !in closed
    ensures RunIs(t0, id) && t0.rows[id] == t.rows[id]
  {
    if id !in t0.rows { OutcomeRow(t, id); }
  }

  /** The transaction that closes one abandoned run succeeds and changes nothing else. */
  lemma {:induction false} RescueCloses(t0: Tables, t: Tables, closed: set<Id>, pc: Pc, now: int)
    requires Listed(t0) && LifecycleOk(t) && OnlyClosed(t0, t, closed, now) && pc.Rescuing? && PcOk(t, pc)
    requires t.rows[IdOf(pc.run)].payload.status == Running && IdOf(pc.run) in t0.rows
    requires pc.count == |Select(t, Observations, ByRun(IdOf(pc.run)))|
    requires pc.artifacts == Select(t, Artifacts, ByRun(IdOf(pc.run))).Keys
    ensures PerformAll(t, ScriptOf(pc, Rescue(now))).Ok?
    ensures OnlyClosed(t0, PerformAll(t, ScriptOf(pc, Rescue(now))).value, closed + {IdOf(pc.run)}, now)
  {
    var r, job := IdOf(pc.run), Rescue(now);
    GrowsItself(t);
    RecoveryRefusedIff(t, t, pc, now);
    var t' := PerformAll(t, ScriptOf(pc, job)).value;
    var o := OutcomeOf(pc, job);
    OutcomeStage(t, pc, job);
    CloseFollows(t, o, pc.run);
    SameSelection(t0, t, closed, Observations, r, now);
    SameSelection(t0, t, closed, Artifacts, r, now);
    assert InterruptedOutcome(t0, r, o, now);
    ClosedOneMore(t0, t, t', closed, r, o, now);
  }

  lemma {:induction false} StaysClosed(t0: Tables, t: Tables, t': Tables, r: Id, o: Entity, q: Id, now: int)
    requires RunIs(t, r) && AddedAndMoved(t, t', o, r, Failed) && q != r && ClosedAsInterrupted(t0, t, q, now)
    ensures ClosedAsInterrupted(t0, t', q, now)
  {
    assert t'.rows[q] == t.rows[q];
  }

  lemma {:induction false} ClosedOneMore(t0: Tables, t: Tables, t': Tables, closed: set<Id>, r: Id, o: Entity, now: int)
    requires Listed(t) && OnlyClosed(t0, t, closed, now) && RunIs(t, r) && r in t0.rows && t.rows[r].payload.status == Running
    requires o.Outcome? && InterruptedOutcome(t0, r, o, now) && AddedAndMoved(t, t', o, r, Failed)
    ensures OnlyClosed(t0, t', closed + {r}, now)
  {
    NotYetClosed(t0, t, closed, r, now);
    AllStayClosed(t0, t, t', closed, r, o, now);
    ClosedRows(t0, t, t', closed, r, o);
    OneMoreWasRunning(t0, closed, r);
  }

  lemma {:induction false} NotYetClosed(t0: Tables, t: Tables, closed: set<Id>, r: Id, now: int)
    requires AllClosed(t0, t, closed, now) && RunIs(t, r) && t.rows[r].payload.status == Running
    ensures r !in closed
  {
    assert r in closed ==> ClosedAsInterrupted(t0, t, r, now);
  }

  lemma {:induction false} OneMoreWasRunning(t: Tables, closed: set<Id>, r: Id)
    requires WereRunning(t, closed) && RunIs(t, r) && t.rows[r].payload.status == Running
    ensures WereRunning(t, closed + {r})
  {
  }

  lemma {:induction false} AllStayClosed(t0: Tables, t: Tables, t': Tables, closed: set<Id>, r: Id, o: Entity, now: int)
    requires AllClosed(t0, t, closed, now) && RunIs(t, r) && r !in closed && o.Outcome? && InterruptedOutcome(t0, r, o, now)
    requires AddedAndMoved(t, t', o, r, Failed)
    ensures AllClosed(t0, t', closed + {r}, now)
  {
    assert ClosedAsInterrupted(t0, t', r, now);
    forall q | q in closed ensures ClosedAsInterrupted(t0, t', q, now) { StaysClosed(t0, t, t', r, o, q, now); }
  }

  lemma {:induction false} ClosedRows(t0: Tables, t: Tables, t': Tables, closed: set<Id>, r: Id, o: Entity)
    requires RowsKept(t0, t, closed) && RunIs(t, r) && r in t0.rows && r !in closed && o.Outcome? && o.run == r
    requires AddedAndMoved(t, t', o, r, Failed)
    ensures t.rows[r] == t0.rows[r]
    ensures RowsKept(t0, t', closed + {r})
  {
    assert OutcomesOf(closed + {r}) == OutcomesOf(closed) + {OutcomeId(r)};
    forall id | id in t0.rows && id !in closed + {r} ensures t'.rows[id] == t0.rows[id] {
      assert id in t.rows;
    }
  }

  lemma {:induction false} FoundRunning(t: Tables, id: Id)
    requires LifecycleOk(t)
    ensures id in Select(t, Runs, ByStatus(Running)) <==> RunIs(t, id) && t.rows[id].payload.status == Running
    ensures id in Select(t, Runs, ByStatus(Running)) ==> IdOf(t.rows[id].payload) == id && SeenRunning(t, t.rows[id].payload)
  {
    if RunIs(t, id) {
      RunningMatches(t, id);
      assert RunOk(t, id);
    }
  }

  lemma {:induction false} RunningMatches(t: Tables, id: Id)
    requires InStep(t) && RunIs(t, id)
    ensures Matches(t.rows[id].columns, ByStatus(Running)) <==> t.rows[id].payload.status == Running
  {
    var e := t.rows[id].payload;
    assert "status" in ColumnsOf(e) && ColumnsOf(e)["status"] == ColumnValue(e, "status");
    assert "status" in ByStatus(Running);
  }

  /** Closes one run that was found RUNNING and has no live process. */
  method CloseInterrupted(x: Executor, run: Entity, now: int, ghost t0: Tables, ghost closed: set<Id>) returns (ok: bool)
    requires x.Ready() && LifecycleOk(x.conn.View()) && Listed(t0) && OnlyClosed(t0, x.conn.View(), closed, now)
    requires SeenRunning(x.conn.View(), run) && IdOf(run) in t0.rows
    requires x.conn.View().rows[IdOf(run)].payload.status == Running
    modifies x.conn, x.conn.db
    ensures x.Ready() && x.conn.db.locked == old(x.conn.db.locked) && LifecycleOk(x.conn.View())
    ensures ok <==> !old(x.conn.db.locked)
    ensures ok ==> OnlyClosed(t0, x.conn.View(), closed + {IdOf(run)}, now)
    ensures !ok ==> x.conn.View() == old(x.conn.View())
  {
    ghost var before := x.conn.View();
    var artifacts := Select(x.conn.View(), Artifacts, ByRun(IdOf(run))).Keys;
    var count := |Select(x.conn.View(), Observations, ByRun(IdOf(run)))|;
    var pc: Pc := Rescuing(run, artifacts, count, Sweep({}, map[], {}, {}));
    SelectedArtifacts(before, IdOf(run));
    RescueCloses(t0, before, closed, pc, now);
    JobDone(before, pc, Rescue(now));
    ok := x.Transact(ScriptOf(pc, Rescue(now)));
  }

  // The loop ---------------------------------------------------------------------------------------

  ghost predicate Sweeping(t0: Tables, t: Tables, alive: set<int>, todo: map<Id, Entity>, recovered: set<Id>, now: int) {
    Listed(t0) && LifecycleOk(t) && OnlyClosed(t0, t, recovered, now) && Remaining(t0, alive, todo, recovered)
  }

  /** The abandoned runs are those already closed and some of those still to be examined. */
  ghost predicate Remaining(t: Tables, alive: set<int>, todo: map<Id, Entity>, recovered: set<Id>) {
    && (forall id :: id in todo ==> id !in recovered && StoredRunning(t, id, todo[id]))
    && (forall id :: id in recovered ==> Abandoned(t, alive, id))
    && (forall id :: Abandoned(t, alive, id) ==> id in recovered || id in todo)
  }

  ghost predicate StoredRunning(t: Tables, id: Id, run: Entity) {
    RunIs(t, id) && t.rows[id].payload.status == Running && run == t.rows[id].payload
  }

  lemma {:induction false} SweepStarts(t: Tables, alive: set<int>, now: int)
    requires LifecycleOk(t)
    ensures Sweeping(t, t, alive, Select(t, Runs, ByStatus(Running)), {}, now)
  {
    forall id
      ensures id in Select(t, Runs, ByStatus(Running)) <==> RunIs(t, id) && t.rows[id].payload.status == Running
    {
      FoundRunning(t, id);
    }
    assert OutcomesOf({}) == {};
  }

  lemma {:induction false} SweepMeets(t0: Tables, t: Tables, alive: set<int>, todo: map<Id, Entity>, recovered: set<Id>, id: Id, now: int)
    requires Sweeping(t0, t, alive, todo, recovered, now) && id in todo
    ensures IdOf(todo[id]) == id && SeenRunning(t, todo[id]) && t.rows[id].payload.status == Running && id in t0.rows
    ensures Abandoned(t0, alive, id) <==> PidOf(t, id).None? || PidOf(t, id).value !in alive
  {
    SamePid(t0, t, recovered, id, now);
    assert t.rows[id] == t0.rows[id];
    assert RunOk(t, id);
    assert IdOf(t.rows[id].payload) == id;
  }

  lemma {:induction false} SweepGoesOn(t: Tables, alive: set<int>, todo: map<Id, Entity>, recovered: set<Id>, id: Id)
    requires Remaining(t, alive, todo, recovered) && id in todo
    ensures Remaining(t, alive, todo - {id}, if Abandoned(t, alive, id) then recovered + {id} else recovered)
  {
  }

  lemma {:induction false} SweepEnds(t0: Tables, t: Tables, alive: set<int>, recovered: set<Id>, now: int)
    requires Sweeping(t0, t, alive, map[], recovered, now)
    ensures forall id :: id in recovered <==> Abandoned(t0, alive, id)
    ensures forall id :: !Abandoned(t, alive, id)
  {
    forall id ensures !Abandoned(t, alive, id) { NoneLeft(t0, t, recovered, alive, id, now); }
  }

  /** Closes every RUNNING run whose recorded process is not alive. On a normal return exactly those
      were closed and a second call would find none. With nobody else at work it is only stopped by
      the write lock, before its first transaction. */
  method RecoverInterrupted(x: Executor, alive: set<int>, now: int) returns (ok: bool, recovered: set<Id>)
    requires x.Ready() && LifecycleOk(x.conn.View())
    modifies x.conn, x.conn.db
    ensures x.Ready() && x.conn.db.locked == old(x.conn.db.locked) && LifecycleOk(x.conn.View())
    ensures ok <==> !old(x.conn.db.locked) || forall id :: !Abandoned(old(x.conn.View()), alive, id)
    ensures !ok ==> x.conn.View() == old(x.conn.View())
    ensures ok ==> OnlyClosed(old(x.conn.View()), x.conn.View(), recovered, now)
    ensures ok ==> forall id :: id in recovered <==> Abandoned(old(x.conn.View()), alive, id)
    ensures ok ==> forall id :: !Abandoned(x.conn.View(), alive, id)
  {
    ghost var t0 := x.conn.View();
    var todo := Select(x.conn.View(), Runs, ByStatus(Running));
    recovered := {};
    SweepStarts(t0, alive, now);
    while todo != map[]
      invariant x.Ready() && x.conn.db.locked == old(x.conn.db.locked)
      invariant Sweeping(t0, x.conn.View(), alive, todo, recovered, now)
      invariant x.conn.db.locked ==> x.conn.View() == t0 && recovered == {}
      decreases |todo|
    {
      var id :| id in todo;
      SweepMeets(t0, x.conn.View(), alive, todo, recovered, id, now);
      SweepGoesOn(t0, alive, todo, recovered, id);
      var pid := PidOf(x.conn.View(), id);
      if pid.None? || pid.value !in alive {
        ok := CloseInterrupted(x, todo[id], now, t0, recovered);
        if !ok {
          return;
        }
        recovered := recovered + {id};
      }
      todo := todo - {id};
    }
    ok := true;
    SweepEnds(t0, x.conn.View(), alive, recovered, now);
  }
}
