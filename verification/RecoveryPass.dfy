/** A recovery pass from its scan to its end, while other executors go on. */
module RecoveryPass {
  import opened Common
  import opened Domain
  import opened Store
  import opened RegistryLaws
  import opened Lifecycle
  import opened Executors
  import opened ExecutorSafety
  import opened Recovery
  import opened Recording
  import opened ExecutorGuarantees
  import opened ReplayLinks

  predicate InPass(pc: Pc) { pc.Scanning? || pc.Counting? || pc.Rescuing? }

  /** What executor `i` may newly count as alive by an action: a run it examines whose recorded process
      the system reports alive. */
  ghost predicate ReportedAlive(w: World, a: Action, i: nat, id: Id) {
    && a == Examine(i, id, true) && Free(w, i) && w.pcs[i].Scanning? && id in w.pcs[i].sweep.todo
    && PidOf(w.tables, id).Some?
  }

  /** Going on with a pass: the runs found stay, and a run counts as alive only if it was reported so. */
  ghost predicate GoesOn(w: World, a: Action, i: nat, before: Pc, after: Pc) {
    InPass(after) ==>
      && InPass(before) && after.sweep.found == before.sweep.found
      && forall id :: id in after.sweep.alive ==> id in before.sweep.alive || ReportedAlive(w, a, i, id)
  }

  lemma {:induction false} SweepGoesOn(w: World, a: Action, i: nat)
    requires i < |w.pcs| && (a.Examine? || a.Count? || a.Rest?)
    ensures |Next(w, a).pcs| == |w.pcs| && GoesOn(w, a, i, w.pcs[i], Next(w, a).pcs[i])
  {
  }

  lemma {:induction false} RequestGoesOn(w: World, a: Action, i: nat)
    requires i < |w.pcs| && (a.Execute? || a.Replay? || a.Return? || a.Raise? || a.Begin? || a.Client?)
    ensures |Next(w, a).pcs| == |w.pcs| && GoesOn(w, a, i, w.pcs[i], Next(w, a).pcs[i])
  {
  }

  lemma {:induction false} AbandonGoesOn(w: World, a: Action, i: nat)
    requires i < |w.pcs| && (a.Fail? || a.Crash?)
    ensures |Next(w, a).pcs| == |w.pcs| && GoesOn(w, a, i, w.pcs[i], Next(w, a).pcs[i])
  {
  }

  lemma {:induction false} TxGoesOn(w: World, a: Action, i: nat)
    requires i < |w.pcs| && (a.Step? || a.Commit?)
    ensures |Next(w, a).pcs| == |w.pcs| && GoesOn(w, a, i, w.pcs[i], Next(w, a).pcs[i])
  {
    if w.tx.Some? && w.tx.value.owner < |w.pcs| && Allowed(w.pcs[w.tx.value.owner], w.tx.value.job) {
      var k, job, pc := w.tx.value.owner, w.tx.value.job, w.pcs[w.tx.value.owner];
      assert |w.pcs[k := After(pc, job, w.tx.value.work)]| == |w.pcs|;
      assert |w.pcs[k := Failing(pc)]| == |w.pcs|;
    }
  }

  lemma {:induction false} StepGoesOn(w: World, a: Action, i: nat)
    requires i < |w.pcs| && (a.Scan? ==> a.who != i)
    ensures |Next(w, a).pcs| == |w.pcs| && GoesOn(w, a, i, w.pcs[i], Next(w, a).pcs[i])
  {
    if a.Examine? || a.Count? || a.Rest? {
      SweepGoesOn(w, a, i);
    } else if a.Fail? || a.Crash? {
      AbandonGoesOn(w, a, i);
    } else if a.Step? || a.Commit? {
      TxGoesOn(w, a, i);
    } else if !a.Scan? {
      RequestGoesOn(w, a, i);
    }
  }

  // The whole pass ---------------------------------------------------------------------------------------

  /** The executor examined the run on its way, and its recorded process was reported alive. */
  ghost predicate FoundAlive(w: World, actions: seq<Action>, i: nat, id: Id) {
    exists k :: 0 <= k < |actions| && ReportedAlive(Trace(w, actions[..k]), actions[k], i, id)
  }

  lemma {:induction false} FoundAliveLater(w: World, actions: seq<Action>, i: nat, id: Id)
    requires actions != [] && FoundAlive(w, actions[..|actions| - 1], i, id)
    ensures FoundAlive(w, actions, i, id)
  {
    var n := |actions| - 1;
    var k :| 0 <= k < n && ReportedAlive(Trace(w, actions[..n][..k]), actions[..n][k], i, id);
    assert actions[..n][..k] == actions[..k];
    assert ReportedAlive(Trace(w, actions[..k]), actions[k], i, id);
  }

  ghost predicate NoScan(actions: seq<Action>, i: nat) { forall k :: 0 <= k < |actions| ==> actions[k] != Scan(i) }

  lemma {:induction false} PassKeeps(w: World, actions: seq<Action>, i: nat)
    requires i < |w.pcs| && InPass(w.pcs[i]) && NoScan(actions, i)
    ensures |Trace(w, actions).pcs| == |w.pcs|
    ensures InPass(Trace(w, actions).pcs[i]) ==>
              && Trace(w, actions).pcs[i].sweep.found == w.pcs[i].sweep.found
              && forall id :: id in Trace(w, actions).pcs[i].sweep.alive ==>
                   id in w.pcs[i].sweep.alive || FoundAlive(w, actions, i, id)
  {
    if actions != [] {
      var n := |actions| - 1;
      var before := Trace(w, actions[..n]);
      PassKeeps(w, actions[..n], i);
      StepGoesOn(before, actions[n], i);
      if InPass(Trace(w, actions).pcs[i]) {
        forall id | id in Trace(w, actions).pcs[i].sweep.alive
          ensures id in w.pcs[i].sweep.alive || FoundAlive(w, actions, i, id)
        {
          if ReportedAlive(before, actions[n], i, id) {
            assert ReportedAlive(Trace(w, actions[..n]), actions[n], i, id);
          } else if FoundAlive(w, actions[..n], i, id) {
            FoundAliveLater(w, actions, i, id);
          }
        }
      }
    }
  }

  lemma {:induction false} PassEnds(t: Tables, pc: Pc, r: Id)
    requires PcOk(t, pc) && pc.Scanning? && pc.sweep.todo == map[] && r in pc.sweep.found
    ensures Recovered(t, r) || r in pc.sweep.alive
  {
  }

  /** The pass finds exactly the runs that are RUNNING when it begins. */
  lemma {:induction false} ScanFinds(w: World, i: nat, r: Id)
    requires LifecycleOk(w.tables) && Free(w, i) && w.pcs[i].Idle?
    ensures |Next(w, Scan(i)).pcs| == |w.pcs| && Next(w, Scan(i)).pcs[i] == Scanning(NewSweep(w.tables))
    ensures r in NewSweep(w.tables).found <==> RunIs(w.tables, r) && w.tables.rows[r].payload.status == Running
    ensures NewSweep(w.tables).alive == {}
  {
    FoundRunning(w.tables, r);
  }

  lemma {:induction false} PcHolds(w: World, i: nat)
    requires WorldOk(w) && i < |w.pcs|
    ensures PcOk(w.tables, w.pcs[i])
  {
  }

  /** An idle executor scans; whatever it and the others then do short of another scan of its own, if its
      pass comes to its end, every run that was RUNNING at the scan is FAILED as interrupted or was
      examined in this pass and its recorded process reported alive. */
  lemma {:induction false} RecoveryIsComplete(w: World, i: nat, actions: seq<Action>, r: Id)
    requires WorldOk(w) && Free(w, i) && w.pcs[i].Idle? && NoScan(actions, i)
    requires RunIs(w.tables, r) && w.tables.rows[r].payload.status == Running
    ensures i < |Trace(Next(w, Scan(i)), actions).pcs|
    ensures var end := Trace(Next(w, Scan(i)), actions);
            end.pcs[i].Scanning? && end.pcs[i].sweep.todo == map[] ==>
              Recovered(end.tables, r) || FoundAlive(Next(w, Scan(i)), actions, i, r)
  {
    var begun := Next(w, Scan(i));
    var end := Trace(begun, actions);
    ScanFinds(w, i, r);
    PassKeeps(begun, actions, i);
    if end.pcs[i].Scanning? && end.pcs[i].sweep.todo == map[] {
      assert PcOk(end.tables, end.pcs[i]) by {
        NextKeepsOk(w, Scan(i));
        TraceKeepsOk(begun, actions);
        PcHolds(end, i);
      }
      PassEnds(end.tables, end.pcs[i], r);
    }
  }

  // From the count to the outcome ------------------------------------------------------------------------

  ghost predicate NoCount(actions: seq<Action>, i: nat) { forall k :: 0 <= k < |actions| ==> actions[k] != Count(i) }

  lemma {:induction false} StillRescuingStep(w: World, a: Action, i: nat)
    requires i < |w.pcs| && a != Count(i) && i < |Next(w, a).pcs| && Next(w, a).pcs[i].Rescuing?
    ensures w.pcs[i] == Next(w, a).pcs[i]
  {
    match a
    case Step => StepLeaves(w, i);
    case Commit => CommitLeaves(w, i);
    case _ =>
  }

  lemma {:induction false} StepLeaves(w: World, i: nat)
    requires i < |w.pcs| && i < |Stepped(w).pcs| && Stepped(w).pcs[i].Rescuing?
    ensures w.pcs[i] == Stepped(w).pcs[i]
  {
  }

  lemma {:induction false} CommitLeaves(w: World, i: nat)
    requires i < |w.pcs| && i < |Committed(w).pcs| && Committed(w).pcs[i].Rescuing?
    ensures w.pcs[i] == Committed(w).pcs[i]
  {
  }

  lemma {:induction false} StillRescuing(w: World, actions: seq<Action>, i: nat)
    requires i < |w.pcs| && NoCount(actions, i)
    ensures |Trace(w, actions).pcs| == |w.pcs|
    ensures Trace(w, actions).pcs[i].Rescuing? ==> Trace(w, actions).pcs[i] == w.pcs[i]
  {
    if actions != [] {
      var n := |actions| - 1;
      StillRescuing(w, actions[..n], i);
      SameSize(Trace(w, actions[..n]), actions[n]);
      if Trace(w, actions).pcs[i].Rescuing? { StillRescuingStep(Trace(w, actions[..n]), actions[n], i); }
    }
  }

  lemma {:induction false} LaterState(w: World, a: Action, actions: seq<Action>, i: nat)
    requires WorldOk(w) && i < |Trace(Next(w, a), actions).pcs|
    ensures LifecycleOk(Trace(Next(w, a), actions).tables) && Grows(w.tables, Trace(Next(w, a), actions).tables)
    ensures PcOk(Trace(Next(w, a), actions).tables, Trace(Next(w, a), actions).pcs[i])
  {
    var end := Trace(Next(w, a), actions);
    NextKeepsOk(w, a);
    TraceKeepsOk(Next(w, a), actions);
    GrowsTransitively(w.tables, Next(w, a).tables, end.tables);
    PcHolds(end, i);
  }

  /** From the step that counts a run's observations, through anything the executors do while this one is
      still closing the run: its transaction is refused exactly when the run has been closed or an
      observation of it added since the count. */
  lemma {:induction false} RescueRefusedSince(w: World, i: nat, actions: seq<Action>, now: int)
    requires WorldOk(w) && Free(w, i) && w.pcs[i].Counting? && NoCount(actions, i)
    requires i < |Trace(Next(w, Count(i)), actions).pcs| && Trace(Next(w, Count(i)), actions).pcs[i].Rescuing?
    ensures Trace(Next(w, Count(i)), actions).pcs[i].run == w.pcs[i].run
    ensures RefusedSince(w.tables, Trace(Next(w, Count(i)), actions).tables, Trace(Next(w, Count(i)), actions).pcs[i], now)
  {
    CountIsKept(w, i, actions);
    LaterState(w, Count(i), actions, i);
    SoundNow(w);
    RecoveryRefusedIff(w.tables, Trace(Next(w, Count(i)), actions).tables, Trace(Next(w, Count(i)), actions).pcs[i], now);
  }

  lemma {:induction false} SoundNow(w: World)
    requires WorldOk(w)
    ensures Sound(w.tables)
  {
  }

  /** The executor is closing the run, having counted so many observations. */
  ghost predicate Rescues(pc: Pc, run: Entity, count: nat) {
    match pc
    case Rescuing(current, _, counted, _) => current == run && counted == count
    case _ => false
  }

  lemma {:induction false} RescuesNow(w: World, i: nat)
    requires Free(w, i) && w.pcs[i].Counting?
    ensures i < |Next(w, Count(i)).pcs|
    ensures Rescues(Next(w, Count(i)).pcs[i], w.pcs[i].run, |Select(w.tables, Observations, ByRun(IdOf(w.pcs[i].run)))|)
  {
    CountIsTaken(w, i);
  }

  lemma {:induction false} CountIsKept(w: World, i: nat, actions: seq<Action>)
    requires Free(w, i) && w.pcs[i].Counting? && NoCount(actions, i)
    requires i < |Trace(Next(w, Count(i)), actions).pcs| && Trace(Next(w, Count(i)), actions).pcs[i].Rescuing?
    ensures Rescues(Trace(Next(w, Count(i)), actions).pcs[i], w.pcs[i].run,
                    |Select(w.tables, Observations, ByRun(IdOf(w.pcs[i].run)))|)
  {
    RescuesNow(w, i);
    KeptFrom(Next(w, Count(i)), i, actions, w.pcs[i].run, |Select(w.tables, Observations, ByRun(IdOf(w.pcs[i].run)))|);
  }

  lemma {:induction false} KeptFrom(w: World, i: nat, actions: seq<Action>, run: Entity, count: nat)
    requires i < |w.pcs| && Rescues(w.pcs[i], run, count) && NoCount(actions, i)
    requires i < |Trace(w, actions).pcs| && Trace(w, actions).pcs[i].Rescuing?
    ensures Rescues(Trace(w, actions).pcs[i], run, count)
  {
    StillRescuing(w, actions, i);
  }
}
