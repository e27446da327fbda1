/** Exactly when replay links close a cycle, whoever calls `execute`. */
module ReplayCycles {
  import opened Common
  import opened Domain
  import opened Store
  import opened RegistryLaws
  import opened Lifecycle
  import opened LifecycleSteps
  import opened Executors
  import opened ExecutorSafety
  import opened ExecutorGuarantees
  import opened ReplayLinks

  ghost predicate NoRepeat(p: seq<Id>) { forall i, j :: 0 <= i < j < |p| ==> p[i] != p[j] }

  /** No walk along replay links returns to a run. */
  ghost predicate Acyclic(t: Tables) { forall p :: ReplayPath(t, p) ==> NoRepeat(p) }

  /** Following replays from `o` reaches `r`. */
  ghost predicate Leads(t: Tables, o: Id, r: Id) {
    exists p :: ReplayPath(t, p) && p[0] == o && p[|p| - 1] == r
  }

  // Paths ------------------------------------------------------------------------------------------------

  /** Every consecutive pair is linked. */
  ghost predicate Linked(t: Tables, p: seq<Id>) {
    forall i, j :: 0 <= i && j == i + 1 && j < |p| ==> Replays(t, p[i], p[j])
  }

  lemma {:induction false} LinkJoinsRuns(t: Tables, r: Id, o: Id)
    requires Sound(t) && Replays(t, r, o)
    ensures RunIs(t, r) && RunIs(t, o)
  {
    var e := t.rows[ProvenanceId(r)].payload;
    assert IdOf(e) == ProvenanceId(r) && WellFormed(e);
    RefResolves(t, ProvenanceId(r), r);
    RefResolves(t, ProvenanceId(r), o);
    assert IdOf(t.rows[r].payload) == r && IdOf(t.rows[o].payload) == o;
  }

  lemma {:induction false} PathIsLinked(t: Tables, p: seq<Id>)
    requires Sound(t) && |p| > 1
    ensures ReplayPath(t, p) <==> Linked(t, p)
  {
    if Linked(t, p) {
      assert Replays(t, p[0], p[1]);
      LinkJoinsRuns(t, p[0], p[1]);
    }
  }

  lemma {:induction false} PartIsLinked(t: Tables, p: seq<Id>, i: nat, j: nat)
    requires Linked(t, p) && i <= j <= |p|
    ensures Linked(t, p[i..j])
  {
    var q := p[i..j];
    forall a, b | 0 <= a && b == a + 1 && b < |q| ensures Replays(t, q[a], q[b]) {
      assert q[a] == p[i + a] && q[b] == p[i + b];
    }
  }

  lemma {:induction false} JoinIsLinked(t: Tables, p: seq<Id>, q: seq<Id>)
    requires Linked(t, p) && Linked(t, q) && p != [] && q != [] && Replays(t, p[|p| - 1], q[0])
    ensures Linked(t, p + q)
  {
    forall a, b | 0 <= a && b == a + 1 && b < |p + q| ensures Replays(t, (p + q)[a], (p + q)[b]) {
      if b < |p| {
        assert (p + q)[a] == p[a] && (p + q)[b] == p[b];
      } else if a >= |p| {
        assert (p + q)[a] == q[a - |p|] && (p + q)[b] == q[b - |p|];
      }
    }
  }

  // One start --------------------------------------------------------------------------------------------

  /** The links of `t'` are those of `t` and one from `r` to `o`, where `r` had none. */
  ghost predicate OneMoreLink(t: Tables, t': Tables, r: Id, o: Id) {
    && (forall a, b :: Replays(t, a, b) ==> Replays(t', a, b))
    && (forall a, b :: Replays(t', a, b) ==> Replays(t, a, b) || (a == r && b == o))
    && (forall b :: !Replays(t, r, b)) && Replays(t', r, o)
  }

  ghost predicate Avoids(p: seq<Id>, r: Id) { forall i :: 0 <= i < |p| - 1 ==> p[i] != r }

  /** A walk that does not leave from `r` uses only the old links. */
  lemma {:induction false} AvoidingIsOld(t: Tables, t': Tables, r: Id, o: Id, p: seq<Id>)
    requires OneMoreLink(t, t', r, o) && Linked(t', p) && Avoids(p, r)
    ensures Linked(t, p)
  {
    forall a, b | 0 <= a && b == a + 1 && b < |p| ensures Replays(t, p[a], p[b]) {
      assert Replays(t', p[a], p[b]);
    }
  }

  /** A walk from `o` that meets `r` does so first along old links. */
  lemma {:induction false} FirstMeeting(t: Tables, t': Tables, r: Id, o: Id, p: seq<Id>, k: nat)
    requires OneMoreLink(t, t', r, o) && Linked(t', p) && k < |p| && p[0] == o && p[k] == r && RunIs(t, o)
    ensures Leads(t, o, r)
    decreases k
  {
    if i: nat :| i < k && p[i] == r {
      FirstMeeting(t, t', r, o, p, i);
    } else {
      var q := p[..k + 1];
      assert q == p[0..k + 1];
      PartIsLinked(t', p, 0, k + 1);
      AvoidingIsOld(t, t', r, o, q);
      assert ReplayPath(t, q) && q[0] == o && q[|q| - 1] == r;
    }
  }

  /** A closed walk of `t'` either avoids `r` or shows that `o` leads to `r`. */
  lemma {:induction false} ClosedWalk(t: Tables, t': Tables, r: Id, o: Id, s: seq<Id>)
    requires Sound(t) && OneMoreLink(t, t', r, o) && RunIs(t, o) && Acyclic(t)
    requires |s| > 1 && Linked(t', s) && s[0] == s[|s| - 1]
    ensures Leads(t, o, r)
  {
    var n := |s| - 1;
    if Avoids(s, r) {
      AvoidingIsOld(t, t', r, o, s);
      PathIsLinked(t, s);
    } else {
      var k :| 0 <= k < n && s[k] == r;
      ReachesAgain(t, t', r, o, s, k);
    }
  }

  lemma {:induction false} ReachesAgain(t: Tables, t': Tables, r: Id, o: Id, s: seq<Id>, k: nat)
    requires OneMoreLink(t, t', r, o) && RunIs(t, o)
    requires |s| > 1 && Linked(t', s) && s[0] == s[|s| - 1] && k < |s| - 1 && s[k] == r
    ensures Leads(t, o, r)
  {
    var n := |s| - 1;
    assert Replays(t', s[k], s[k + 1]);
    assert s[k + 1] == o;
    var rest, again := s[k + 1..], s[1..k + 1];
    PartIsLinked(t', s, k + 1, |s|);
    assert s[k + 1..|s|] == rest;
    PartIsLinked(t', s, 1, k + 1);
    if k == 0 {
      FirstMeeting(t, t', r, o, rest, n - 1);
    } else {
      assert Replays(t', s[0], s[1]) && rest[|rest| - 1] == s[n];
      JoinIsLinked(t', rest, again);
      assert (rest + again)[|rest| + k - 1] == s[k];
      FirstMeeting(t, t', r, o, rest + again, |rest| + k - 1);
    }
  }

  /** A repeated run on a walk cuts out a closed walk. */
  lemma {:induction false} RepeatCloses(t: Tables, t': Tables, r: Id, o: Id, p: seq<Id>, i: nat, j: nat)
    requires Sound(t) && OneMoreLink(t, t', r, o) && RunIs(t, o) && Acyclic(t)
    requires Linked(t', p) && i < j < |p| && p[i] == p[j]
    ensures Leads(t, o, r)
  {
    var s := p[i..j + 1];
    PartIsLinked(t', p, i, j + 1);
    ClosedWalk(t, t', r, o, s);
  }

  lemma {:induction false} LeadingCloses(t: Tables, t': Tables, r: Id, o: Id)
    requires OneMoreLink(t, t', r, o) && Leads(t, o, r) && RunIs(t', r)
    ensures !Acyclic(t')
  {
    var q :| ReplayPath(t, q) && q[0] == o && q[|q| - 1] == r;
    forall a, b | 0 <= a && b == a + 1 && b < |q| ensures Replays(t', q[a], q[b]) { assert Replays(t, q[a], q[b]); }
    assert Linked(t', q) && Linked(t', [r]);
    JoinIsLinked(t', [r], q);
    var p := [r] + q;
    assert ReplayPath(t', p) && p[0] == p[|p| - 1];
  }

  /** One more link keeps an acyclic registry acyclic exactly when its original does not lead back. */
  lemma {:induction false} LinkClosesIff(t: Tables, t': Tables, r: Id, o: Id)
    requires Sound(t) && OneMoreLink(t, t', r, o) && RunIs(t, o) && RunIs(t', r) && Acyclic(t)
    ensures Acyclic(t') <==> !Leads(t, o, r)
  {
    if Leads(t, o, r) {
      LeadingCloses(t, t', r, o);
    } else {
      forall p | ReplayPath(t', p) ensures NoRepeat(p) {
        forall i, j | 0 <= i < j < |p| ensures p[i] != p[j] {
          if p[i] == p[j] { RepeatCloses(t, t', r, o, p, i, j); }
        }
      }
    }
  }

  lemma {:induction false} StartAddsLink(t: Tables, t': Tables, p: Entity, r: Id, o: Id)
    requires Listed(t) && RunIs(t, r) && p.Provenance? && p.run == r && p.replayOf == Some(o)
    requires AddedAndMoved(t, t', p, r, Running)
    ensures OneMoreLink(t, t', r, o) && RunIs(t', r)
  {
    forall a, b ensures Replays(t', a, b) <==> Replays(t, a, b) || (a == r && b == o) {
      var id := ProvenanceId(a);
      if id in t.rows { assert IdOf(t.rows[id].payload) == id && id != r; }
    }
  }

  /** A start as a replay of `o` keeps an acyclic registry acyclic exactly when following replays from `o`
      does not reach the run itself. */
  lemma {:induction false} StartClosesIff(t: Tables, t': Tables, p: Entity, r: Id, o: Id)
    requires Sound(t) && RunIs(t, r) && RunIs(t, o) && p.Provenance? && p.run == r && p.replayOf == Some(o)
    requires AddedAndMoved(t, t', p, r, Running) && Acyclic(t)
    ensures Acyclic(t') <==> !Leads(t, o, r)
  {
    StartAddsLink(t, t', p, r, o);
    LinkClosesIff(t, t', r, o);
  }

  // Every step -------------------------------------------------------------------------------------------

  /** No links but old ones. */
  ghost predicate NoMoreLinks(t: Tables, t': Tables) { forall a, b :: Replays(t', a, b) ==> Replays(t, a, b) }

  lemma {:induction false} OldLinksOnly(t: Tables, t': Tables)
    requires Sound(t) && NoMoreLinks(t, t') && Acyclic(t)
    ensures Acyclic(t')
  {
    forall p | ReplayPath(t', p) ensures NoRepeat(p) {
      if |p| > 1 {
        forall a, b | 0 <= a && b == a + 1 && b < |p| ensures Replays(t, p[a], p[b]) { assert Replays(t', p[a], p[b]); }
        PathIsLinked(t, p);
      }
    }
  }

  lemma {:induction false} CyclesStay(t: Tables, t': Tables)
    requires Grows(t, t') && !Acyclic(t)
    ensures !Acyclic(t')
  {
    var p :| ReplayPath(t, p) && !NoRepeat(p);
    forall a, b | 0 <= a && b == a + 1 && b < |p| ensures Replays(t', p[a], p[b]) { LinkStays(t, t', p[a], p[b]); }
    assert ReplayPath(t', p);
  }

  lemma {:induction false} NoProvenanceNoLink(t: Tables, t': Tables)
    requires Listed(t) && Listed(t') && Grows(t, t') && NoNewProvenance(t, t')
    ensures NoMoreLinks(t, t')
  {
    forall a, b | Replays(t', a, b) ensures Replays(t, a, b) {
      var i := IndexOf(t', ProvenanceId(a));
      assert i < |t.order| && t.order[i] == ProvenanceId(a) && t.order[i] in t.order;
      assert IdOf(t.rows[ProvenanceId(a)].payload) == ProvenanceId(a);
    }
  }

  lemma {:induction false} IndexOf(t: Tables, id: Id) returns (i: nat)
    requires Listed(t) && id in t.rows
    ensures i < |t.order| && t.order[i] == id
  {
    assert id in t.order;
    i :| 0 <= i < |t.order| && t.order[i] == id;
  }

  lemma {:induction false} UnlinkedStart(t: Tables, t': Tables, p: Entity, r: Id)
    requires Listed(t) && RunIs(t, r) && p.Provenance? && p.run == r && p.replayOf.None?
    requires AddedAndMoved(t, t', p, r, Running)
    ensures NoMoreLinks(t, t')
  {
    forall a, b | Replays(t', a, b) ensures Replays(t, a, b) {
      assert ProvenanceId(a) != r;
    }
  }

  /** The step commits a start whose original leads back to the run being started. */
  ghost predicate ClosesCycle(w: World, a: Action) {
    && a.Commit? && w.tx.Some? && w.tx.value.owner < |w.pcs| && w.tx.value.job.Start?
    && Committed(w) != w && Allowed(w.pcs[w.tx.value.owner], w.tx.value.job)
    && w.pcs[w.tx.value.owner].replayOf.Some?
    && Leads(w.tables, w.pcs[w.tx.value.owner].replayOf.value, IdOf(w.pcs[w.tx.value.owner].run))
  }

  lemma {:induction false} JobClosesIff(t: Tables, pc: Pc, job: Job)
    requires LifecycleOk(t) && PcOk(t, pc) && Allowed(pc, job) && PerformAll(t, ScriptOf(pc, job)).Ok? && Acyclic(t)
    ensures Acyclic(PerformAll(t, ScriptOf(pc, job)).value) <==>
            !(job.Start? && pc.replayOf.Some? && Leads(t, pc.replayOf.value, IdOf(pc.run)))
  {
    var t' := PerformAll(t, ScriptOf(pc, job)).value;
    if job.Start? {
      StartJobClosesIff(t, pc, job);
    } else {
      OthersAddNoProvenance(t, pc, job);
      JobDone(t, pc, job);
      NoProvenanceNoLink(t, t');
      OldLinksOnly(t, t');
    }
  }

  lemma {:induction false} StartJobClosesIff(t: Tables, pc: Pc, job: Job)
    requires LifecycleOk(t) && PcOk(t, pc) && Allowed(pc, job) && job.Start? && PerformAll(t, ScriptOf(pc, job)).Ok? && Acyclic(t)
    ensures Acyclic(PerformAll(t, ScriptOf(pc, job)).value) <==>
            !(pc.replayOf.Some? && Leads(t, pc.replayOf.value, IdOf(pc.run)))
  {
    var p, r := ProvenanceOf(pc, job.startedAt, job.pid), IdOf(pc.run);
    var t' := PerformAll(t, Pair(p, pc.run, Running)).value;
    PairEffect(t, p, pc.run, Running);
    StartAdmittedIff(t, pc, job.startedAt, job.pid);
    if pc.replayOf.Some? {
      StartClosesIff(t, t', p, r, pc.replayOf.value);
    } else {
      UnlinkedStart(t, t', p, r);
      OldLinksOnly(t, t');
    }
  }

  lemma {:induction false} CommitClosesIff(w: World)
    requires WorldOk(w) && Acyclic(w.tables)
    ensures Acyclic(Committed(w).tables) <==> !ClosesCycle(w, Commit)
  {
    if Committed(w) != w {
      var Tx(i, job, done, work) := w.tx.value;
      var script := ScriptOf(w.pcs[i], job);
      assert script[..done] == script;
      assert PcOk(w.tables, w.pcs[i]);
      JobClosesIff(w.tables, w.pcs[i], job);
    }
  }

  lemma {:induction false} ClientAddsNoProvenance(t: Tables, op: Op)
    requires Outside(op) && ApplyOp(t, op).Ok?
    ensures NoNewProvenance(t, ApplyOp(t, op).value)
  {
    if op.Add? { AddNoProvenance(t, op.entity); }
  }

  lemma {:induction false} ClientAddsNoLink(w: World, op: Op)
    requires WorldOk(w) && w.tx.None? && Outside(op) && ApplyOp(w.tables, op).Ok? && Acyclic(w.tables)
    ensures Acyclic(Next(w, Client(op)).tables)
  {
    var t' := ApplyOp(w.tables, op).value;
    ClientFollows(w.tables, op);
    ClientAddsNoProvenance(w.tables, op);
    NoProvenanceNoLink(w.tables, t');
    OldLinksOnly(w.tables, t');
  }

  lemma {:induction false} NextClosesIff(w: World, a: Action)
    requires WorldOk(w) && Acyclic(w.tables)
    ensures Acyclic(Next(w, a).tables) <==> !ClosesCycle(w, a)
  {
    if a.Client? {
      if w.tx.None? && Outside(a.op) && ApplyOp(w.tables, a.op).Ok? { ClientAddsNoLink(w, a.op); }
    } else if a.Commit? {
      CommitClosesIff(w);
    } else {
      SameSize(w, a);
    }
  }

  // Every trace ------------------------------------------------------------------------------------------

  /** No step along the way commits a start that closes a cycle. */
  ghost predicate NeverCloses(w: World, actions: seq<Action>) {
    forall k: nat :: k < |actions| ==> !ClosesAt(w, actions, k)
  }

  ghost predicate ClosesAt(w: World, actions: seq<Action>, k: nat)
    requires k < |actions|
  {
    ClosesCycle(Trace(w, actions[..k]), actions[k])
  }

  lemma {:induction false} ClosesAtPrefix(w: World, actions: seq<Action>, n: nat, k: nat)
    requires k < n <= |actions|
    ensures ClosesAt(w, actions[..n], k) <==> ClosesAt(w, actions, k)
  {
    assert actions[..n][..k] == actions[..k];
  }

  ghost predicate NoneCloses(w: World, actions: seq<Action>, n: nat)
    requires n <= |actions|
  {
    forall k: nat :: k < n ==> !ClosesAt(w, actions, k)
  }

  lemma {:induction false} PrefixCloses(w: World, actions: seq<Action>, n: nat)
    requires n <= |actions|
    ensures NeverCloses(w, actions[..n]) <==> NoneCloses(w, actions, n)
  {
    forall k: nat | k < n ensures ClosesAt(w, actions[..n], k) <==> ClosesAt(w, actions, k) {
      ClosesAtPrefix(w, actions, n, k);
    }
  }

  lemma {:induction false} NeverClosesSplit(w: World, actions: seq<Action>)
    requires actions != []
    ensures var n := |actions| - 1; NeverCloses(w, actions) <==> NeverCloses(w, actions[..n]) && !ClosesAt(w, actions, n)
  {
    var n := |actions| - 1;
    PrefixCloses(w, actions, n);
    assert NeverCloses(w, actions) <==> NoneCloses(w, actions, n) && !ClosesAt(w, actions, n);
  }

  lemma {:induction false} TraceClosesIff(w: World, actions: seq<Action>)
    requires WorldOk(w) && Acyclic(w.tables)
    ensures Acyclic(Trace(w, actions).tables) <==> NeverCloses(w, actions)
  {
    if actions != [] {
      var n := |actions| - 1;
      var before := Trace(w, actions[..n]);
      TraceClosesIff(w, actions[..n]);
      TraceKeepsOk(w, actions[..n]);
      NeverClosesSplit(w, actions);
      if Acyclic(before.tables) {
        NextClosesIff(before, actions[n]);
      } else {
        NextKeepsOk(before, actions[n]);
        CyclesStay(before.tables, Next(before, actions[n]).tables);
      }
    }
  }

  lemma {:induction false} EmptyIsAcyclic()
    ensures Acyclic(EMPTY)
  {
  }

  /** Whoever calls `execute` with whatever `replay_of`: the registry that any number of executors reach has
      acyclic replay links exactly when no committed start's original led back to its run. */
  lemma {:induction false} ReachedIsAcyclicIff(n: nat, actions: seq<Action>)
    ensures Acyclic(Trace(Initial(n), actions).tables) <==> NeverCloses(Initial(n), actions)
  {
    InitialIsOk(n);
    EmptyIsAcyclic();
    TraceClosesIff(Initial(n), actions);
  }

  /** Callers who name started runs never close a cycle. */
  lemma {:induction false} CarefulNeverCloses(n: nat, actions: seq<Action>)
    requires CarefulTrace(Initial(n), actions)
    ensures NeverCloses(Initial(n), actions)
  {
    forall p | ReplayPath(Trace(Initial(n), actions).tables, p) ensures NoRepeat(p) {
      ReachedReplaysFormForest(n, actions, p);
    }
    ReachedIsAcyclicIff(n, actions);
  }

  // Experiments -------------------------------------------------------------------------------------------

  ghost predicate LinksWithin(t: Tables) { forall a, b :: Replays(t, a, b) ==> SameExperiment(t, a, b) }

  lemma {:induction false} WithinGrows(t: Tables, t': Tables, a: Id, b: Id)
    requires Grows(t, t') && SameExperiment(t, a, b)
    ensures SameExperiment(t', a, b)
  {
  }

  lemma {:induction false} OldLinksWithin(t: Tables, t': Tables)
    requires LinksWithin(t) && NoMoreLinks(t, t') && Grows(t, t')
    ensures LinksWithin(t')
  {
    forall a, b | Replays(t', a, b) ensures SameExperiment(t', a, b) { WithinGrows(t, t', a, b); }
  }

  lemma {:induction false} StartKeepsWithin(t: Tables, pc: Pc, job: Job)
    requires LifecycleOk(t) && PcOk(t, pc) && Allowed(pc, job) && job.Start? && PerformAll(t, ScriptOf(pc, job)).Ok?
    requires LinksWithin(t) && Grows(t, PerformAll(t, ScriptOf(pc, job)).value)
    ensures LinksWithin(PerformAll(t, ScriptOf(pc, job)).value)
  {
    var p, r := ProvenanceOf(pc, job.startedAt, job.pid), IdOf(pc.run);
    var t' := PerformAll(t, Pair(p, pc.run, Running)).value;
    PairEffect(t, p, pc.run, Running);
    StartAdmittedIff(t, pc, job.startedAt, job.pid);
    if pc.replayOf.Some? {
      StartAddsLink(t, t', p, r, pc.replayOf.value);
      OneMoreWithin(t, t', r, pc.replayOf.value);
    } else {
      UnlinkedStart(t, t', p, r);
      OldLinksWithin(t, t');
    }
  }

  lemma {:induction false} OneMoreWithin(t: Tables, t': Tables, r: Id, o: Id)
    requires LinksWithin(t) && OneMoreLink(t, t', r, o) && SameExperiment(t, r, o) && Grows(t, t')
    ensures LinksWithin(t')
  {
    forall a, b | Replays(t', a, b) ensures SameExperiment(t', a, b) { WithinGrows(t, t', a, b); }
  }

  lemma {:induction false} CommitKeepsWithin(w: World)
    requires WorldOk(w) && LinksWithin(w.tables) && Grows(w.tables, Committed(w).tables)
    ensures LinksWithin(Committed(w).tables)
  {
    if Committed(w) != w {
      var Tx(i, job, done, work) := w.tx.value;
      var script := ScriptOf(w.pcs[i], job);
      assert script[..done] == script;
      assert PcOk(w.tables, w.pcs[i]);
      if job.Start? {
        StartKeepsWithin(w.tables, w.pcs[i], job);
      } else {
        OthersAddNoProvenance(w.tables, w.pcs[i], job);
        JobDone(w.tables, w.pcs[i], job);
        NoProvenanceNoLink(w.tables, work);
        OldLinksWithin(w.tables, work);
      }
    }
  }

  lemma {:induction false} ClientKeepsWithin(t: Tables, op: Op)
    requires LifecycleOk(t) && LinksWithin(t) && Outside(op) && ApplyOp(t, op).Ok?
    ensures LinksWithin(ApplyOp(t, op).value)
  {
    ClientFollows(t, op);
    ClientAddsNoProvenance(t, op);
    NoProvenanceNoLink(t, ApplyOp(t, op).value);
    OldLinksWithin(t, ApplyOp(t, op).value);
  }

  lemma {:induction false} NextKeepsWithin(w: World, a: Action)
    requires WorldOk(w) && LinksWithin(w.tables) && Grows(w.tables, Next(w, a).tables) && WorldOk(Next(w, a))
    ensures LinksWithin(Next(w, a).tables)
  {
    if a.Commit? {
      CommitKeepsWithin(w);
    } else if a.Client? {
      if w.tx.None? && Outside(a.op) && ApplyOp(w.tables, a.op).Ok? { ClientKeepsWithin(w.tables, a.op); }
    } else {
      SameSize(w, a);
    }
  }

  lemma {:induction false} TraceKeepsWithin(w: World, actions: seq<Action>)
    requires WorldOk(w) && LinksWithin(w.tables)
    ensures LinksWithin(Trace(w, actions).tables)
  {
    if actions != [] {
      var n := |actions| - 1;
      TraceKeepsWithin(w, actions[..n]);
      TraceKeepsOk(w, actions[..n]);
      NextKeepsOk(Trace(w, actions[..n]), actions[n]);
      NextKeepsWithin(Trace(w, actions[..n]), actions[n]);
    }
  }

  /** Replay links never leave an experiment, whoever calls `execute`. */
  lemma {:induction false} ReachedLinksStayWithin(n: nat, actions: seq<Action>)
    ensures LinksWithin(Trace(Initial(n), actions).tables)
  {
    InitialIsOk(n);
    TraceKeepsWithin(Initial(n), actions);
  }
}
