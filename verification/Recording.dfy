/** What the executor remembers of a running procedure's observations and artifacts. */
module Recording {
  import opened Common
  import opened Domain
  import opened Store
  import opened RegistryLaws

  datatype Notes = Notes(observations: seq<Id>, artifacts: seq<Id>, sequence: map<string, nat>)

  const NOTHING := Notes([], [], map[])

  function NextSequence(notes: Notes, name: string): nat {
    if name in notes.sequence then notes.sequence[name] else 0
  }

  function Observed(notes: Notes, run: Id, name: string): Notes {
    var n := NextSequence(notes, name);
    notes.(observations := notes.observations + [ObservationId(run, name, n)], sequence := notes.sequence[name := n + 1])
  }

  function Registered(notes: Notes, artifact: Id): Notes { notes.(artifacts := notes.artifacts + [artifact]) }

  predicate Distinct(s: seq<Id>) { forall i, j :: 0 <= i < j < |s| ==> s[i] != s[j] }

  /** The notes list exactly the registry's observations of the run, whose sequence numbers have no
      gaps under any name, and only artifacts of the run. */
  ghost predicate InSync(t: Tables, run: Id, notes: Notes) {
    && Distinct(notes.observations)
    && (forall id :: id in notes.observations <==> id.ObservationId? && id.run == run && id in t.rows)
    && (forall name: string, n: nat :: ObservationId(run, name, n) in t.rows <==> n < NextSequence(notes, name))
    && (forall a :: a in notes.artifacts ==> a.ArtifactId? && a.run == run && a in t.rows)
  }

  lemma {:induction false} DistinctSize(s: seq<Id>)
    requires Distinct(s)
    ensures |set id | id in s| == |s|
  {
    if s == [] {
      assert (set id | id in s) == {};
    } else {
      var n := |s| - 1;
      DistinctSize(s[..n]);
      assert (set id | id in s) == (set id | id in s[..n]) + {s[n]};
    }
  }

  lemma {:induction false} ObservationRow(t: Tables, id: Id, run: Id)
    requires Listed(t) && InStep(t) && id in t.rows
    ensures id in Select(t, Observations, ByRun(run)) <==> id.ObservationId? && id.run == run
  {
    var e := t.rows[id].payload;
    assert IdOf(e) == id;
    if e.Observation? {
      assert "run_id" in ColumnsOf(e) && ColumnsOf(e)["run_id"] == Some(IdCell(e.run));
      assert Matches(ColumnsOf(e), ByRun(run)) <==> e.run == run;
    }
  }

  /** So the count an outcome states is the one the registry will compute. */
  lemma {:induction false} CountsAgree(t: Tables, run: Id, notes: Notes)
    requires Sound(t) && InSync(t, run, notes)
    ensures |Select(t, Observations, ByRun(run))| == |notes.observations|
  {
    var found := Select(t, Observations, ByRun(run));
    forall id ensures id in found.Keys <==> id in notes.observations {
      if id in t.rows { ObservationRow(t, id, run); }
    }
    assert found.Keys == set id | id in notes.observations;
    DistinctSize(notes.observations);
    assert |found| == |found.Keys|;
  }

  lemma {:induction false} NothingInSync(t: Tables, run: Id)
    requires forall id :: id in t.rows && id.ObservationId? ==> id.run != run
    ensures InSync(t, run, NOTHING)
  {
  }

  lemma {:induction false} ObserveKeepsSync(t: Tables, run: Id, notes: Notes, e: Entity)
    requires Sound(t) && InSync(t, run, notes)
    requires e.Observation? && e.run == run && e.sequence == NextSequence(notes, e.name)
    ensures InSync(Insert(t, e), run, Observed(notes, run, e.name))
  {
    var t', after := Insert(t, e), Observed(notes, run, e.name);
    assert IdOf(e) !in t.rows;
    assert after.observations == notes.observations + [IdOf(e)];
    forall id ensures id in after.observations <==> id.ObservationId? && id.run == run && id in t'.rows {
      assert id in after.observations <==> id in notes.observations || id == IdOf(e);
    }
    forall i, j | 0 <= i < j < |after.observations| ensures after.observations[i] != after.observations[j] {
      assert notes.observations[i] in notes.observations;
    }
  }

  /** While its run is the recorder's own, an observation is never refused. */
  lemma {:induction false} ObserveSucceeds(t: Tables, run: Id, notes: Notes, e: Entity)
    requires Sound(t) && InSync(t, run, notes) && RunIs(t, run)
    requires e.Observation? && e.run == run && e.sequence == NextSequence(notes, e.name)
    ensures AddTo(t, e).Ok?
  {
  }

  lemma {:induction false} RegisterKeepsSync(t: Tables, run: Id, notes: Notes, e: Entity)
    requires Sound(t) && InSync(t, run, notes) && e.Artifact? && e.run == run
    ensures InSync(Insert(t, e), run, Registered(notes, IdOf(e)))
  {
    var t', after := Insert(t, e), Registered(notes, IdOf(e));
    forall a | a in after.artifacts ensures a.ArtifactId? && a.run == run && a in t'.rows {
      assert a in notes.artifacts || a == IdOf(e);
    }
  }

  /** Nothing another connection commits disturbs the notes, unless it observes for the same run. */
  lemma {:induction false} SyncIsStable(t: Tables, t': Tables, run: Id, notes: Notes)
    requires InSync(t, run, notes) && Grows(t, t')
    requires forall id :: id in t'.rows && id.ObservationId? && id.run == run ==> id in t.rows
    ensures InSync(t', run, notes)
  {
  }

  // Observations over time ---------------------------------------------------------------------------

  /** An observation of the run that was not there before. */
  ghost predicate ObservedSince(t0: Tables, t: Tables, run: Id) {
    exists id :: id in t.rows && id.ObservationId? && id.run == run && id !in t0.rows
  }

  lemma {:induction false} ObservationsStay(t0: Tables, t: Tables, run: Id)
    requires Sound(t0) && Sound(t) && Grows(t0, t)
    ensures Select(t0, Observations, ByRun(run)).Keys <= Select(t, Observations, ByRun(run)).Keys
    ensures ObservedSince(t0, t, run) <==> Select(t0, Observations, ByRun(run)).Keys != Select(t, Observations, ByRun(run)).Keys
  {
    var a, b := Select(t0, Observations, ByRun(run)).Keys, Select(t, Observations, ByRun(run)).Keys;
    forall id ensures id in a <==> id in t0.rows && id.ObservationId? && id.run == run {
      if id in t0.rows { ObservationRow(t0, id, run); }
    }
    forall id ensures id in b <==> id in t.rows && id.ObservationId? && id.run == run {
      if id in t.rows { ObservationRow(t, id, run); }
    }
  }

  /** The count of a run's observations never falls, and rises exactly if one was added. */
  lemma {:induction false} CountsGrow(t0: Tables, t: Tables, run: Id)
    requires Sound(t0) && Sound(t) && Grows(t0, t)
    ensures |Select(t0, Observations, ByRun(run))| <= |Select(t, Observations, ByRun(run))|
    ensures ObservedSince(t0, t, run) <==> |Select(t0, Observations, ByRun(run))| < |Select(t, Observations, ByRun(run))|
  {
    var a, b := Select(t0, Observations, ByRun(run)), Select(t, Observations, ByRun(run));
    ObservationsStay(t0, t, run);
    assert |a| == |a.Keys| && |b| == |b.Keys|;
    SubsetSizes(a.Keys, b.Keys);
  }

  lemma {:induction false} SubsetSizes(a: set<Id>, b: set<Id>)
    requires a <= b
    ensures |a| <= |b| && (a != b <==> |a| < |b|)
  {
    assert b == a + (b - a) && |b| == |a| + |b - a|;
    assert b - a == {} <==> a == b;
  }
}
