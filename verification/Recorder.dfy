/** The object through which a procedure's observations and artifacts reach the registry. */
module RunRecorder {
  import opened Common
  import opened Domain
  import opened Store
  import opened RegistryLaws
  import opened SqliteRegistry
  import opened Recording

  /** The registry knows the run, and the notes agree with what it holds. */
  ghost predicate Kept(t: Tables, run: Id, notes: Notes) { Sound(t) && RunIs(t, run) && InSync(t, run, notes) }

  lemma {:induction false} ObservationFits(t: Tables, run: Id, notes: Notes, e: Entity)
    requires Kept(t, run, notes)
    requires e.Observation? && e.run == run && e.sequence == NextSequence(notes, e.name)
    ensures AddTo(t, e) == Ok(Insert(t, e)) && Kept(Insert(t, e), run, Observed(notes, run, e.name))
  {
    ObserveSucceeds(t, run, notes, e);
    AddKeepsSound(t, e);
    ObserveKeepsSync(t, run, notes, e);
  }

  lemma {:induction false} ArtifactFits(t: Tables, run: Id, notes: Notes, e: Entity)
    requires Kept(t, run, notes) && e.Artifact? && e.run == run
    ensures AddTo(t, e).Ok? <==> IdOf(e) !in t.rows
    ensures AddTo(t, e).Ok? ==> Kept(Insert(t, e), run, Registered(notes, IdOf(e)))
  {
    if AddTo(t, e).Ok? {
      AddKeepsSound(t, e);
      RegisterKeepsSync(t, run, notes, e);
    }
  }

  class Recorder {
    const conn: Connection
    const run: Id
    var observations: seq<Id>
    var artifacts: seq<Id>
    var sequence: map<string, nat>

    constructor (conn: Connection, run: Id)
      ensures this.conn == conn && this.run == run && Contents() == NOTHING
    {
      this.conn, this.run := conn, run;
      observations, artifacts, sequence := [], [], map[];
    }

    function Contents(): Notes
      reads this
    {
      Notes(observations, artifacts, sequence)
    }

    ghost predicate Valid()
      reads this, conn, conn.db
    {
      conn.Valid() && Kept(conn.View(), run, Contents())
    }

    method Remember(name: string, n: nat)
      requires n == NextSequence(Contents(), name)
      modifies this
      ensures Contents() == Observed(old(Contents()), run, name)
    {
      sequence := sequence[name := n + 1];
      observations := observations + [ObservationId(run, name, n)];
    }

    /** Stores the next observation under a name; only the write lock can stand in its way. */
    method Observe(name: string, value: string, now: int) returns (r: Result<Entity, Error>)
      requires Valid()
      modifies this, conn, conn.db
      ensures Valid() && conn.depth == old(conn.depth) && conn.db.locked == old(conn.db.locked)
      ensures r.Ok? <==> old(conn.depth) > 0 || !old(conn.db.locked)
      ensures r.Ok? ==> r.value == Observation(run, name, NextSequence(old(Contents()), name), now, value)
      ensures r.Ok? ==> conn.View() == Insert(old(conn.View()), r.value) && Contents() == Observed(old(Contents()), run, name)
      ensures r.Err? ==> conn.View() == old(conn.View()) && Contents() == old(Contents())
    {
      var n := NextSequence(Contents(), name);
      var e := Observation(run, name, n, now, value);
      ghost var t, notes := conn.View(), Contents();
      ObservationFits(t, run, notes, e);
      var added := conn.Apply(Add(e));
      if added.Err? {
        return Err(added.error);
      }
      Remember(name, n);
      r := Ok(e);
    }

    /** Stores an artifact; the same file twice is refused and changes nothing. */
    method Register(path: string, digest: string, now: int) returns (r: Result<Entity, Error>)
      requires Valid()
      modifies this, conn, conn.db
      ensures Valid() && conn.depth == old(conn.depth) && conn.db.locked == old(conn.db.locked)
      ensures r.Ok? <==> (old(conn.depth) > 0 || !old(conn.db.locked)) && ArtifactId(run, path, digest) !in old(conn.View()).rows
      ensures r.Ok? ==> r.value == Artifact(run, path, digest, now)
      ensures r.Ok? ==> conn.View() == Insert(old(conn.View()), r.value) && Contents() == Registered(old(Contents()), IdOf(r.value))
      ensures r.Err? ==> conn.View() == old(conn.View()) && Contents() == old(Contents())
    {
      var e := Artifact(run, path, digest, now);
      ArtifactFits(conn.View(), run, Contents(), e);
      var added := conn.Apply(Add(e));
      if added.Err? {
        return Err(added.error);
      }
      artifacts := artifacts + [IdOf(e)];
      r := Ok(e);
    }
  }
}
