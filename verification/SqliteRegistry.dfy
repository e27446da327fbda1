/** One connection to the registry: nested transactions over a shared database with a single writer. */
module SqliteRegistry {
  import opened Common
  import opened Domain
  import opened Store
  import opened RegistryLaws

  // Client code -----------------------------------------------------------------------------------

  /** Code that uses a registry: writes, raising, `with transaction()` blocks and handlers that
      swallow an exception. */
  datatype Prog =
    | Skip
    | Raise
    | Write(op: Op)
    | Then(first: Prog, second: Prog)
    | Block(body: Prog)
    | Attempting(body: Prog)

  /** What the code does to the tables this connection sees, and whether it ends normally. `inside`:
      a transaction is open; `free`: the write lock can be had. */
  function Effect(p: Prog, t: Tables, inside: bool, free: bool): (Tables, bool)
    decreases p
  {
    match p
    case Skip => (t, true)
    case Raise => (t, false)
    case Write(op) =>
      if !inside && !free then (t, false)
      else (match ApplyOp(t, op) case Ok(t') => (t', true) case Err(_) => (t, false))
    case Then(a, b) =>
      var (t', ok) := Effect(a, t, inside, free);
      if ok then Effect(b, t', inside, free) else (t', false)
    case Block(body) =>
      if !inside && !free then (t, false)
      else
        var (t', ok) := Effect(body, t, true, false);
        if ok || inside then (t', ok) else (t, false)
    case Attempting(body) => (Effect(body, t, inside, free).0, true)
  }

  /** How many transactions the code commits and rolls back, counting outermost blocks only. */
  function Ends(p: Prog, t: Tables, inside: bool, free: bool): (nat, nat)
    decreases p
  {
    match p
    case Skip => (0, 0)
    case Raise => (0, 0)
    case Write(op) => if inside || !free then (0, 0) else if ApplyOp(t, op).Ok? then (1, 0) else (0, 1)
    case Then(a, b) =>
      var (c, r) := Ends(a, t, inside, free);
      var (t', ok) := Effect(a, t, inside, free);
      if ok then var (c', r') := Ends(b, t', inside, free); (c + c', r + r') else (c, r)
    case Block(body) =>
      if inside || !free then (0, 0) else if Effect(body, t, true, false).1 then (1, 0) else (0, 1)
    case Attempting(body) => Ends(body, t, inside, free)
  }

  /** Nested blocks issue no COMMIT or ROLLBACK of their own. */
  lemma {:induction false} NestedEndsNothing(p: Prog, t: Tables, free: bool)
    ensures Ends(p, t, true, free) == (0, 0)
    decreases p
  {
    match p
    case Then(a, b) =>
      NestedEndsNothing(a, t, free);
      NestedEndsNothing(b, Effect(a, t, true, free).0, free);
    case Attempting(body) => NestedEndsNothing(body, t, free);
    case _ =>
  }

  // The connection --------------------------------------------------------------------------------

  class Database {
    var committed: Tables
    var locked: bool

    constructor ()
      ensures committed == EMPTY && !locked
    {
      committed, locked := EMPTY, false;
    }
  }

  class Connection {
    const db: Database
    var depth: nat
    var working: Tables
    var commits: nat
    var rollbacks: nat

    constructor (db: Database)
      ensures this.db == db && depth == 0 && commits == 0 && rollbacks == 0
    {
      this.db := db;
      depth, working, commits, rollbacks := 0, EMPTY, 0, 0;
    }

    /** An open transaction holds the lock; the lock is exclusive. */
    ghost predicate Valid()
      reads this, db
    {
      depth > 0 ==> db.locked
    }

    function View(): Tables
      reads this, db
    {
      if depth == 0 then db.committed else working
    }

    /** Entering a `transaction()` block. */
    method Enter() returns (r: Result<(), Error>)
      requires Valid()
      modifies this, db
      ensures Valid() && commits == old(commits) && rollbacks == old(rollbacks)
      ensures View() == old(View()) && db.committed == old(db.committed)
      ensures r.Ok? <==> old(depth) > 0 || !old(db.locked)
      ensures r.Err? ==> r == Err(Busy)
      ensures depth == if r.Ok? then old(depth) + 1 else old(depth)
      ensures db.locked == (old(db.locked) || r.Ok?)
    {
      if depth == 0 {
        if db.locked {
          return Err(Busy);
        }
        db.locked := true;
        working := db.committed;
      }
      depth := depth + 1;
      r := Ok(());
    }

    /** Leaving a block normally: the outermost one commits. */
    method Exit()
      requires Valid() && depth > 0
      modifies this, db
      ensures Valid() && depth == old(depth) - 1 && View() == old(View())
      ensures db.committed == if depth == 0 then old(working) else old(db.committed)
      ensures db.locked == (depth > 0)
      ensures commits == old(commits) + (if depth == 0 then 1 else 0) && rollbacks == old(rollbacks)
    {
      depth := depth - 1;
      if depth == 0 {
        db.committed := working;
        db.locked := false;
        commits := commits + 1;
      }
    }

    /** An exception escapes a block: the outermost one rolls back. */
    method Abort()
      requires Valid() && depth > 0
      modifies this, db
      ensures Valid() && depth == old(depth) - 1 && db.committed == old(db.committed)
      ensures View() == if depth == 0 then old(db.committed) else old(View())
      ensures db.locked == (depth > 0)
      ensures rollbacks == old(rollbacks) + (if depth == 0 then 1 else 0) && commits == old(commits)
    {
      depth := depth - 1;
      if depth == 0 {
        db.locked := false;
        rollbacks := rollbacks + 1;
      }
    }

    /** `add` and `update_status`: one admission check and one statement inside their own block. */
    method Apply(op: Op) returns (r: Result<(), Error>)
      requires Valid()
      modifies this, db
      ensures Valid() && depth == old(depth) && db.locked == old(db.locked)
      ensures r.Ok? ==> ApplyOp(old(View()), op) == Ok(View())
      ensures r.Err? ==> View() == old(View()) && db.committed == old(db.committed)
      ensures r.Err? <==> (old(depth) == 0 && old(db.locked)) || ApplyOp(old(View()), op).Err?
      ensures r.Err? ==> if old(depth) == 0 && old(db.locked) then r == Err(Busy) else ApplyOp(old(View()), op) == Err(r.error)
      ensures db.committed == if depth == 0 then View() else old(db.committed)
      ensures (View(), r.Ok?) == Effect(Write(op), old(View()), old(depth) > 0, !old(db.locked))
      ensures (commits, rollbacks) ==
              var e := Ends(Write(op), old(View()), old(depth) > 0, !old(db.locked));
              (old(commits) + e.0, old(rollbacks) + e.1)
    {
      r := Enter();
      if r.Err? {
        return;
      }
      match ApplyOp(working, op)
      case Err(e) =>
        Abort();
        r := Err(e);
      case Ok(t) =>
        working := t;
        Exit();
    }

    /** Runs client code against this connection. */
    method Exec(p: Prog) returns (ok: bool)
      requires Valid()
      modifies this, db
      ensures Valid() && depth == old(depth) && db.locked == old(db.locked)
      ensures (View(), ok) == Effect(p, old(View()), old(depth) > 0, !old(db.locked))
      ensures db.committed == if depth == 0 then View() else old(db.committed)
      ensures (commits, rollbacks) ==
              var e := Ends(p, old(View()), old(depth) > 0, !old(db.locked));
              (old(commits) + e.0, old(rollbacks) + e.1)
      decreases p
    {
      match p
      case Skip => ok := true;
      case Raise => ok := false;
      case Write(op) =>
        var r := Apply(op);
        ok := r.Ok?;
      case Then(a, b) =>
        ok := Exec(a);
        if ok {
          ok := Exec(b);
        }
      case Block(body) =>
        var r := Enter();
        if r.Err? {
          return false;
        }
        NestedEndsNothing(body, View(), !db.locked);
        ok := Exec(body);
        if ok {
          Exit();
        } else {
          Abort();
        }
      case Attempting(body) =>
        var _ := Exec(body);
        ok := true;
    }
  }

  // What a block commits ------------------------------------------------------------------------

  /** The writes of the code that took effect and were not rolled back, in order. */
  function Surviving(p: Prog, t: Tables, inside: bool, free: bool): seq<Op>
    decreases p
  {
    match p
    case Skip => []
    case Raise => []
    case Write(op) => if (inside || free) && ApplyOp(t, op).Ok? then [op] else []
    case Then(a, b) =>
      var (t', ok) := Effect(a, t, inside, free);
      Surviving(a, t, inside, free) + if ok then Surviving(b, t', inside, free) else []
    case Block(body) =>
      if !inside && (!free || !Effect(body, t, true, false).1) then [] else Surviving(body, t, true, false)
    case Attempting(body) => Surviving(body, t, inside, free)
  }

  function ApplyAll(t: Tables, ops: seq<Op>): Result<Tables, Error> {
    if ops == [] then Ok(t)
    else
      match ApplyAll(t, ops[..|ops| - 1])
      case Err(e) => Err(e)
      case Ok(t') => ApplyOp(t', ops[|ops| - 1])
  }

  lemma {:induction false} ApplyAllAppend(t: Tables, a: seq<Op>, b: seq<Op>)
    requires ApplyAll(t, a).Ok?
    ensures ApplyAll(t, a + b) == ApplyAll(ApplyAll(t, a).value, b)
  {
    if b == [] {
      assert a + b == a;
    } else {
      ApplyAllAppend(t, a, b[..|b| - 1]);
      assert (a + b)[..|a + b| - 1] == a + b[..|b| - 1];
    }
  }

  /** The tables afterwards are the surviving writes applied one after the other, none refused. */
  lemma {:induction false} EffectIsSurviving(p: Prog, t: Tables, inside: bool, free: bool)
    ensures ApplyAll(t, Surviving(p, t, inside, free)) == Ok(Effect(p, t, inside, free).0)
    decreases p
  {
    match p
    case Skip =>
    case Raise =>
    case Write(op) => assert [op][..0] == [];
    case Then(a, b) =>
      var (t', ok) := Effect(a, t, inside, free);
      EffectIsSurviving(a, t, inside, free);
      if ok {
        EffectIsSurviving(b, t', inside, free);
        ApplyAllAppend(t, Surviving(a, t, inside, free), Surviving(b, t', inside, free));
      } else {
        assert Surviving(p, t, inside, free) == Surviving(a, t, inside, free);
      }
    case Block(body) => EffectIsSurviving(body, t, true, false);
    case Attempting(body) => EffectIsSurviving(body, t, inside, free);
  }

  /** An exception escaping the outermost block leaves nothing behind; a normal exit commits every
      write that was not itself refused; either way exactly one statement ends the transaction. */
  lemma {:induction false} BlocksAreAtomic(body: Prog, t: Tables)
    ensures var (t', ok) := Effect(Block(body), t, false, true);
            && (!ok ==> t' == t && Ends(Block(body), t, false, true) == (0, 1))
            && (ok ==> ApplyAll(t, Surviving(body, t, true, false)) == Ok(t') && Ends(Block(body), t, false, true) == (1, 0))
  {
    EffectIsSurviving(body, t, true, false);
  }

  // Code without handlers --------------------------------------------------------------------------

  predicate Unhandled(p: Prog) {
    match p
    case Then(a, b) => Unhandled(a) && Unhandled(b)
    case Block(body) => Unhandled(body)
    case Attempting(_) => false
    case _ => true
  }

  /** A `raise` somewhere in the code. */
  predicate Raises(p: Prog) {
    match p
    case Raise => true
    case Then(a, b) => Raises(a) || Raises(b)
    case Block(body) => Raises(body)
    case Attempting(body) => Raises(body)
    case _ => false
  }

  /** All writes in the code, in order. */
  function Writes(p: Prog): seq<Op> {
    match p
    case Write(op) => [op]
    case Then(a, b) => Writes(a) + Writes(b)
    case Block(body) => Writes(body)
    case Attempting(body) => Writes(body)
    case _ => []
  }

  lemma {:induction false} ApplyAllRefused(t: Tables, a: seq<Op>, b: seq<Op>)
    requires ApplyAll(t, a).Err?
    ensures ApplyAll(t, a + b).Err?
  {
    if b == [] {
      assert a + b == a;
    } else {
      ApplyAllRefused(t, a, b[..|b| - 1]);
      assert (a + b)[..|a + b| - 1] == a + b[..|b| - 1];
    }
  }

  /** Inside a transaction such code ends normally exactly when it has no `raise` and no write is refused. */
  lemma {:induction false} UnhandledEffect(p: Prog, t: Tables)
    requires Unhandled(p)
    ensures Effect(p, t, true, false).1 <==> !Raises(p) && ApplyAll(t, Writes(p)).Ok?
    ensures Effect(p, t, true, false).1 ==> ApplyAll(t, Writes(p)) == Ok(Effect(p, t, true, false).0)
    decreases p
  {
    match p
    case Then(a, b) =>
      var (t', ok) := Effect(a, t, true, false);
      UnhandledEffect(a, t);
      UnhandledEffect(b, t');
      if ApplyAll(t, Writes(a)).Ok? {
        ApplyAllAppend(t, Writes(a), Writes(b));
      } else {
        ApplyAllRefused(t, Writes(a), Writes(b));
      }
    case Block(body) => UnhandledEffect(body, t);
    case Write(op) => assert [op][..0] == [];
    case _ =>
  }

  /** Without handlers any exception, wherever it is raised, rolls everything back with one ROLLBACK;
      otherwise every write is committed with one COMMIT. */
  lemma {:induction false} UnhandledBlocksAreAtomic(body: Prog, t: Tables)
    requires Unhandled(body)
    ensures Raises(body) || ApplyAll(t, Writes(body)).Err? ==>
              Effect(Block(body), t, false, true) == (t, false) && Ends(Block(body), t, false, true) == (0, 1)
    ensures !Raises(body) && ApplyAll(t, Writes(body)).Ok? ==>
              && Effect(Block(body), t, false, true) == (ApplyAll(t, Writes(body)).value, true)
              && Ends(Block(body), t, false, true) == (1, 0)
  {
    UnhandledEffect(body, t);
  }

  /** But an exception swallowed inside the outer block keeps the writes made before it. */
  lemma {:induction false} SwallowedErrorKeepsWrites(op: Op, t: Tables)
    requires ApplyOp(t, op).Ok?
    ensures Effect(Block(Attempting(Block(Then(Write(op), Raise)))), t, false, true) == (ApplyOp(t, op).value, true)
  {
    assert Effect(Then(Write(op), Raise), t, true, false) == (ApplyOp(t, op).value, false);
    assert Effect(Attempting(Block(Then(Write(op), Raise))), t, true, false) == (ApplyOp(t, op).value, true);
  }

  lemma {:induction false} ApplyAllKeepsSound(t: Tables, ops: seq<Op>)
    requires Sound(t) && ApplyAll(t, ops).Ok?
    ensures Sound(ApplyAll(t, ops).value) && Grows(t, ApplyAll(t, ops).value)
  {
    if ops != [] {
      var t' := ApplyAll(t, ops[..|ops| - 1]).value;
      ApplyAllKeepsSound(t, ops[..|ops| - 1]);
      OpKeepsSound(t', ops[|ops| - 1]);
      GrowsTransitively(t, t', ApplyAll(t, ops).value);
    }
  }

  /** Any client code, failing or not, keeps the registry's invariants and only adds to it. */
  lemma {:induction false} ClientKeepsSound(p: Prog, t: Tables, inside: bool, free: bool)
    requires Sound(t)
    ensures Sound(Effect(p, t, inside, free).0) && Grows(t, Effect(p, t, inside, free).0)
  {
    EffectIsSurviving(p, t, inside, free);
    ApplyAllKeepsSound(t, Surviving(p, t, inside, free));
  }
}
