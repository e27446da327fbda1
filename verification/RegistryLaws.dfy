/** What the registry alone keeps, over any history of additions and status updates. */
module RegistryLaws {
  import opened Common
  import opened Domain
  import opened Store

  // Invariants ----------------------------------------------------------------------------------

  /** Insertion order lists every row once, under its own identity. */
  ghost predicate Listed(t: Tables) {
    && (forall i, j :: 0 <= i < j < |t.order| ==> t.order[i] != t.order[j])
    && (forall id :: id in t.order <==> id in t.rows)
    && (forall id :: id in t.rows ==> IdOf(t.rows[id].payload) == id && WellFormed(t.rows[id].payload))
  }

  /** Columns and payload agree. */
  ghost predicate InStep(t: Tables) {
    forall id :: id in t.rows ==> t.rows[id].columns == ColumnsOf(t.rows[id].payload)
  }

  /** Everything a record mentions was inserted before it. */
  ghost predicate RefsBefore(t: Tables)
    requires forall id :: id in t.order ==> id in t.rows
  {
    forall i, r :: 0 <= i < |t.order| && r in Refs(t.rows[t.order[i]].payload) ==> r in t.order[..i]
  }

  /** Attempts at a schedule unit are numbered without gaps. */
  ghost predicate AttemptsDense(t: Tables) {
    forall u, n, m: nat :: AttemptId(u, n) in t.rows && m < n ==> AttemptId(u, m) in t.rows
  }

  ghost predicate Sound(t: Tables) { Listed(t) && InStep(t) && RefsBefore(t) && AttemptsDense(t) }

  /** Nothing is removed, nothing but a status changes, and a run's status only moves forward. */
  ghost predicate Grows(t: Tables, t': Tables) {
    && t.order <= t'.order
    && forall id :: id in t.rows ==>
         && id in t'.rows
         && SameButStatus(t.rows[id].payload, t'.rows[id].payload)
         && (t.rows[id].payload.Run? ==> RunReaches(t.rows[id].payload.status, t'.rows[id].payload.status))
  }

  lemma {:induction false} GrowsTransitively(a: Tables, b: Tables, c: Tables)
    requires Grows(a, b) && Grows(b, c)
    ensures Grows(a, c)
  {
    forall id | id in a.rows ensures id in c.rows && SameButStatus(a.rows[id].payload, c.rows[id].payload) {
      assert id in b.rows;
    }
  }

  // Counting dense attempts ---------------------------------------------------------------------

  function UpTo(u: Id, k: nat): set<Id> { set n: nat | n < k :: AttemptId(u, n) }

  lemma {:induction false} UpToSize(u: Id, k: nat)
    ensures |UpTo(u, k)| == k
  {
    if k == 0 {
      assert UpTo(u, k) == {};
    } else {
      UpToSize(u, k - 1);
      assert UpTo(u, k) == UpTo(u, k - 1) + {AttemptId(u, k - 1)};
    }
  }

  lemma {:induction false} SubsetSize<T>(a: set<T>, b: set<T>)
    requires a <= b
    ensures |a| <= |b|
  {
    assert b == a + (b - a);
  }

  /** A set of attempts closed downwards is an initial segment as long as its size. */
  lemma {:induction false} DenseIsSegment(u: Id, s: set<Id>)
    requires forall a :: a in s ==> a.AttemptId? && a.unit == u
    requires forall n, m: nat :: AttemptId(u, n) in s && m < n ==> AttemptId(u, m) in s
    ensures s == UpTo(u, |s|)
  {
    var k := 0;
    SegmentBound(u, s, 0);
    while AttemptId(u, k) in s
      invariant UpTo(u, k) <= s && k <= |s|
      decreases |s| - k
    {
      assert UpTo(u, k + 1) == UpTo(u, k) + {AttemptId(u, k)};
      k := k + 1;
      SegmentBound(u, s, k);
    }
    forall a | a in s ensures a in UpTo(u, k) {
      assert a == AttemptId(u, a.attempt);
    }
    assert s == UpTo(u, k);
    UpToSize(u, k);
  }

  lemma {:induction false} SegmentBound(u: Id, s: set<Id>, k: nat)
    ensures UpTo(u, k) <= s ==> k <= |s|
  {
    UpToSize(u, k);
    if UpTo(u, k) <= s { SubsetSize(UpTo(u, k), s); }
  }

  lemma {:induction false} AttemptsAreSegment(t: Tables, u: Id)
    requires Listed(t) && InStep(t) && AttemptsDense(t)
    ensures var found := Select(t, Attempts, map["unit_id" := IdCell(u)]);
            && found.Keys == UpTo(u, |found|)
            && forall n: nat :: AttemptId(u, n) in t.rows <==> n < |found|
  {
    var filters: map<string, Cell> := map["unit_id" := IdCell(u)];
    var found := Select(t, Attempts, filters);
    forall id | id in t.rows
      ensures id in found <==> id.AttemptId? && id.unit == u
    {
      AttemptRow(t, id, u);
    }
    DenseIsSegment(u, found.Keys);
    assert |found| == |found.Keys|;
    forall n: nat ensures AttemptId(u, n) in t.rows <==> n < |found| {
      assert AttemptId(u, n) in found.Keys <==> AttemptId(u, n) in UpTo(u, |found|);
    }
  }

  lemma {:induction false} AttemptRow(t: Tables, id: Id, u: Id)
    requires Listed(t) && InStep(t) && id in t.rows
    ensures id in Select(t, Attempts, map["unit_id" := IdCell(u)]) <==> id.AttemptId? && id.unit == u
  {
    var e := t.rows[id].payload;
    var filters: map<string, Cell> := map["unit_id" := IdCell(u)];
    assert IdOf(e) == id;
    if e.Attempt? {
      assert "unit_id" in ColumnsOf(e) && ColumnsOf(e)["unit_id"] == Some(IdCell(e.unit));
      assert Matches(ColumnsOf(e), filters) <==> e.unit == u;
    }
  }

  // One step ------------------------------------------------------------------------------------

  lemma {:induction false} AddKeepsDense(t: Tables, e: Entity)
    requires Sound(t) && AddTo(t, e).Ok?
    ensures AttemptsDense(Insert(t, e))
  {
    var t' := Insert(t, e);
    if e.Attempt? {
      AttemptsAreSegment(t, e.unit);
    }
    forall u, n, m: nat | AttemptId(u, n) in t'.rows && m < n ensures AttemptId(u, m) in t'.rows {
      if AttemptId(u, n) !in t.rows { assert AttemptId(u, n) == IdOf(e); }
    }
  }

  lemma {:induction false} AddKeepsListed(t: Tables, e: Entity)
    requires Listed(t) && AddTo(t, e).Ok?
    ensures Listed(Insert(t, e))
  {
    var t' := Insert(t, e);
    forall i, j | 0 <= i < j < |t'.order| ensures t'.order[i] != t'.order[j] {
      assert t.order[i] in t.order;
    }
    forall id ensures id in t'.order <==> id in t'.rows {
      assert id in t'.order <==> id in t.order || id == IdOf(e);
    }
  }

  lemma {:induction false} AddKeepsRefs(t: Tables, e: Entity)
    requires Listed(t) && RefsBefore(t) && AddTo(t, e).Ok? && Listed(Insert(t, e))
    ensures RefsBefore(Insert(t, e))
  {
    var t' := Insert(t, e);
    forall i, r | 0 <= i < |t'.order| && r in Refs(t'.rows[t'.order[i]].payload) ensures r in t'.order[..i] {
      if i < |t.order| {
        OldRefs(t, e, i, r);
      } else {
        assert t'.order[..i] == t.order;
        assert r in t.rows;
      }
    }
  }

  lemma {:induction false} OldRefs(t: Tables, e: Entity, i: nat, r: Id)
    requires Listed(t) && RefsBefore(t) && IdOf(e) !in t.rows && i < |t.order|
    requires r in Refs(Insert(t, e).rows[t.order[i]].payload)
    ensures r in Insert(t, e).order[..i]
  {
    assert Insert(t, e).order[..i] == t.order[..i];
    assert t.order[i] in t.order;
    assert r in Refs(t.rows[t.order[i]].payload);
  }

  lemma {:induction false} AddGrows(t: Tables, e: Entity)
    requires AddTo(t, e).Ok?
    ensures Grows(t, Insert(t, e))
  {
  }

  lemma {:induction false} AddKeepsSound(t: Tables, e: Entity)
    requires Sound(t) && AddTo(t, e).Ok?
    ensures Sound(AddTo(t, e).value) && Grows(t, AddTo(t, e).value)
  {
    AddGrows(t, e);
    AddKeepsListed(t, e);
    AddKeepsRefs(t, e);
    AddKeepsDense(t, e);
  }

  lemma {:induction false} StatusStepKeeps(a: Entity, b: Entity)
    requires StatusStep(a, b)
    ensures IdOf(b) == IdOf(a) && Refs(b) == Refs(a) && WellFormed(b) == WellFormed(a)
    ensures ColumnsOf(b) == ColumnsOf(a)["status" := ColumnValue(b, "status")]
  {
  }

  lemma {:induction false} UpdateGrows(t: Tables, e: Entity)
    requires UpdateStatus(t, e).Ok?
    ensures Grows(t, UpdateStatus(t, e).value) && UpdateStatus(t, e).value.rows.Keys == t.rows.Keys
  {
  }

  lemma {:induction false} UpdateKeepsListed(t: Tables, e: Entity)
    requires Listed(t) && InStep(t) && UpdateStatus(t, e).Ok?
    ensures Listed(UpdateStatus(t, e).value) && InStep(UpdateStatus(t, e).value)
  {
    StatusStepKeeps(t.rows[IdOf(e)].payload, e);
  }

  lemma {:induction false} UpdateKeepsRefs(t: Tables, e: Entity)
    requires Listed(t) && RefsBefore(t) && UpdateStatus(t, e).Ok?
    ensures RefsBefore(UpdateStatus(t, e).value)
  {
    var t' := UpdateStatus(t, e).value;
    StatusStepKeeps(t.rows[IdOf(e)].payload, e);
    forall i, r | 0 <= i < |t'.order| && r in Refs(t'.rows[t'.order[i]].payload) ensures r in t'.order[..i] {
      assert Refs(t'.rows[t.order[i]].payload) == Refs(t.rows[t.order[i]].payload);
    }
  }

  lemma {:induction false} UpdateKeepsSound(t: Tables, e: Entity)
    requires Sound(t) && UpdateStatus(t, e).Ok?
    ensures Sound(UpdateStatus(t, e).value) && Grows(t, UpdateStatus(t, e).value)
  {
    UpdateGrows(t, e);
    UpdateKeepsListed(t, e);
    UpdateKeepsRefs(t, e);
  }

  /** In a sound registry the compare-and-swap on the status column never fails. */
  lemma {:induction false} UpdateSucceedsIff(t: Tables, e: Entity)
    requires Sound(t)
    ensures UpdateStatus(t, e).Ok? <==> IdOf(e) in t.rows && StatusStep(t.rows[IdOf(e)].payload, e)
  {
    if IdOf(e) in t.rows && StatusStep(t.rows[IdOf(e)].payload, e) {
      var p := t.rows[IdOf(e)].payload;
      assert "status" in ColumnsOf(p) && ColumnsOf(p)["status"] == ColumnValue(p, "status");
    }
  }

  // Any history ---------------------------------------------------------------------------------

  datatype Op = Add(entity: Entity) | Update(entity: Entity)

  function ApplyOp(t: Tables, op: Op): Result<Tables, Error> {
    match op
    case Add(e) => AddTo(t, e)
    case Update(e) => UpdateStatus(t, e)
  }

  /** A history of operations, in which a refused one changes nothing. */
  function History(ops: seq<Op>): Tables {
    if ops == [] then EMPTY
    else
      var t := History(ops[..|ops| - 1]);
      match ApplyOp(t, ops[|ops| - 1])
      case Ok(t') => t'
      case Err(_) => t
  }

  lemma {:induction false} OpKeepsSound(t: Tables, op: Op)
    requires Sound(t) && ApplyOp(t, op).Ok?
    ensures Sound(ApplyOp(t, op).value) && Grows(t, ApplyOp(t, op).value)
  {
    match op
    case Add(e) => AddKeepsSound(t, e);
    case Update(e) => UpdateKeepsSound(t, e);
  }

  lemma {:induction false} HistoryIsSound(ops: seq<Op>)
    ensures Sound(History(ops))
  {
    if ops != [] {
      var n := |ops| - 1;
      HistoryIsSound(ops[..n]);
      if ApplyOp(History(ops[..n]), ops[n]).Ok? { OpKeepsSound(History(ops[..n]), ops[n]); }
    }
  }

  // Consequences --------------------------------------------------------------------------------

  /** Indexed lookup returns exactly the records whose own fields have the requested values. */
  lemma {:induction false} FindAgrees(t: Tables, k: Kind, filters: map<string, Cell>)
    requires Sound(t) && filters.Keys <= ColumnNames(k)
    ensures Find(t, k, filters).Ok?
    ensures forall id :: id in Find(t, k, filters).value <==>
              id in t.rows && KindOf(t.rows[id].payload) == k
              && forall c :: c in filters ==> ColumnValue(t.rows[id].payload, c) == Some(filters[c])
    ensures forall id :: id in Find(t, k, filters).value ==> Find(t, k, filters).value[id] == t.rows[id].payload
  {
    forall id | id in t.rows && KindOf(t.rows[id].payload) == k
      ensures Matches(t.rows[id].columns, filters) <==>
              forall c :: c in filters ==> ColumnValue(t.rows[id].payload, c) == Some(filters[c])
    {
      var e := t.rows[id].payload;
      forall c | c in filters
        ensures c in ColumnsOf(e) && ColumnsOf(e)[c] == ColumnValue(e, c)
      {
      }
    }
  }

  /** An execution attempt is admitted exactly with the next free number of its unit, for a unit and a
      schedule run of one schedule. */
  lemma {:induction false} AttemptAdmittedIff(t: Tables, a: Entity)
    requires Sound(t) && a.Attempt?
    ensures AddTo(t, a).Ok? <==>
            && WellFormed(a) && Refs(a) <= t.rows.Keys && SameSchedule(t, a)
            && forall n: nat :: AttemptId(a.unit, n) in t.rows <==> n < a.attempt
  {
    AttemptsAreSegment(t, a.unit);
    var k := |Select(t, Attempts, map["unit_id" := IdCell(a.unit)])|;
    assert k < a.attempt ==> AttemptId(a.unit, k) !in t.rows;
    assert a.attempt < k ==> AttemptId(a.unit, a.attempt) in t.rows;
  }

  ghost predicate SameSchedule(t: Tables, a: Entity)
    requires a.Attempt? && Refs(a) <= t.rows.Keys
  {
    var unit, sr := t.rows[a.unit].payload, t.rows[a.scheduleRun].payload;
    unit.ScheduleUnit? && sr.ScheduleRun? && unit.schedule == sr.schedule
  }

  /** A walk along references. */
  ghost predicate ReferencePath(t: Tables, p: seq<Id>) {
    && p != []
    && (forall i :: 0 <= i < |p| ==> p[i] in t.rows)
    && forall i :: 0 < i < |p| ==> p[i] in Refs(t.rows[p[i - 1]].payload)
  }

  lemma {:induction false} Place(t: Tables, id: Id) returns (i: nat)
    requires Sound(t) && id in t.rows
    ensures i < |t.order| && t.order[i] == id
  {
    assert id in t.order;
    i :| 0 <= i < |t.order| && t.order[i] == id;
  }

  /** Every reference resolves, and a walk along references only goes back in insertion order. */
  lemma {:induction false} PathDescends(t: Tables, p: seq<Id>, start: nat, i: nat) returns (at: nat)
    requires Sound(t) && ReferencePath(t, p) && i < |p| && start < |t.order| && t.order[start] == p[0]
    ensures at + i <= start && t.order[at] == p[i]
    decreases i
  {
    if i == 0 {
      at := start;
    } else {
      var before := PathDescends(t, p, start, i - 1);
      assert p[i] in Refs(t.rows[t.order[before]].payload);
      assert p[i] in t.order[..before];
      at :| 0 <= at < before && t.order[..before][at] == p[i];
    }
  }

  lemma {:induction false} TailPath(t: Tables, p: seq<Id>, i: nat)
    requires ReferencePath(t, p) && i < |p|
    ensures ReferencePath(t, p[i..])
  {
    var q := p[i..];
    forall k | 0 < k < |q| ensures q[k] in Refs(t.rows[q[k - 1]].payload) {
      assert q[k] == p[i + k] && q[k - 1] == p[i + k - 1];
    }
  }

  /** Hence references are closed and no walk returns to a record it has left. */
  lemma {:induction false} ReferencesAcyclic(t: Tables, p: seq<Id>)
    requires Sound(t) && ReferencePath(t, p)
    ensures |p| <= |t.order|
    ensures forall i, j :: 0 <= i < j < |p| ==> p[i] != p[j]
    ensures forall r :: r in Refs(t.rows[p[|p| - 1]].payload) ==> r in t.rows
  {
    var start := Place(t, p[0]);
    var last := PathDescends(t, p, start, |p| - 1);
    forall r | r in Refs(t.rows[p[|p| - 1]].payload) ensures r in t.rows {
      assert r in t.order[..last];
      assert r in t.order;
    }
    forall i, j | 0 <= i < j < |p| ensures p[i] != p[j] {
      TailPath(t, p, i);
      var from := Place(t, p[i]);
      var at := PathDescends(t, p[i..], from, j - i);
    }
  }
}
