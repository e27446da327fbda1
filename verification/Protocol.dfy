/** Expansion of a benchmark definition into its list of experiment units. */
module Protocol {
  import opened Common
  import opened Keys
  import opened BenchmarkSpec
  import opened Faults

  /** What the fault library and the dataset say about a grid. */
  datatype Verdict = Supported | UnknownFault | NotImplemented | Incompatible | InvalidGrid

  datatype Code = Preliminary | UnknownFaultType | FaultNotImplemented | UnsupportedFault | BadGrid
                | UnknownGrid | UnusableGrid | BadValue | NotComposable | MaxUnits

  datatype Issue = Issue(code: Code, where: Option<string>)

  /** `what` stands for kind, grid, point index, pair, cell and seed. */
  datatype Unit = Unit(key: string, what: Label, fault: Option<Fault>)

  /** Which grid points serve as an interaction's A and B cells. */
  datatype Reuse = Reuse(aGrid: string, aPoint: nat, bGrid: string, bPoint: nat, orderAnalysis: bool)

  datatype Plan = Plan(units: seq<Unit>, unsupported: seq<string>, pairs: map<string, Reuse>)

  const BASELINE := Unit("baseline", Baseline, None)

  function Points(g: Grid): seq<Option<real>> {
    if g.values == [] then [None] else seq(|g.values|, i requires 0 <= i < |g.values| => Some(g.values[i]))
  }

  function TrialOf(g: Grid, i: nat, seed: nat): Unit
    requires i < |Points(g)|
  {
    var l := FaultTrial(g.name, i, seed);
    Unit(KeyText(l), l, Some(PointFault(g, Points(g)[i], seed)))
  }

  /** The fault of a pair's cell, in either order, under a seed. */
  type Combine = (Pair, bool, nat) -> Fault

  function CellOf(p: Pair, reversed: bool, seed: nat, cell: Combine): Unit {
    var l := InteractionTrial(PairName(p), reversed, seed);
    Unit(KeyText(l), l, Some(cell(p, reversed, seed)))
  }

  function ByName(faults: seq<Grid>): map<string, Grid> {
    if faults == [] then map[] else var g := faults[|faults| - 1]; ByName(faults[..|faults| - 1])[g.name := g]
  }

  /** The point of a named grid, built with the first seed. */
  function PairBase(s: Spec, name: string, value: Option<real>): Fault {
    var grids := ByName(s.faults);
    if name in grids && s.seeds != [] then PointFault(grids[name], value, s.seeds[0]) else Leaf("", None, map[], 0, All)
  }

  function CellFault(s: Spec, derive: (nat, nat) -> nat): Combine {
    (p: Pair, reversed: bool, seed: nat) =>
      var a, b := PairBase(s, p.a, p.aValue), PairBase(s, p.b, p.bValue);
      WithSeed(if reversed then Compose(b, a) else Compose(a, b), seed, derive)
  }

  // The expected units --------------------------------------------------------------------------------

  function Trials(g: Grid, i: nat, seeds: seq<nat>): seq<Unit>
    requires i < |Points(g)|
  {
    if seeds == [] then [] else Trials(g, i, seeds[..|seeds| - 1]) + [TrialOf(g, i, seeds[|seeds| - 1])]
  }

  /** The trials of a grid's first `n` points. */
  function GridUnits(g: Grid, n: nat, seeds: seq<nat>): seq<Unit>
    requires n <= |Points(g)|
  {
    if n == 0 then [] else GridUnits(g, n - 1, seeds) + Trials(g, n - 1, seeds)
  }

  function Cells(p: Pair, reversed: bool, seeds: seq<nat>, cell: Combine): seq<Unit> {
    if seeds == [] then [] else Cells(p, reversed, seeds[..|seeds| - 1], cell) + [CellOf(p, reversed, seeds[|seeds| - 1], cell)]
  }

  function PairUnits(p: Pair, seeds: seq<nat>, cell: Combine): seq<Unit> {
    Cells(p, false, seeds, cell) + if p.orderAnalysis then Cells(p, true, seeds, cell) else []
  }

  function FaultUnits(faults: seq<Grid>, seeds: seq<nat>, verdict: Grid -> Verdict): seq<Unit> {
    if faults == [] then []
    else
      var g := faults[|faults| - 1];
      FaultUnits(faults[..|faults| - 1], seeds, verdict)
      + if verdict(g) == Supported then GridUnits(g, |Points(g)|, seeds) else []
  }

  function InteractionUnits(pairs: seq<Pair>, seeds: seq<nat>, cell: Combine): seq<Unit> {
    if pairs == [] then []
    else InteractionUnits(pairs[..|pairs| - 1], seeds, cell) + PairUnits(pairs[|pairs| - 1], seeds, cell)
  }

  function Units(s: Spec, verdict: Grid -> Verdict, derive: (nat, nat) -> nat): seq<Unit> {
    [BASELINE] + FaultUnits(s.faults, s.seeds, verdict) + InteractionUnits(s.pairs, s.seeds, CellFault(s, derive))
  }

  // Validation ----------------------------------------------------------------------------------------

  function GridIssue(g: Grid, verdict: Verdict, allow: bool): Option<Issue> {
    match verdict
    case Supported => None
    case UnknownFault => Some(Issue(UnknownFaultType, Some(g.name)))
    case NotImplemented => Some(Issue(FaultNotImplemented, Some(g.name)))
    case Incompatible => if allow then None else Some(Issue(UnsupportedFault, Some(g.name)))
    case InvalidGrid => Some(Issue(BadGrid, Some(g.name)))
  }

  function RoleIssue(grids: map<string, Grid>, ok: map<string, Grid>, name: string, value: Option<real>, pair: string): Option<Issue> {
    if name !in grids then Some(Issue(UnknownGrid, Some(pair)))
    else if name !in ok then Some(Issue(UnusableGrid, Some(pair)))
    else if grids[name].values != [] && (value.None? || value.value !in grids[name].values) then Some(Issue(BadValue, Some(pair)))
    else if grids[name].values == [] && value.Some? then Some(Issue(BadValue, Some(pair)))
    else None
  }

  /** The named point of a supported grid of the definition. */
  ghost predicate NamesPoint(s: Spec, verdict: Grid -> Verdict, name: string, value: Option<real>) {
    exists g :: g in s.faults && g.name == name && verdict(g) == Supported && value in Points(g)
  }

  /** Both roles name points that are tested, and the two faults compose. */
  ghost predicate PairFine(s: Spec, verdict: Grid -> Verdict, composable: Pair -> bool, p: Pair) {
    NamesPoint(s, verdict, p.a, p.aValue) && NamesPoint(s, verdict, p.b, p.bValue) && composable(p)
  }

  function TotalPoints(faults: seq<Grid>, verdict: Grid -> Verdict): nat {
    if faults == [] then 0
    else
      var g := faults[|faults| - 1];
      TotalPoints(faults[..|faults| - 1], verdict) + if verdict(g) == Supported then |Points(g)| else 0
  }

  function TotalCells(pairs: seq<Pair>): nat {
    if pairs == [] then 0
    else TotalCells(pairs[..|pairs| - 1]) + if pairs[|pairs| - 1].orderAnalysis then 2 else 1
  }

  /** So many points or cells under so many seeds: a product by repeated addition. */
  function Cross(n: nat, seeds: nat): nat { if n == 0 then 0 else Cross(n - 1, seeds) + seeds }

  function UnitCount(s: Spec, verdict: Grid -> Verdict): nat {
    1 + TotalPoints(s.faults, verdict) * |s.seeds| + TotalCells(s.pairs) * |s.seeds|
  }

  /** Exactly when a definition is expanded rather than refused. */
  ghost predicate Accepted(s: Spec, preliminary: seq<Issue>, verdict: Grid -> Verdict, composable: Pair -> bool) {
    && preliminary == []
    && (forall g :: g in s.faults ==> verdict(g) == Supported || (verdict(g) == Incompatible && s.limits.allowUnsupported))
    && (forall p :: p in s.pairs ==> PairFine(s, verdict, composable, p))
    && UnitCount(s, verdict) <= s.limits.maxUnits
  }

  // Sizes ---------------------------------------------------------------------------------------------

  lemma {:induction false} TrialsSize(g: Grid, i: nat, seeds: seq<nat>)
    requires i < |Points(g)|
    ensures |Trials(g, i, seeds)| == |seeds|
  {
    if seeds != [] { TrialsSize(g, i, seeds[..|seeds| - 1]); }
  }

  lemma {:induction false} CellsSize(p: Pair, reversed: bool, seeds: seq<nat>, cell: Combine)
    ensures |Cells(p, reversed, seeds, cell)| == |seeds|
  {
    if seeds != [] { CellsSize(p, reversed, seeds[..|seeds| - 1], cell); }
  }

  lemma {:induction false} GridSize(g: Grid, n: nat, seeds: seq<nat>)
    requires n <= |Points(g)|
    ensures |GridUnits(g, n, seeds)| == Cross(n, |seeds|)
  {
    if n > 0 {
      var a, b := GridUnits(g, n - 1, seeds), Trials(g, n - 1, seeds);
      GridSize(g, n - 1, seeds);
      TrialsSize(g, n - 1, seeds);
      assert |a + b| == Cross(n - 1, |seeds|) + |seeds| == Cross(n, |seeds|);
      assert GridUnits(g, n, seeds) == a + b;
    }
  }

  lemma {:induction false} FaultsSize(faults: seq<Grid>, seeds: seq<nat>, verdict: Grid -> Verdict)
    ensures |FaultUnits(faults, seeds, verdict)| == Cross(TotalPoints(faults, verdict), |seeds|)
  {
    if faults != [] {
      var rest, g := faults[..|faults| - 1], faults[|faults| - 1];
      FaultsSize(rest, seeds, verdict);
      var n := if verdict(g) == Supported then |Points(g)| else 0;
      var a, b := FaultUnits(rest, seeds, verdict), GridUnits(g, n, seeds);
      GridSize(g, n, seeds);
      CrossAdds(TotalPoints(rest, verdict), n, |seeds|);
      assert |a + b| == Cross(TotalPoints(rest, verdict) + n, |seeds|);
      assert FaultUnits(faults, seeds, verdict) == a + b;
    }
  }

  lemma {:induction false} InteractionsSize(pairs: seq<Pair>, seeds: seq<nat>, cell: Combine)
    ensures |InteractionUnits(pairs, seeds, cell)| == Cross(TotalCells(pairs), |seeds|)
  {
    if pairs != [] {
      var rest, p := pairs[..|pairs| - 1], pairs[|pairs| - 1];
      InteractionsSize(rest, seeds, cell);
      PairSize(p, seeds, cell);
      CrossAdds(TotalCells(rest), if p.orderAnalysis then 2 else 1, |seeds|);
      var a, b := InteractionUnits(rest, seeds, cell), PairUnits(p, seeds, cell);
      assert |a + b| == |a| + |b|;
    }
  }

  lemma {:induction false} PairSize(p: Pair, seeds: seq<nat>, cell: Combine)
    ensures |PairUnits(p, seeds, cell)| == Cross(if p.orderAnalysis then 2 else 1, |seeds|)
  {
    CellsSize(p, false, seeds, cell);
    CellsSize(p, true, seeds, cell);
    assert Cross(1, |seeds|) == |seeds| && Cross(2, |seeds|) == Cross(1, |seeds|) + |seeds|;
  }

  lemma {:induction false} CrossAdds(a: nat, b: nat, n: nat)
    ensures Cross(a + b, n) == Cross(a, n) + Cross(b, n)
  {
    if b > 0 { CrossAdds(a, b - 1, n); }
  }

  lemma {:induction false} CrossIsProduct(a: nat, n: nat)
    ensures Cross(a, n) == a * n
  {
    if a > 0 { CrossIsProduct(a - 1, n); }
  }

  /** One baseline, one unit per supported grid point and seed, one or two per pair and seed. */
  lemma {:induction false} UnitsSize(s: Spec, verdict: Grid -> Verdict, derive: (nat, nat) -> nat)
    ensures |Units(s, verdict, derive)| == UnitCount(s, verdict)
  {
    FaultsSize(s.faults, s.seeds, verdict);
    InteractionsSize(s.pairs, s.seeds, CellFault(s, derive));
    CrossIsProduct(TotalPoints(s.faults, verdict), |s.seeds|);
    CrossIsProduct(TotalCells(s.pairs), |s.seeds|);
  }

  // Membership ----------------------------------------------------------------------------------------

  lemma {:induction false} InTrials(g: Grid, i: nat, seeds: seq<nat>, u: Unit)
    requires i < |Points(g)|
    ensures u in Trials(g, i, seeds) <==> exists k :: 0 <= k < |seeds| && u == TrialOf(g, i, seeds[k])
  {
    if seeds != [] {
      var n := |seeds| - 1;
      InTrials(g, i, seeds[..n], u);
      if u in Trials(g, i, seeds[..n]) {
        var k :| 0 <= k < n && u == TrialOf(g, i, seeds[..n][k]);
        assert u == TrialOf(g, i, seeds[k]);
      }
      if k :| 0 <= k < |seeds| && u == TrialOf(g, i, seeds[k]) {
        assert k == n || u == TrialOf(g, i, seeds[..n][k]);
      }
    }
  }

  lemma {:induction false} InCells(p: Pair, reversed: bool, seeds: seq<nat>, u: Unit, cell: Combine)
    ensures u in Cells(p, reversed, seeds, cell) <==> exists k :: 0 <= k < |seeds| && u == CellOf(p, reversed, seeds[k], cell)
  {
    if seeds != [] {
      var n := |seeds| - 1;
      InCells(p, reversed, seeds[..n], u, cell);
      if u in Cells(p, reversed, seeds[..n], cell) {
        var k :| 0 <= k < n && u == CellOf(p, reversed, seeds[..n][k], cell);
        assert u == CellOf(p, reversed, seeds[k], cell);
      }
      if k :| 0 <= k < |seeds| && u == CellOf(p, reversed, seeds[k], cell) {
        assert k == n || u == CellOf(p, reversed, seeds[..n][k], cell);
      }
    }
  }

  ghost predicate TrialIn(g: Grid, n: nat, seeds: seq<nat>, u: Unit)
    requires n <= |Points(g)|
  {
    exists i: nat, k: nat :: i < n && k < |seeds| && u == TrialOf(g, i, seeds[k])
  }

  lemma {:induction false} InGrid(g: Grid, n: nat, seeds: seq<nat>, u: Unit)
    requires n <= |Points(g)|
    ensures u in GridUnits(g, n, seeds) <==> TrialIn(g, n, seeds, u)
  {
    if n > 0 {
      var a, b := GridUnits(g, n - 1, seeds), Trials(g, n - 1, seeds);
      InGrid(g, n - 1, seeds, u);
      InTrials(g, n - 1, seeds, u);
      OneMorePoint(g, n, seeds, u);
      assert u in a + b <==> u in a || u in b;
    }
  }

  lemma {:induction false} OneMorePoint(g: Grid, n: nat, seeds: seq<nat>, u: Unit)
    requires 0 < n <= |Points(g)|
    ensures TrialIn(g, n, seeds, u) <==>
            TrialIn(g, n - 1, seeds, u) || exists k :: 0 <= k < |seeds| && u == TrialOf(g, n - 1, seeds[k])
  {
    if TrialIn(g, n, seeds, u) {
      var i: nat, k: nat :| i < n && k < |seeds| && u == TrialOf(g, i, seeds[k]);
    }
  }

  lemma {:induction false} InFaults(faults: seq<Grid>, seeds: seq<nat>, verdict: Grid -> Verdict, u: Unit)
    ensures u in FaultUnits(faults, seeds, verdict) <==>
            exists g :: g in faults && verdict(g) == Supported && TrialIn(g, |Points(g)|, seeds, u)
  {
    if faults != [] {
      var rest, g := faults[..|faults| - 1], faults[|faults| - 1];
      InFaults(rest, seeds, verdict, u);
      InGrid(g, |Points(g)|, seeds, u);
      assert forall h :: h in faults <==> h in rest || h == g;
    }
  }

  ghost predicate CellIn(p: Pair, seeds: seq<nat>, u: Unit, cell: Combine) {
    exists reversed: bool, k: nat :: (reversed ==> p.orderAnalysis) && k < |seeds| && u == CellOf(p, reversed, seeds[k], cell)
  }

  lemma {:induction false} InPair(p: Pair, seeds: seq<nat>, u: Unit, cell: Combine)
    ensures u in PairUnits(p, seeds, cell) <==> CellIn(p, seeds, u, cell)
  {
    InCells(p, false, seeds, u, cell);
    InCells(p, true, seeds, u, cell);
  }

  lemma {:induction false} InInteractions(pairs: seq<Pair>, seeds: seq<nat>, u: Unit, cell: Combine)
    ensures u in InteractionUnits(pairs, seeds, cell) <==> exists p :: p in pairs && CellIn(p, seeds, u, cell)
  {
    if pairs != [] {
      var rest, p := pairs[..|pairs| - 1], pairs[|pairs| - 1];
      InInteractions(rest, seeds, u, cell);
      InPair(p, seeds, u, cell);
      assert forall q :: q in pairs <==> q in rest || q == p;
    }
  }

  /** The units are exactly the baseline, the trials of the supported grids and the cells of the pairs. */
  lemma {:induction false} UnitsAreExactly(s: Spec, verdict: Grid -> Verdict, u: Unit, derive: (nat, nat) -> nat)
    ensures u in Units(s, verdict, derive) <==>
            || u == BASELINE
            || (exists g :: g in s.faults && verdict(g) == Supported && TrialIn(g, |Points(g)|, s.seeds, u))
            || (exists p :: p in s.pairs && CellIn(p, s.seeds, u, CellFault(s, derive)))
  {
    InFaults(s.faults, s.seeds, verdict, u);
    InInteractions(s.pairs, s.seeds, u, CellFault(s, derive));
  }

  // Distinct keys --------------------------------------------------------------------------------------

  ghost predicate LabelsDiffer(s: seq<Unit>) { forall i, j :: 0 <= i < j < |s| ==> s[i].what != s[j].what }

  lemma {:induction false} JoinDiffer(a: seq<Unit>, b: seq<Unit>)
    requires LabelsDiffer(a) && LabelsDiffer(b)
    requires forall u, v :: u in a && v in b ==> u.what != v.what
    ensures LabelsDiffer(a + b)
  {
    forall i, j | 0 <= i < j < |a + b| ensures (a + b)[i].what != (a + b)[j].what {
      if i < |a| && j >= |a| { assert a[i] in a && b[j - |a|] in b; }
    }
  }

  lemma {:induction false} TrialsDiffer(g: Grid, i: nat, seeds: seq<nat>)
    requires i < |Points(g)| && Distinct(seeds)
    ensures LabelsDiffer(Trials(g, i, seeds))
  {
    if seeds != [] {
      var n := |seeds| - 1;
      var a, b := Trials(g, i, seeds[..n]), [TrialOf(g, i, seeds[n])];
      TrialsDiffer(g, i, seeds[..n]);
      forall u, v | u in a && v in b ensures u.what != v.what {
        InTrials(g, i, seeds[..n], u);
        var k :| 0 <= k < n && u == TrialOf(g, i, seeds[..n][k]);
        assert seeds[k] != seeds[n];
      }
      JoinDiffer(a, b);
    }
  }

  lemma {:induction false} CellsDiffer(p: Pair, reversed: bool, seeds: seq<nat>, cell: Combine)
    requires Distinct(seeds)
    ensures LabelsDiffer(Cells(p, reversed, seeds, cell))
  {
    if seeds != [] {
      var n := |seeds| - 1;
      var a, b := Cells(p, reversed, seeds[..n], cell), [CellOf(p, reversed, seeds[n], cell)];
      CellsDiffer(p, reversed, seeds[..n], cell);
      forall u, v | u in a && v in b ensures u.what != v.what {
        InCells(p, reversed, seeds[..n], u, cell);
        var k :| 0 <= k < n && u == CellOf(p, reversed, seeds[..n][k], cell);
        assert seeds[k] != seeds[n];
      }
      JoinDiffer(a, b);
    }
  }

  lemma {:induction false} GridDiffers(g: Grid, n: nat, seeds: seq<nat>)
    requires n <= |Points(g)| && Distinct(seeds)
    ensures LabelsDiffer(GridUnits(g, n, seeds))
  {
    if n > 0 {
      GridDiffers(g, n - 1, seeds);
      TrialsDiffer(g, n - 1, seeds);
      GridPoints(g, n - 1, seeds);
      TrialPoints(g, n - 1, seeds);
      PointsDiffer(GridUnits(g, n - 1, seeds), Trials(g, n - 1, seeds), n - 1);
      JoinDiffer(GridUnits(g, n - 1, seeds), Trials(g, n - 1, seeds));
    }
  }

  ghost predicate AllBelow(s: seq<Unit>, n: nat) { forall u :: u in s ==> u.what.FaultTrial? && u.what.point < n }

  ghost predicate AllAt(s: seq<Unit>, n: nat) { forall u :: u in s ==> u.what.FaultTrial? && u.what.point == n }

  lemma {:induction false} GridPoints(g: Grid, n: nat, seeds: seq<nat>)
    requires n <= |Points(g)|
    ensures AllBelow(GridUnits(g, n, seeds), n)
  {
    forall u | u in GridUnits(g, n, seeds) ensures u.what.FaultTrial? && u.what.point < n { InGrid(g, n, seeds, u); }
  }

  lemma {:induction false} TrialPoints(g: Grid, i: nat, seeds: seq<nat>)
    requires i < |Points(g)|
    ensures AllAt(Trials(g, i, seeds), i)
  {
    forall u | u in Trials(g, i, seeds) ensures u.what.FaultTrial? && u.what.point == i { InTrials(g, i, seeds, u); }
  }

  lemma {:induction false} PointsDiffer(a: seq<Unit>, b: seq<Unit>, n: nat)
    requires AllBelow(a, n) && AllAt(b, n)
    ensures forall u, v :: u in a && v in b ==> u.what != v.what
  {
  }

  lemma {:induction false} PairDiffers(p: Pair, seeds: seq<nat>, cell: Combine)
    requires Distinct(seeds)
    ensures LabelsDiffer(PairUnits(p, seeds, cell))
  {
    var a, b := Cells(p, false, seeds, cell), Cells(p, true, seeds, cell);
    CellsDiffer(p, false, seeds, cell);
    CellsDiffer(p, true, seeds, cell);
    forall u, v | u in a && v in b ensures u.what != v.what {
      InCells(p, false, seeds, u, cell);
      InCells(p, true, seeds, v, cell);
    }
    JoinDiffer(a, b);
    assert Cells(p, false, seeds, cell) + [] == Cells(p, false, seeds, cell);
  }

  lemma {:induction false} FaultsDiffer(faults: seq<Grid>, seeds: seq<nat>, verdict: Grid -> Verdict)
    requires Distinct(GridNames(faults)) && Distinct(seeds)
    ensures LabelsDiffer(FaultUnits(faults, seeds, verdict))
  {
    if faults != [] {
      var rest, g := faults[..|faults| - 1], faults[|faults| - 1];
      var a, b := FaultUnits(rest, seeds, verdict), if verdict(g) == Supported then GridUnits(g, |Points(g)|, seeds) else [];
      PrefixDistinct(faults);
      FaultsDiffer(rest, seeds, verdict);
      GridDiffers(g, |Points(g)|, seeds);
      forall u, v | u in a && v in b ensures u.what != v.what {
        InFaults(rest, seeds, verdict, u);
        InGrid(g, |Points(g)|, seeds, v);
      }
      JoinDiffer(a, b);
    }
  }

  lemma {:induction false} PrefixDistinct(faults: seq<Grid>)
    requires faults != [] && Distinct(GridNames(faults))
    ensures Distinct(GridNames(faults[..|faults| - 1]))
    ensures forall h :: h in faults[..|faults| - 1] ==> h.name != faults[|faults| - 1].name
  {
    var n := |faults| - 1;
    forall h | h in faults[..n] ensures h.name != faults[n].name {
      var i := AtIndex(faults[..n], h);
      assert GridNames(faults)[i] == h.name && GridNames(faults)[n] == faults[n].name;
    }
    forall i, j | 0 <= i < j < n ensures GridNames(faults[..n])[i] != GridNames(faults[..n])[j] {
      assert GridNames(faults)[i] != GridNames(faults)[j];
    }
  }

  lemma {:induction false} PairPrefixDistinct(pairs: seq<Pair>)
    requires pairs != [] && Distinct(PairNames(pairs))
    ensures Distinct(PairNames(pairs[..|pairs| - 1]))
    ensures forall q :: q in pairs[..|pairs| - 1] ==> PairName(q) != PairName(pairs[|pairs| - 1])
  {
    var n := |pairs| - 1;
    forall q | q in pairs[..n] ensures PairName(q) != PairName(pairs[n]) {
      var i := AtIndex(pairs[..n], q);
      assert PairNames(pairs)[i] == PairName(q) && PairNames(pairs)[n] == PairName(pairs[n]);
    }
    forall i, j | 0 <= i < j < n ensures PairNames(pairs[..n])[i] != PairNames(pairs[..n])[j] {
      assert PairNames(pairs)[i] != PairNames(pairs)[j];
    }
  }

  lemma {:induction false} InteractionsDiffer(pairs: seq<Pair>, seeds: seq<nat>, cell: Combine)
    requires Distinct(PairNames(pairs)) && Distinct(seeds)
    ensures LabelsDiffer(InteractionUnits(pairs, seeds, cell))
  {
    if pairs != [] {
      var rest, p := pairs[..|pairs| - 1], pairs[|pairs| - 1];
      var a, b := InteractionUnits(rest, seeds, cell), PairUnits(p, seeds, cell);
      PairPrefixDistinct(pairs);
      InteractionsDiffer(rest, seeds, cell);
      PairDiffers(p, seeds, cell);
      forall u, v | u in a && v in b ensures u.what != v.what {
        InInteractions(rest, seeds, u, cell);
        InPair(p, seeds, v, cell);
      }
      JoinDiffer(a, b);
    }
  }

  lemma {:induction false} UnitsDiffer(s: Spec, verdict: Grid -> Verdict, derive: (nat, nat) -> nat)
    requires SpecOk(s)
    ensures LabelsDiffer(Units(s, verdict, derive))
  {
    var faults, cells := FaultUnits(s.faults, s.seeds, verdict), InteractionUnits(s.pairs, s.seeds, CellFault(s, derive));
    FaultsDiffer(s.faults, s.seeds, verdict);
    InteractionsDiffer(s.pairs, s.seeds, CellFault(s, derive));
    forall u | u in faults ensures u.what.FaultTrial? { InFaults(s.faults, s.seeds, verdict, u); }
    forall u | u in cells ensures u.what.InteractionTrial? { InInteractions(s.pairs, s.seeds, u, CellFault(s, derive)); }
    JoinDiffer([BASELINE], faults);
    JoinDiffer([BASELINE] + faults, cells);
  }

  lemma {:induction false} KeysFollowLabels(s: Spec, verdict: Grid -> Verdict, u: Unit, derive: (nat, nat) -> nat)
    requires u in Units(s, verdict, derive)
    ensures u.key == KeyText(u.what)
  {
    UnitsAreExactly(s, verdict, u, derive);
  }

  /** No two units share a key. */
  lemma {:induction false} KeysAreUnique(s: Spec, verdict: Grid -> Verdict, derive: (nat, nat) -> nat)
    requires SpecOk(s)
    ensures forall i, j :: 0 <= i < j < |Units(s, verdict, derive)| ==> Units(s, verdict, derive)[i].key != Units(s, verdict, derive)[j].key
  {
    var units := Units(s, verdict, derive);
    UnitsDiffer(s, verdict, derive);
    forall i, j | 0 <= i < j < |units| ensures units[i].key != units[j].key {
      KeysFollowLabels(s, verdict, units[i], derive);
      KeysFollowLabels(s, verdict, units[j], derive);
      if units[i].key == units[j].key { KeysAreInjective(units[i].what, units[j].what); }
    }
  }
}
