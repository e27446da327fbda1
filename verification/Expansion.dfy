/** Validating a benchmark definition and expanding it: every problem is found before anything runs. */
module Expansion {
  import opened Common
  import opened Keys
  import opened BenchmarkSpec
  import opened Faults
  import opened Protocol

  function Of(i: Option<Issue>): seq<Issue> { if i.Some? then [i.value] else [] }

  // What validation reports ------------------------------------------------------------------------------

  function GridIssues(faults: seq<Grid>, verdict: Grid -> Verdict, allow: bool): seq<Issue> {
    if faults == [] then []
    else
      var g := faults[|faults| - 1];
      GridIssues(faults[..|faults| - 1], verdict, allow) + Of(GridIssue(g, verdict(g), allow))
  }

  function UsableByName(faults: seq<Grid>, verdict: Grid -> Verdict): map<string, Grid> {
    if faults == [] then map[]
    else
      var g := faults[|faults| - 1];
      var rest := UsableByName(faults[..|faults| - 1], verdict);
      if verdict(g) == Supported then rest[g.name := g] else rest
  }

  function UnsupportedNames(faults: seq<Grid>, verdict: Grid -> Verdict, allow: bool): seq<string> {
    if faults == [] then []
    else
      var g := faults[|faults| - 1];
      UnsupportedNames(faults[..|faults| - 1], verdict, allow) + if verdict(g) == Incompatible && allow then [g.name] else []
  }

  predicate Mentions(issues: seq<Issue>, where: string) { exists i :: 0 <= i < |issues| && issues[i].where == Some(where) }

  function RoleIssues(p: Pair, grids: map<string, Grid>, ok: map<string, Grid>): seq<Issue> {
    Of(RoleIssue(grids, ok, p.a, p.aValue, PairName(p))) + Of(RoleIssue(grids, ok, p.b, p.bValue, PairName(p)))
  }

  /** Composition is only tried where nothing else is wrong with the pair. */
  function WithPair(issues: seq<Issue>, p: Pair, grids: map<string, Grid>, ok: map<string, Grid>, composable: Pair -> bool): seq<Issue> {
    var found := issues + RoleIssues(p, grids, ok);
    found + if p.a in ok && p.b in ok && !Mentions(found, PairName(p)) && !composable(p)
            then [Issue(NotComposable, Some(PairName(p)))] else []
  }

  function WithPairs(issues: seq<Issue>, pairs: seq<Pair>, grids: map<string, Grid>, ok: map<string, Grid>, composable: Pair -> bool): seq<Issue> {
    if pairs == [] then issues
    else WithPair(WithPairs(issues, pairs[..|pairs| - 1], grids, ok, composable), pairs[|pairs| - 1], grids, ok, composable)
  }

  /** Every issue, in the order in which it is found. */
  function AllIssues(s: Spec, preliminary: seq<Issue>, verdict: Grid -> Verdict, composable: Pair -> bool): seq<Issue> {
    WithPairs(preliminary + GridIssues(s.faults, verdict, s.limits.allowUnsupported), s.pairs,
              ByName(s.faults), UsableByName(s.faults, verdict), composable)
  }

  // There are none exactly when the definition is acceptable ------------------------------------------------

  lemma {:induction false} NoGridIssuesIff(faults: seq<Grid>, verdict: Grid -> Verdict, allow: bool)
    ensures GridIssues(faults, verdict, allow) == [] <==>
            forall g :: g in faults ==> verdict(g) == Supported || (verdict(g) == Incompatible && allow)
  {
    if faults != [] {
      var rest, g := faults[..|faults| - 1], faults[|faults| - 1];
      NoGridIssuesIff(rest, verdict, allow);
      assert forall h :: h in faults <==> h in rest || h == g;
    }
  }

  lemma {:induction false} NamesAreKeys(faults: seq<Grid>, verdict: Grid -> Verdict)
    requires Distinct(GridNames(faults))
    ensures forall g :: g in faults ==> g.name in ByName(faults) && ByName(faults)[g.name] == g
    ensures forall n :: n in ByName(faults) ==> ByName(faults)[n] in faults && ByName(faults)[n].name == n
    ensures forall g :: g in faults && verdict(g) == Supported ==> g.name in UsableByName(faults, verdict)
    ensures forall n :: n in UsableByName(faults, verdict) ==>
              n in ByName(faults) && UsableByName(faults, verdict)[n] == ByName(faults)[n] && verdict(ByName(faults)[n]) == Supported
  {
    if faults != [] {
      var rest, g := faults[..|faults| - 1], faults[|faults| - 1];
      PrefixDistinct(faults);
      NamesAreKeys(rest, verdict);
      assert forall h :: h in faults <==> h in rest || h == g;
      assert g.name !in ByName(rest);
    }
  }

  lemma {:induction false} UsableIffSupported(faults: seq<Grid>, g: Grid, verdict: Grid -> Verdict)
    requires Distinct(GridNames(faults)) && g in faults
    ensures g.name in UsableByName(faults, verdict) <==> verdict(g) == Supported
  {
    NamesAreKeys(faults, verdict);
  }

  lemma {:induction false} AmongPoints(g: Grid, value: Option<real>)
    ensures value in Points(g) <==> if g.values == [] then value.None? else value.Some? && value.value in g.values
  {
    if g.values != [] {
      if value in Points(g) {
        var i := AtIndex(Points(g), value);
        Present(g.values, i);
      }
      if value.Some? && value.value in g.values {
        var i := AtIndex(g.values, value.value);
        Present(Points(g), i);
        assert Points(g)[i] == value;
      }
    }
  }

  lemma {:induction false} RoleIssueIff(s: Spec, verdict: Grid -> Verdict, name: string, value: Option<real>, pair: string)
    requires Distinct(GridNames(s.faults))
    ensures RoleIssue(ByName(s.faults), UsableByName(s.faults, verdict), name, value, pair).None? <==>
            NamesPoint(s, verdict, name, value)
  {
    NamesAreKeys(s.faults, verdict);
    if name in ByName(s.faults) { AmongPoints(ByName(s.faults)[name], value); }
    if NamesPoint(s, verdict, name, value) {
      var g :| g in s.faults && g.name == name && verdict(g) == Supported && value in Points(g);
      assert ByName(s.faults)[name] == g;
    }
  }

  lemma {:induction false} UsableIfNamed(s: Spec, verdict: Grid -> Verdict, name: string, value: Option<real>)
    requires Distinct(GridNames(s.faults)) && NamesPoint(s, verdict, name, value)
    ensures name in UsableByName(s.faults, verdict)
  {
    NamesAreKeys(s.faults, verdict);
  }

  lemma {:induction false} WithPairIff(s: Spec, issues: seq<Issue>, p: Pair, verdict: Grid -> Verdict, composable: Pair -> bool)
    requires Distinct(GridNames(s.faults))
    ensures WithPair(issues, p, ByName(s.faults), UsableByName(s.faults, verdict), composable) == [] <==>
            issues == [] && PairFine(s, verdict, composable, p)
  {
    RoleIssueIff(s, verdict, p.a, p.aValue, PairName(p));
    RoleIssueIff(s, verdict, p.b, p.bValue, PairName(p));
    if NamesPoint(s, verdict, p.a, p.aValue) { UsableIfNamed(s, verdict, p.a, p.aValue); }
    if NamesPoint(s, verdict, p.b, p.bValue) { UsableIfNamed(s, verdict, p.b, p.bValue); }
  }

  lemma {:induction false} LastOrRest<T(!new)>(s: seq<T>, holds: T -> bool)
    requires s != []
    ensures (forall x :: x in s ==> holds(x)) <==> (forall x :: x in s[..|s| - 1] ==> holds(x)) && holds(s[|s| - 1])
  {
    assert forall x :: x in s <==> x in s[..|s| - 1] || x == s[|s| - 1];
  }

  lemma {:induction false} WithPairsIff(s: Spec, issues: seq<Issue>, pairs: seq<Pair>, verdict: Grid -> Verdict, composable: Pair -> bool)
    requires Distinct(GridNames(s.faults))
    ensures WithPairs(issues, pairs, ByName(s.faults), UsableByName(s.faults, verdict), composable) == [] <==>
            issues == [] && forall p :: p in pairs ==> PairFine(s, verdict, composable, p)
  {
    if pairs != [] {
      var rest, p := pairs[..|pairs| - 1], pairs[|pairs| - 1];
      WithPairsIff(s, issues, rest, verdict, composable);
      var before := WithPairs(issues, rest, ByName(s.faults), UsableByName(s.faults, verdict), composable);
      assert WithPair(before, p, ByName(s.faults), UsableByName(s.faults, verdict), composable) == [] <==>
             before == [] && PairFine(s, verdict, composable, p) by {
        WithPairIff(s, before, p, verdict, composable);
      }
      LastOrRest(pairs, q => PairFine(s, verdict, composable, q));
    }
  }

  lemma {:induction false} NoIssuesIff(s: Spec, preliminary: seq<Issue>, verdict: Grid -> Verdict, composable: Pair -> bool)
    requires SpecOk(s)
    ensures Accepted(s, preliminary, verdict, composable) <==>
            AllIssues(s, preliminary, verdict, composable) == [] && UnitCount(s, verdict) <= s.limits.maxUnits
  {
    NoGridIssuesIff(s.faults, verdict, s.limits.allowUnsupported);
    WithPairsIff(s, preliminary + GridIssues(s.faults, verdict, s.limits.allowUnsupported), s.pairs, verdict, composable);
  }

  // What each issue says -----------------------------------------------------------------------------------

  /** The issue a grid gives rise to. */
  ghost predicate GridProblem(g: Grid, verdict: Verdict, allow: bool, x: Issue) {
    && x.where == Some(g.name)
    && match x.code
       case UnknownFaultType => verdict == UnknownFault
       case FaultNotImplemented => verdict == NotImplemented
       case UnsupportedFault => verdict == Incompatible && !allow
       case BadGrid => verdict == InvalidGrid
       case _ => false
  }

  /** An issue with one side of a pair: no such grid, one that is not usable, or a value it does not test. */
  ghost predicate RoleProblem(s: Spec, verdict: Grid -> Verdict, name: string, value: Option<real>, pair: string, x: Issue) {
    && x.where == Some(pair)
    && match x.code
       case UnknownGrid => forall g :: g in s.faults ==> g.name != name
       case UnusableGrid => exists g :: g in s.faults && g.name == name && verdict(g) != Supported
       case BadValue =>
         exists g :: g in s.faults && g.name == name && verdict(g) == Supported
           && if g.values == [] then value.Some? else value.None? || value.value !in g.values
       case _ => false
  }

  ghost predicate NamesSupported(s: Spec, verdict: Grid -> Verdict, name: string) {
    exists g :: g in s.faults && g.name == name && verdict(g) == Supported
  }

  ghost predicate SidesProblem(s: Spec, verdict: Grid -> Verdict, p: Pair, x: Issue) {
    RoleProblem(s, verdict, p.a, p.aValue, PairName(p), x) || RoleProblem(s, verdict, p.b, p.bValue, PairName(p), x)
  }

  /** What is reported before the pairs are looked at. */
  ghost predicate Earlier(s: Spec, preliminary: seq<Issue>, verdict: Grid -> Verdict, x: Issue) {
    x in preliminary || exists g :: g in s.faults && GridProblem(g, verdict(g), s.limits.allowUnsupported, x)
  }

  /** The two faults do not compose, and nothing else is reported under the pair's name. */
  ghost predicate Uncomposable(s: Spec, preliminary: seq<Issue>, verdict: Grid -> Verdict, composable: Pair -> bool, p: Pair, x: Issue) {
    && x == Issue(NotComposable, Some(PairName(p)))
    && NamesSupported(s, verdict, p.a) && NamesSupported(s, verdict, p.b) && !composable(p)
    && forall y: Issue :: y.where == Some(PairName(p)) ==> !Earlier(s, preliminary, verdict, y) && !SidesProblem(s, verdict, p, y)
  }

  ghost predicate PairProblem(s: Spec, preliminary: seq<Issue>, verdict: Grid -> Verdict, composable: Pair -> bool, p: Pair, x: Issue) {
    SidesProblem(s, verdict, p, x) || Uncomposable(s, preliminary, verdict, composable, p, x)
  }

  lemma {:induction false} GridIssueIs(g: Grid, verdict: Verdict, allow: bool, x: Issue)
    ensures x in Of(GridIssue(g, verdict, allow)) <==> GridProblem(g, verdict, allow, x)
  {
  }

  lemma {:induction false} InGridIssues(faults: seq<Grid>, verdict: Grid -> Verdict, allow: bool, x: Issue)
    ensures x in GridIssues(faults, verdict, allow) <==> exists g :: g in faults && GridProblem(g, verdict(g), allow, x)
  {
    if faults != [] {
      var rest, g := faults[..|faults| - 1], faults[|faults| - 1];
      InGridIssues(rest, verdict, allow, x);
      GridIssueIs(g, verdict(g), allow, x);
      assert forall h :: h in faults <==> h in rest || h == g;
    }
  }

  lemma {:induction false} UsableIffNamed(s: Spec, verdict: Grid -> Verdict, name: string)
    requires Distinct(GridNames(s.faults))
    ensures name in ByName(s.faults) <==> exists g :: g in s.faults && g.name == name
    ensures name in UsableByName(s.faults, verdict) <==> NamesSupported(s, verdict, name)
  {
    NamesAreKeys(s.faults, verdict);
    if name in UsableByName(s.faults, verdict) { assert ByName(s.faults)[name] in s.faults; }
  }

  lemma {:induction false} RoleIssueIs(s: Spec, verdict: Grid -> Verdict, name: string, value: Option<real>, pair: string, x: Issue)
    requires Distinct(GridNames(s.faults))
    ensures x in Of(RoleIssue(ByName(s.faults), UsableByName(s.faults, verdict), name, value, pair)) <==>
            RoleProblem(s, verdict, name, value, pair, x)
  {
    NamesAreKeys(s.faults, verdict);
    UsableIffNamed(s, verdict, name);
    if name in ByName(s.faults) {
      var g := ByName(s.faults)[name];
      assert forall h :: h in s.faults && h.name == name ==> h == g;
    }
  }

  lemma {:induction false} RoleIssuesAre(s: Spec, verdict: Grid -> Verdict, p: Pair, x: Issue)
    requires Distinct(GridNames(s.faults))
    ensures x in RoleIssues(p, ByName(s.faults), UsableByName(s.faults, verdict)) <==> SidesProblem(s, verdict, p, x)
  {
    RoleIssueIs(s, verdict, p.a, p.aValue, PairName(p), x);
    RoleIssueIs(s, verdict, p.b, p.bValue, PairName(p), x);
  }

  lemma {:induction false} MentionedIff(issues: seq<Issue>, where: string)
    ensures Mentions(issues, where) <==> exists y :: y in issues && y.where == Some(where)
  {
    if y :| y in issues && y.where == Some(where) { var i :| 0 <= i < |issues| && issues[i] == y; }
  }

  ghost predicate SomePairProblem(s: Spec, preliminary: seq<Issue>, verdict: Grid -> Verdict, composable: Pair -> bool,
                                  pairs: seq<Pair>, x: Issue) {
    exists p :: p in pairs && PairProblem(s, preliminary, verdict, composable, p, x)
  }

  /** The issues found once the first pairs have been looked at. */
  ghost predicate FoundWith(s: Spec, preliminary: seq<Issue>, verdict: Grid -> Verdict, composable: Pair -> bool, pairs: seq<Pair>,
                            issues: seq<Issue>) {
    forall x :: x in issues <==>
      Earlier(s, preliminary, verdict, x) || SomePairProblem(s, preliminary, verdict, composable, pairs, x)
  }

  /** Composition is tried exactly where nothing is known to be wrong under the pair's name. */
  lemma {:induction false} UncomposableIff(s: Spec, preliminary: seq<Issue>, verdict: Grid -> Verdict, composable: Pair -> bool,
                                           p: Pair, found: seq<Issue>)
    requires Distinct(GridNames(s.faults))
    requires forall y: Issue :: y.where == Some(PairName(p)) ==>
               (y in found <==> Earlier(s, preliminary, verdict, y) || SidesProblem(s, verdict, p, y))
    ensures p.a in UsableByName(s.faults, verdict) && p.b in UsableByName(s.faults, verdict)
            && !Mentions(found, PairName(p)) && !composable(p)
            <==> Uncomposable(s, preliminary, verdict, composable, p, Issue(NotComposable, Some(PairName(p))))
  {
    UsableIffNamed(s, verdict, p.a);
    UsableIffNamed(s, verdict, p.b);
    MentionedIff(found, PairName(p));
  }

  lemma {:induction false} OnlyOwnPair(s: Spec, preliminary: seq<Issue>, verdict: Grid -> Verdict, composable: Pair -> bool,
                                       pairs: seq<Pair>, y: Issue)
    requires pairs != [] && Distinct(PairNames(pairs)) && y.where == Some(PairName(pairs[|pairs| - 1]))
    ensures !SomePairProblem(s, preliminary, verdict, composable, pairs[..|pairs| - 1], y)
  {
    PairPrefixDistinct(pairs);
  }

  lemma {:induction false} OneMorePair(s: Spec, preliminary: seq<Issue>, verdict: Grid -> Verdict, composable: Pair -> bool,
                                       pairs: seq<Pair>, issues: seq<Issue>)
    requires Distinct(GridNames(s.faults)) && pairs != [] && Distinct(PairNames(pairs))
    requires FoundWith(s, preliminary, verdict, composable, pairs[..|pairs| - 1], issues)
    ensures FoundWith(s, preliminary, verdict, composable, pairs,
                      WithPair(issues, pairs[|pairs| - 1], ByName(s.faults), UsableByName(s.faults, verdict), composable))
  {
    var rest, p := pairs[..|pairs| - 1], pairs[|pairs| - 1];
    var sides := RoleIssues(p, ByName(s.faults), UsableByName(s.faults, verdict));
    forall x ensures x in sides <==> SidesProblem(s, verdict, p, x) { RoleIssuesAre(s, verdict, p, x); }
    forall y: Issue | y.where == Some(PairName(p)) ensures y in issues <==> Earlier(s, preliminary, verdict, y) {
      OnlyOwnPair(s, preliminary, verdict, composable, pairs, y);
    }
    UncomposableIff(s, preliminary, verdict, composable, p, issues + sides);
    forall x
      ensures x in WithPair(issues, p, ByName(s.faults), UsableByName(s.faults, verdict), composable) <==>
              x in issues || PairProblem(s, preliminary, verdict, composable, p, x)
    {
    }
    forall x
      ensures SomePairProblem(s, preliminary, verdict, composable, pairs, x) <==>
              SomePairProblem(s, preliminary, verdict, composable, rest, x) || PairProblem(s, preliminary, verdict, composable, p, x)
    {
      LastPair(s, preliminary, verdict, composable, pairs, x);
    }
  }

  lemma {:induction false} LastPair(s: Spec, preliminary: seq<Issue>, verdict: Grid -> Verdict, composable: Pair -> bool,
                                    pairs: seq<Pair>, x: Issue)
    requires pairs != []
    ensures SomePairProblem(s, preliminary, verdict, composable, pairs, x) <==>
            || SomePairProblem(s, preliminary, verdict, composable, pairs[..|pairs| - 1], x)
            || PairProblem(s, preliminary, verdict, composable, pairs[|pairs| - 1], x)
  {
    assert forall q :: q in pairs <==> q in pairs[..|pairs| - 1] || q == pairs[|pairs| - 1];
  }

  lemma {:induction false} FoundInPairs(s: Spec, preliminary: seq<Issue>, verdict: Grid -> Verdict, composable: Pair -> bool,
                                        pairs: seq<Pair>, issues: seq<Issue>)
    requires Distinct(GridNames(s.faults)) && Distinct(PairNames(pairs))
    requires FoundWith(s, preliminary, verdict, composable, [], issues)
    ensures FoundWith(s, preliminary, verdict, composable, pairs,
                      WithPairs(issues, pairs, ByName(s.faults), UsableByName(s.faults, verdict), composable))
  {
    if pairs != [] {
      PairPrefixDistinct(pairs);
      FoundInPairs(s, preliminary, verdict, composable, pairs[..|pairs| - 1], issues);
      OneMorePair(s, preliminary, verdict, composable, pairs,
                  WithPairs(issues, pairs[..|pairs| - 1], ByName(s.faults), UsableByName(s.faults, verdict), composable));
    }
  }

  /** Every problem is reported, and nothing else: those found before, those of the grids and those of the
      pairs, where composition counts only if nothing else is wrong under the pair's name. */
  lemma {:induction false} IssuesAreExactly(s: Spec, preliminary: seq<Issue>, verdict: Grid -> Verdict, composable: Pair -> bool)
    requires SpecOk(s)
    ensures FoundWith(s, preliminary, verdict, composable, s.pairs, AllIssues(s, preliminary, verdict, composable))
  {
    var first := preliminary + GridIssues(s.faults, verdict, s.limits.allowUnsupported);
    forall x ensures x in first <==> Earlier(s, preliminary, verdict, x) {
      InGridIssues(s.faults, verdict, s.limits.allowUnsupported, x);
    }
    FoundInPairs(s, preliminary, verdict, composable, s.pairs, first);
  }

  // Reused grid trials -----------------------------------------------------------------------------------

  /** `values.index(x)`, the first position; the length if absent. */
  function IndexOf(s: seq<real>, x: real): (i: nat)
    ensures i <= |s| && (i < |s| ==> s[i] == x)
    ensures forall j :: 0 <= j < i ==> s[j] != x
  {
    if s == [] || s[0] == x then 0 else 1 + IndexOf(s[1..], x)
  }

  function PointIndex(g: Grid, value: Option<real>): nat {
    if g.values != [] && value.Some? then IndexOf(g.values, value.value) else 0
  }

  function PointAt(grids: map<string, Grid>, name: string, value: Option<real>): nat {
    if name in grids then PointIndex(grids[name], value) else 0
  }

  function ReuseOf(p: Pair, grids: map<string, Grid>): Reuse {
    Reuse(p.a, PointAt(grids, p.a, p.aValue), p.b, PointAt(grids, p.b, p.bValue), p.orderAnalysis)
  }

  function Reuses(pairs: seq<Pair>, grids: map<string, Grid>): map<string, Reuse> {
    if pairs == [] then map[]
    else
      var p := pairs[|pairs| - 1];
      Reuses(pairs[..|pairs| - 1], grids)[PairName(p) := ReuseOf(p, grids)]
  }

  lemma {:induction false} ReusesByName(pairs: seq<Pair>, grids: map<string, Grid>, p: Pair)
    requires Distinct(PairNames(pairs)) && p in pairs
    ensures PairName(p) in Reuses(pairs, grids) && Reuses(pairs, grids)[PairName(p)] == ReuseOf(p, grids)
  {
    var rest, last := pairs[..|pairs| - 1], pairs[|pairs| - 1];
    PairPrefixDistinct(pairs);
    if p != last {
      assert p in rest;
      ReusesByName(rest, grids, p);
    }
  }

  lemma {:induction false} PointOfIndex(g: Grid, value: Option<real>)
    requires value in Points(g)
    ensures PointIndex(g, value) < |Points(g)| && Points(g)[PointIndex(g, value)] == value
  {
    AmongPoints(g, value);
    if g.values != [] {
      var i := AtIndex(g.values, value.value);
    }
  }

  lemma {:induction false} NamedUnitExists(s: Spec, verdict: Grid -> Verdict, name: string, value: Option<real>, k: nat, derive: (nat, nat) -> nat)
    requires SpecOk(s) && NamesPoint(s, verdict, name, value) && k < |s.seeds|
    ensures name in ByName(s.faults)
    ensures PointUnit(s, name, PointAt(ByName(s.faults), name, value), value, s.seeds[k]) in Units(s, verdict, derive)
  {
    var g :| g in s.faults && g.name == name && verdict(g) == Supported && value in Points(g);
    NamesAreKeys(s.faults, verdict);
    PointOfIndex(g, value);
    var u := TrialOf(g, PointIndex(g, value), s.seeds[k]);
    assert TrialIn(g, |Points(g)|, s.seeds, u);
    UnitsAreExactly(s, verdict, u, derive);
  }

  /** The trial of a named grid's point under a seed, with the exact fault of that point. */
  function PointUnit(s: Spec, name: string, i: nat, value: Option<real>, seed: nat): Unit
    requires name in ByName(s.faults)
  {
    var l := FaultTrial(name, i, seed);
    Unit(KeyText(l), l, Some(PointFault(ByName(s.faults)[name], value, seed)))
  }

  /** A compound cell under a seed: the two points' faults with the seeds derived for their positions. */
  function CompoundUnit(s: Spec, p: Pair, reversed: bool, seed: nat, derive: (nat, nat) -> nat): Unit
    requires p.a in ByName(s.faults) && p.b in ByName(s.faults)
  {
    var l := InteractionTrial(PairName(p), reversed, seed);
    var g, h := ByName(s.faults)[p.a], ByName(s.faults)[p.b];
    Unit(KeyText(l), l, Some(Compound(seed,
      if reversed then [PointFault(h, p.bValue, derive(seed, 0)), PointFault(g, p.aValue, derive(seed, 1))]
      else [PointFault(g, p.aValue, derive(seed, 0)), PointFault(h, p.bValue, derive(seed, 1))])))
  }

  lemma {:induction false} CellIsCompound(s: Spec, p: Pair, reversed: bool, seed: nat, derive: (nat, nat) -> nat)
    requires s.seeds != [] && p.a in ByName(s.faults) && p.b in ByName(s.faults)
    ensures CellOf(p, reversed, seed, CellFault(s, derive)) == CompoundUnit(s, p, reversed, seed, derive)
  {
    var g, h := ByName(s.faults)[p.a], ByName(s.faults)[p.b];
    assert PairBase(s, p.a, p.aValue) == PointFault(g, p.aValue, s.seeds[0]);
    assert PairBase(s, p.b, p.bValue) == PointFault(h, p.bValue, s.seeds[0]);
    if reversed {
      CompoundOfPoints(h, p.bValue, g, p.aValue, s.seeds[0], seed, derive);
    } else {
      CompoundOfPoints(g, p.aValue, h, p.bValue, s.seeds[0], seed, derive);
    }
  }

  /** The A and B points recorded for an interaction are trials of the protocol under every seed, and its
      compound cells hold the faults of those trials, reseeded by position. */
  lemma {:induction false} InteractionsReuseTrials(s: Spec, plan: Plan, verdict: Grid -> Verdict, composable: Pair -> bool,
                                                   p: Pair, k: nat, reversed: bool, derive: (nat, nat) -> nat)
    requires SpecOk(s) && (forall q :: q in s.pairs ==> PairFine(s, verdict, composable, q)) && p in s.pairs && k < |s.seeds|
    requires plan.units == Units(s, verdict, derive) && plan.pairs == Reuses(s.pairs, ByName(s.faults))
    requires reversed ==> p.orderAnalysis
    ensures PairName(p) in plan.pairs && p.a in ByName(s.faults) && p.b in ByName(s.faults)
    ensures var r := plan.pairs[PairName(p)];
            && r.aGrid == p.a && r.bGrid == p.b
            && PointUnit(s, p.a, r.aPoint, p.aValue, s.seeds[k]) in plan.units
            && PointUnit(s, p.b, r.bPoint, p.bValue, s.seeds[k]) in plan.units
            && CompoundUnit(s, p, reversed, s.seeds[k], derive) in plan.units
  {
    ReusesByName(s.pairs, ByName(s.faults), p);
    NamedUnitExists(s, verdict, p.a, p.aValue, k, derive);
    NamedUnitExists(s, verdict, p.b, p.bValue, k, derive);
    var u := CellOf(p, reversed, s.seeds[k], CellFault(s, derive));
    assert CellIn(p, s.seeds, u, CellFault(s, derive));
    UnitsAreExactly(s, verdict, u, derive);
    CellIsCompound(s, p, reversed, s.seeds[k], derive);
  }

  /** The components of a cell repeat the trials it is compared with, seeds included, exactly when the
      derived seeds happen to be the trials' own. */
  lemma {:induction false} CellRepeatsTrialsIff(s: Spec, p: Pair, seed: nat, i: nat, j: nat, derive: (nat, nat) -> nat)
    requires p.a in ByName(s.faults) && p.b in ByName(s.faults)
    ensures CompoundUnit(s, p, false, seed, derive).fault.value.components ==
            [PointUnit(s, p.a, i, p.aValue, seed).fault.value, PointUnit(s, p.b, j, p.bValue, seed).fault.value]
            <==> derive(seed, 0) == seed && derive(seed, 1) == seed
  {
    var g, h := ByName(s.faults)[p.a], ByName(s.faults)[p.b];
    SeedIsAllThatDiffers(g, p.aValue, seed, derive(seed, 0));
    SeedIsAllThatDiffers(g, p.aValue, derive(seed, 0), seed);
    SeedIsAllThatDiffers(h, p.bValue, seed, derive(seed, 1));
    SeedIsAllThatDiffers(h, p.bValue, derive(seed, 1), seed);
    var cs := CompoundUnit(s, p, false, seed, derive).fault.value.components;
    assert cs == [PointFault(g, p.aValue, derive(seed, 0)), PointFault(h, p.bValue, derive(seed, 1))];
    assert cs[0].seed == derive(seed, 0) && cs[1].seed == derive(seed, 1);
  }

  // What the units hold --------------------------------------------------------------------------------------

  /** How many points a grid has: one per swept value, or a single one without a value. */
  ghost function PointCount(g: Grid): nat { if g.values == [] then 1 else |g.values| }

  ghost function PointValue(g: Grid, i: nat): Option<real>
    requires i < PointCount(g)
  {
    if g.values == [] then None else Some(g.values[i])
  }

  /** The unit is the trial of the grid's point under the seed and injects exactly that point's fault. */
  ghost predicate TestsPoint(u: Unit, g: Grid, i: nat, seed: nat) {
    && i < PointCount(g)
    && u.key == "fault:" + g.name + ":" + Decimal(i) + ":" + Decimal(seed) && u.what == FaultTrial(g.name, i, seed)
    && u.fault.Some? && Injects(u.fault.value, g, PointValue(g, i), seed)
  }

  ghost predicate PointTested(units: seq<Unit>, g: Grid, i: nat, seed: nat) { exists u :: u in units && TestsPoint(u, g, i, seed) }

  /** The unit is the pair's cell under the seed: first one grid's fault, then the other's, or the other way
      round, under seeds derived for their places. */
  ghost predicate TestsPair(u: Unit, p: Pair, g: Grid, h: Grid, reversed: bool, seed: nat, derive: (nat, nat) -> nat) {
    && (reversed ==> p.orderAnalysis) && g.name == p.a && h.name == p.b
    && u.key == "interaction:" + p.a + "+" + p.b + ":" + (if reversed then "BA" else "AB") + ":" + Decimal(seed)
    && u.what == InteractionTrial(p.a + "+" + p.b, reversed, seed)
    && u.fault.Some? && u.fault.value.Compound? && u.fault.value.seed == seed
    && var c := u.fault.value.components;
    && |c| == 2
    && (reversed ==> Injects(c[0], h, p.bValue, derive(seed, 0)) && Injects(c[1], g, p.aValue, derive(seed, 1)))
    && (!reversed ==> Injects(c[0], g, p.aValue, derive(seed, 0)) && Injects(c[1], h, p.bValue, derive(seed, 1)))
  }

  ghost predicate PairTested(s: Spec, units: seq<Unit>, p: Pair, reversed: bool, seed: nat, derive: (nat, nat) -> nat) {
    exists u, g, h :: u in units && g in s.faults && h in s.faults && TestsPair(u, p, g, h, reversed, seed, derive)
  }

  /** Every supported point and every pair's cell is tested under every seed ... */
  ghost predicate EverythingTested(s: Spec, verdict: Grid -> Verdict, derive: (nat, nat) -> nat, units: seq<Unit>) {
    && BASELINE in units
    && (forall g, i: nat, k: nat :: g in s.faults && verdict(g) == Supported && i < PointCount(g) && k < |s.seeds| ==>
          PointTested(units, g, i, s.seeds[k]))
    && (forall p, reversed, k: nat :: p in s.pairs && (reversed ==> p.orderAnalysis) && k < |s.seeds| ==>
          PairTested(s, units, p, reversed, s.seeds[k], derive))
  }

  /** ... and a unit is nothing else. */
  ghost predicate Justified(s: Spec, verdict: Grid -> Verdict, derive: (nat, nat) -> nat, u: Unit) {
    match u.what
    case Baseline => u.key == "baseline" && u.fault.None?
    case FaultTrial(_, i, seed) => seed in s.seeds && exists g :: g in s.faults && verdict(g) == Supported && TestsPoint(u, g, i, seed)
    case InteractionTrial(_, reversed, seed) =>
      seed in s.seeds && exists p, g, h :: p in s.pairs && g in s.faults && h in s.faults && TestsPair(u, p, g, h, reversed, seed, derive)
  }

  lemma {:induction false} TrialTests(g: Grid, i: nat, seed: nat)
    requires GridOk(g) && i < |Points(g)|
    ensures |Points(g)| == PointCount(g) && TestsPoint(TrialOf(g, i, seed), g, i, seed)
  {
    PointInjects(g, Points(g)[i], seed);
    assert Colon(Colon("fault:" + g.name, Decimal(i)), Decimal(seed)) == "fault:" + g.name + ":" + Decimal(i) + ":" + Decimal(seed);
  }

  lemma {:induction false} PointIsTested(s: Spec, verdict: Grid -> Verdict, derive: (nat, nat) -> nat, g: Grid, i: nat, k: nat)
    requires SpecOk(s) && g in s.faults && verdict(g) == Supported && i < PointCount(g) && k < |s.seeds|
    ensures PointTested(Units(s, verdict, derive), g, i, s.seeds[k])
  {
    var u := TrialOf(g, i, s.seeds[k]);
    TrialTests(g, i, s.seeds[k]);
    assert TrialIn(g, |Points(g)|, s.seeds, u);
    UnitsAreExactly(s, verdict, u, derive);
  }

  lemma {:induction false} CellKey(p: Pair, reversed: bool, seed: nat)
    ensures KeyText(InteractionTrial(PairName(p), reversed, seed)) ==
            "interaction:" + p.a + "+" + p.b + ":" + (if reversed then "BA" else "AB") + ":" + Decimal(seed)
  {
    assert "interaction:" + PairName(p) == "interaction:" + p.a + "+" + p.b;
  }

  lemma {:induction false} NamedGrid(s: Spec, verdict: Grid -> Verdict, name: string, value: Option<real>) returns (g: Grid)
    requires SpecOk(s) && NamesPoint(s, verdict, name, value)
    ensures g in s.faults && g.name == name && verdict(g) == Supported && name in ByName(s.faults) && ByName(s.faults)[name] == g
    ensures forall seed :: Injects(PointFault(g, value, seed), g, value, seed)
  {
    g :| g in s.faults && g.name == name && verdict(g) == Supported && value in Points(g);
    NamesAreKeys(s.faults, verdict);
    AmongPoints(g, value);
    forall seed ensures Injects(PointFault(g, value, seed), g, value, seed) { PointInjects(g, value, seed); }
  }

  lemma {:induction false} CellTests(s: Spec, verdict: Grid -> Verdict, composable: Pair -> bool, p: Pair, reversed: bool, seed: nat,
                                     derive: (nat, nat) -> nat) returns (g: Grid, h: Grid)
    requires SpecOk(s) && PairFine(s, verdict, composable, p) && (reversed ==> p.orderAnalysis)
    ensures g in s.faults && h in s.faults && TestsPair(CellOf(p, reversed, seed, CellFault(s, derive)), p, g, h, reversed, seed, derive)
  {
    g := NamedGrid(s, verdict, p.a, p.aValue);
    h := NamedGrid(s, verdict, p.b, p.bValue);
    CellIsCompound(s, p, reversed, seed, derive);
    CellKey(p, reversed, seed);
  }

  lemma {:induction false} PairIsTested(s: Spec, verdict: Grid -> Verdict, composable: Pair -> bool, derive: (nat, nat) -> nat,
                                        p: Pair, reversed: bool, k: nat)
    requires SpecOk(s) && p in s.pairs && PairFine(s, verdict, composable, p) && (reversed ==> p.orderAnalysis) && k < |s.seeds|
    ensures PairTested(s, Units(s, verdict, derive), p, reversed, s.seeds[k], derive)
  {
    var u := CellOf(p, reversed, s.seeds[k], CellFault(s, derive));
    var g, h := CellTests(s, verdict, composable, p, reversed, s.seeds[k], derive);
    assert CellIn(p, s.seeds, u, CellFault(s, derive));
    UnitsAreExactly(s, verdict, u, derive);
  }

  /** The units of an accepted definition test every point of its supported grids and every cell of its
      pairs under every seed, each with the fault its grid and value ask for. */
  lemma {:induction false} UnitsTestEverything(s: Spec, verdict: Grid -> Verdict, composable: Pair -> bool, derive: (nat, nat) -> nat)
    requires SpecOk(s) && forall p :: p in s.pairs ==> PairFine(s, verdict, composable, p)
    ensures EverythingTested(s, verdict, derive, Units(s, verdict, derive))
  {
    UnitsAreExactly(s, verdict, BASELINE, derive);
    forall g, i: nat, k: nat | g in s.faults && verdict(g) == Supported && i < PointCount(g) && k < |s.seeds|
      ensures PointTested(Units(s, verdict, derive), g, i, s.seeds[k])
    {
      PointIsTested(s, verdict, derive, g, i, k);
    }
    forall p, reversed, k: nat | p in s.pairs && (reversed ==> p.orderAnalysis) && k < |s.seeds|
      ensures PairTested(s, Units(s, verdict, derive), p, reversed, s.seeds[k], derive)
    {
      PairIsTested(s, verdict, composable, derive, p, reversed, k);
    }
  }

  /** They test nothing else. */
  lemma {:induction false} UnitIsJustified(s: Spec, verdict: Grid -> Verdict, composable: Pair -> bool, derive: (nat, nat) -> nat, u: Unit)
    requires SpecOk(s) && forall p :: p in s.pairs ==> PairFine(s, verdict, composable, p)
    requires u in Units(s, verdict, derive)
    ensures Justified(s, verdict, derive, u)
  {
    UnitsAreExactly(s, verdict, u, derive);
    if u == BASELINE {
    } else if g :| g in s.faults && verdict(g) == Supported && TrialIn(g, |Points(g)|, s.seeds, u) {
      TrialIsJustified(s, verdict, derive, g, u);
    } else {
      var p :| p in s.pairs && CellIn(p, s.seeds, u, CellFault(s, derive));
      CellIsJustified(s, verdict, composable, derive, p, u);
    }
  }

  lemma {:induction false} TrialIsJustified(s: Spec, verdict: Grid -> Verdict, derive: (nat, nat) -> nat, g: Grid, u: Unit)
    requires SpecOk(s) && g in s.faults && verdict(g) == Supported && TrialIn(g, |Points(g)|, s.seeds, u)
    ensures Justified(s, verdict, derive, u)
  {
    var i: nat, k: nat :| i < |Points(g)| && k < |s.seeds| && u == TrialOf(g, i, s.seeds[k]);
    TrialTests(g, i, s.seeds[k]);
    Present(s.seeds, k);
  }

  lemma {:induction false} CellIsJustified(s: Spec, verdict: Grid -> Verdict, composable: Pair -> bool, derive: (nat, nat) -> nat,
                                           p: Pair, u: Unit)
    requires SpecOk(s) && p in s.pairs && PairFine(s, verdict, composable, p) && CellIn(p, s.seeds, u, CellFault(s, derive))
    ensures Justified(s, verdict, derive, u)
  {
    var reversed: bool, k: nat :|
      (reversed ==> p.orderAnalysis) && k < |s.seeds| && u == CellOf(p, reversed, s.seeds[k], CellFault(s, derive));
    var g, h := CellTests(s, verdict, composable, p, reversed, s.seeds[k], derive);
    Present(s.seeds, k);
  }

  /** What is recorded for an interaction: which point of which grid its cells A and B are, and whether its
      order is analysed. */
  ghost predicate RecordsPair(s: Spec, p: Pair, r: Reuse) {
    && r.aGrid == p.a && r.bGrid == p.b && r.orderAnalysis == p.orderAnalysis
    && (exists g :: g in s.faults && g.name == p.a && r.aPoint < PointCount(g) && PointValue(g, r.aPoint) == p.aValue)
    && (exists h :: h in s.faults && h.name == p.b && r.bPoint < PointCount(h) && PointValue(h, r.bPoint) == p.bValue)
  }

  lemma {:induction false} PointRecorded(s: Spec, verdict: Grid -> Verdict, name: string, value: Option<real>)
    requires SpecOk(s) && NamesPoint(s, verdict, name, value)
    ensures var i := PointAt(ByName(s.faults), name, value);
            exists g :: g in s.faults && g.name == name && i < PointCount(g) && PointValue(g, i) == value
  {
    var g :| g in s.faults && g.name == name && verdict(g) == Supported && value in Points(g);
    NamesAreKeys(s.faults, verdict);
    PointOfIndex(g, value);
    assert |Points(g)| == PointCount(g);
  }

  lemma {:induction false} ReuseKeys(pairs: seq<Pair>, grids: map<string, Grid>)
    ensures forall n :: n in Reuses(pairs, grids) <==> n in PairNames(pairs)
  {
    if pairs != [] {
      var rest := pairs[..|pairs| - 1];
      ReuseKeys(rest, grids);
      assert PairNames(pairs) == PairNames(rest) + [PairName(pairs[|pairs| - 1])];
    }
  }

  /** The recorded pairs are exactly the definition's, each under its name with the points it names. */
  lemma {:induction false} PairsAreRecorded(s: Spec, verdict: Grid -> Verdict, composable: Pair -> bool)
    requires SpecOk(s) && forall p :: p in s.pairs ==> PairFine(s, verdict, composable, p)
    ensures var recorded := Reuses(s.pairs, ByName(s.faults));
            && (forall n :: n in recorded <==> exists p :: p in s.pairs && p.a + "+" + p.b == n)
            && (forall p :: p in s.pairs ==> p.a + "+" + p.b in recorded && RecordsPair(s, p, recorded[p.a + "+" + p.b]))
  {
    var recorded := Reuses(s.pairs, ByName(s.faults));
    ReuseKeys(s.pairs, ByName(s.faults));
    forall n ensures n in recorded <==> exists p :: p in s.pairs && p.a + "+" + p.b == n {
      PairListed(s.pairs, n);
      if n in recorded { var p :| p in s.pairs && PairName(p) == n; }
      if p :| p in s.pairs && p.a + "+" + p.b == n { assert PairName(p) == n; }
    }
    forall p | p in s.pairs ensures p.a + "+" + p.b in recorded && RecordsPair(s, p, recorded[p.a + "+" + p.b]) {
      ReusesByName(s.pairs, ByName(s.faults), p);
      PointRecorded(s, verdict, p.a, p.aValue);
      PointRecorded(s, verdict, p.b, p.bValue);
      assert PairName(p) == p.a + "+" + p.b;
    }
  }

  // The expansion --------------------------------------------------------------------------------------------

  lemma {:induction false} OneMoreGrid(faults: seq<Grid>, n: nat, verdict: Grid -> Verdict, allow: bool)
    requires n < |faults|
    ensures var g := faults[n];
            && GridIssues(faults[..n + 1], verdict, allow) == GridIssues(faults[..n], verdict, allow) + Of(GridIssue(g, verdict(g), allow))
            && UsableByName(faults[..n + 1], verdict) ==
               (if verdict(g) == Supported then UsableByName(faults[..n], verdict)[g.name := g] else UsableByName(faults[..n], verdict))
            && UnsupportedNames(faults[..n + 1], verdict, allow) ==
               UnsupportedNames(faults[..n], verdict, allow) + if verdict(g) == Incompatible && allow then [g.name] else []
  {
    assert faults[..n + 1][..n] == faults[..n];
  }

  method CheckGrids(faults: seq<Grid>, allow: bool, preliminary: seq<Issue>, verdict: Grid -> Verdict)
    returns (issues: seq<Issue>, ok: map<string, Grid>, unsupported: seq<string>)
    ensures issues == preliminary + GridIssues(faults, verdict, allow)
    ensures ok == UsableByName(faults, verdict)
    ensures unsupported == UnsupportedNames(faults, verdict, allow)
  {
    issues, ok, unsupported := preliminary, map[], [];
    var n := 0;
    while n < |faults|
      invariant 0 <= n <= |faults|
      invariant issues == preliminary + GridIssues(faults[..n], verdict, allow)
      invariant ok == UsableByName(faults[..n], verdict)
      invariant unsupported == UnsupportedNames(faults[..n], verdict, allow)
    {
      var g := faults[n];
      OneMoreGrid(faults, n, verdict, allow);
      if verdict(g) == Supported {
        ok := ok[g.name := g];
      } else if verdict(g) == Incompatible && allow {
        unsupported := unsupported + [g.name];
      } else {
        issues := issues + [GridIssue(g, verdict(g), allow).value];
      }
      n := n + 1;
    }
    assert faults[..n] == faults;
  }

  method CheckPairs(s: Spec, before: seq<Issue>, grids: map<string, Grid>, ok: map<string, Grid>, composable: Pair -> bool)
    returns (issues: seq<Issue>)
    ensures issues == WithPairs(before, s.pairs, grids, ok, composable)
  {
    issues := before;
    var n := 0;
    while n < |s.pairs|
      invariant 0 <= n <= |s.pairs|
      invariant issues == WithPairs(before, s.pairs[..n], grids, ok, composable)
    {
      var p := s.pairs[n];
      assert s.pairs[..n + 1][..n] == s.pairs[..n];
      issues := issues + RoleIssues(p, grids, ok);
      if p.a in ok && p.b in ok && !Mentions(issues, PairName(p)) && !composable(p) {
        issues := issues + [Issue(NotComposable, Some(PairName(p)))];
      }
      n := n + 1;
    }
    assert s.pairs[..n] == s.pairs;
  }

  method ExpandGrid(g: Grid, seeds: seq<nat>) returns (units: seq<Unit>)
    ensures units == GridUnits(g, |Points(g)|, seeds)
  {
    units := [];
    var i := 0;
    while i < |Points(g)|
      invariant 0 <= i <= |Points(g)|
      invariant units == GridUnits(g, i, seeds)
    {
      var k := 0;
      ghost var before := units;
      while k < |seeds|
        invariant 0 <= k <= |seeds|
        invariant units == before + Trials(g, i, seeds[..k])
      {
        assert seeds[..k + 1][..k] == seeds[..k];
        units := units + [TrialOf(g, i, seeds[k])];
        k := k + 1;
      }
      assert seeds[..k] == seeds;
      i := i + 1;
    }
  }

  method ExpandCells(p: Pair, reversed: bool, seeds: seq<nat>, cell: Combine) returns (units: seq<Unit>)
    ensures units == Cells(p, reversed, seeds, cell)
  {
    units := [];
    var k := 0;
    while k < |seeds|
      invariant 0 <= k <= |seeds|
      invariant units == Cells(p, reversed, seeds[..k], cell)
    {
      assert seeds[..k + 1][..k] == seeds[..k];
      units := units + [CellOf(p, reversed, seeds[k], cell)];
      k := k + 1;
    }
    assert seeds[..k] == seeds;
  }

  lemma {:induction false} FaultsStep(faults: seq<Grid>, n: nat, seeds: seq<nat>, verdict: Grid -> Verdict)
    requires n < |faults|
    ensures FaultUnits(faults[..n + 1], seeds, verdict) ==
            FaultUnits(faults[..n], seeds, verdict)
            + if verdict(faults[n]) == Supported then GridUnits(faults[n], |Points(faults[n])|, seeds) else []
  {
    assert faults[..n + 1][..n] == faults[..n];
  }

  method ExpandFaults(faults: seq<Grid>, seeds: seq<nat>, ok: map<string, Grid>, ghost verdict: Grid -> Verdict) returns (units: seq<Unit>)
    requires forall n :: 0 <= n < |faults| ==> (faults[n].name in ok <==> verdict(faults[n]) == Supported)
    ensures units == FaultUnits(faults, seeds, verdict)
  {
    units := [];
    var n := 0;
    while n < |faults|
      invariant 0 <= n <= |faults|
      invariant units == FaultUnits(faults[..n], seeds, verdict)
    {
      FaultsStep(faults, n, seeds, verdict);
      if faults[n].name in ok {
        var trials := ExpandGrid(faults[n], seeds);
        units := units + trials;
      }
      n := n + 1;
    }
    assert faults[..n] == faults;
  }

  method ExpandPairs(s: Spec, grids: map<string, Grid>, cell: Combine) returns (units: seq<Unit>, pairs: map<string, Reuse>)
    ensures units == InteractionUnits(s.pairs, s.seeds, cell)
    ensures pairs == Reuses(s.pairs, grids)
  {
    units, pairs := [], map[];
    var n := 0;
    while n < |s.pairs|
      invariant 0 <= n <= |s.pairs|
      invariant units == InteractionUnits(s.pairs[..n], s.seeds, cell)
      invariant pairs == Reuses(s.pairs[..n], grids)
    {
      var p := s.pairs[n];
      assert s.pairs[..n + 1][..n] == s.pairs[..n];
      pairs := pairs[PairName(p) := ReuseOf(p, grids)];
      var cells := ExpandCells(p, false, s.seeds, cell);
      units := units + cells;
      if p.orderAnalysis {
        cells := ExpandCells(p, true, s.seeds, cell);
        units := units + cells;
      }
      n := n + 1;
    }
    assert s.pairs[..n] == s.pairs;
  }

  /** Expands an acceptable definition; otherwise reports every issue, or that there are too many units. */
  method Expand(s: Spec, preliminary: seq<Issue>, verdict: Grid -> Verdict, composable: Pair -> bool, derive: (nat, nat) -> nat)
    returns (r: Result<Plan, seq<Issue>>)
    requires SpecOk(s)
    ensures r.Ok? <==> Accepted(s, preliminary, verdict, composable)
    ensures r.Ok? ==> r.value.units == Units(s, verdict, derive) && |r.value.units| == UnitCount(s, verdict) <= s.limits.maxUnits
    ensures r.Ok? ==> forall i, j :: 0 <= i < j < |r.value.units| ==> r.value.units[i].key != r.value.units[j].key
    ensures r.Ok? ==> r.value.pairs == Reuses(s.pairs, ByName(s.faults))
    ensures r.Ok? ==> r.value.unsupported == UnsupportedNames(s.faults, verdict, s.limits.allowUnsupported)
    ensures r.Err? ==> r.error != []
    ensures r.Err? && AllIssues(s, preliminary, verdict, composable) != [] ==>
              r.error == AllIssues(s, preliminary, verdict, composable)
    ensures r.Err? && AllIssues(s, preliminary, verdict, composable) == [] ==> r.error == [Issue(MaxUnits, None)]
    ensures r.Ok? ==> EverythingTested(s, verdict, derive, r.value.units)
    ensures r.Ok? ==> forall u :: u in r.value.units ==> Justified(s, verdict, derive, u)
    ensures r.Ok? ==> forall p :: p in s.pairs ==> p.a + "+" + p.b in r.value.pairs && RecordsPair(s, p, r.value.pairs[p.a + "+" + p.b])
  {
    var issues, ok, unsupported := CheckGrids(s.faults, s.limits.allowUnsupported, preliminary, verdict);
    var grids := ByName(s.faults);
    issues := CheckPairs(s, issues, grids, ok, composable);
    NoIssuesIff(s, preliminary, verdict, composable);
    if issues != [] {
      return Err(issues);
    }
    UnitsSize(s, verdict, derive);
    KeysAreUnique(s, verdict, derive);
    forall n | 0 <= n < |s.faults| ensures s.faults[n].name in ok <==> verdict(s.faults[n]) == Supported {
      UsableIffSupported(s.faults, s.faults[n], verdict);
    }
    var trials := ExpandFaults(s.faults, s.seeds, ok, verdict);
    var cells, pairs := ExpandPairs(s, grids, CellFault(s, derive));
    var units := [BASELINE] + trials + cells;
    if |units| > s.limits.maxUnits {
      return Err([Issue(MaxUnits, None)]);
    }
    UnitsTestEverything(s, verdict, composable, derive);
    PairsAreRecorded(s, verdict, composable);
    forall u | u in units ensures Justified(s, verdict, derive, u) { UnitIsJustified(s, verdict, composable, derive, u); }
    r := Ok(Plan(units, unsupported, pairs));
  }

  /** An accepted definition either expands a grid or records it as unsupported. */
  lemma {:induction false} GridsAreAccountedFor(faults: seq<Grid>, verdict: Grid -> Verdict, allow: bool)
    requires forall g :: g in faults ==> verdict(g) == Supported || (verdict(g) == Incompatible && allow)
    ensures forall g :: g in faults ==> verdict(g) == Supported || g.name in UnsupportedNames(faults, verdict, allow)
    ensures forall n :: n in UnsupportedNames(faults, verdict, allow) ==>
              exists g :: g in faults && g.name == n && verdict(g) == Incompatible
  {
    if faults != [] {
      var rest, g := faults[..|faults| - 1], faults[|faults| - 1];
      GridsAreAccountedFor(rest, verdict, allow);
      assert forall h :: h in faults <==> h in rest || h == g;
    }
  }
}
