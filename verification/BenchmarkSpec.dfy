/** Benchmark definitions in canonical form. */
module BenchmarkSpec {
  import opened Common
  import opened Sorting
  import opened Keys

  datatype Param = Number(number: real) | Setting(text: string)

  /** One fault with fixed parameters, at most one swept parameter, and the share of samples it applies to. */
  datatype Grid = Grid(name: string, fault: string, parameters: map<string, Param>, sweep: Option<string>, values: seq<real>,
                       version: Option<string>, scope: Option<real>)

  datatype Pair = Pair(a: string, b: string, aValue: Option<real>, bValue: Option<real>, orderAnalysis: bool)

  datatype Limits = Limits(maxUnits: nat, allowUnsupported: bool)

  datatype Spec = Spec(faults: seq<Grid>, pairs: seq<Pair>, seeds: seq<nat>, limits: Limits)

  datatype SpecError = NoGrids | DuplicateGrid | DuplicatePair | BadSeeds

  function PairName(p: Pair): string { p.a + "+" + p.b }

  /** The constructors of grids and pairs refuse everything else. */
  predicate GridOk(g: Grid) {
    && (g.sweep.None? <==> g.values == []) && AllDifferent(g.values)
    && (g.sweep.Some? ==> g.sweep.value !in g.parameters)
    && (g.scope.Some? ==> 0.0 < g.scope.value <= 1.0)
  }

  predicate PairOk(p: Pair) { p.a != p.b }

  /** `len(set(s)) == len(s)`. */
  predicate AllDifferent<T(==)>(s: seq<T>) { |set x | x in s| == |s| }

  function GridNames(s: seq<Grid>): seq<string> { seq(|s|, i requires 0 <= i < |s| => s[i].name) }

  function PairNames(s: seq<Pair>): seq<string> { seq(|s|, i requires 0 <= i < |s| => PairName(s[i])) }

  predicate GridLe(g: Grid, h: Grid) { TextLe(g.name, h.name) }

  /** Tuples compare by their first component, then by their second. */
  predicate PairLe(p: Pair, q: Pair) { if p.a == q.a then TextLe(p.b, q.b) else TextLe(p.a, q.a) }

  predicate NatLe(a: nat, b: nat) { a <= b }

  function Canonical(faults: seq<Grid>, pairs: seq<Pair>, seeds: seq<int>, limits: Limits): Result<Spec, SpecError> {
    if faults == [] then Err(NoGrids)
    else if !AllDifferent(GridNames(faults)) then Err(DuplicateGrid)
    else if !AllDifferent(PairNames(pairs)) then Err(DuplicatePair)
    else if seeds == [] || !AllDifferent(seeds) || !NonNegative(seeds) then Err(BadSeeds)
    else Ok(Spec(Sort(GridLe, faults), Sort(PairLe, pairs), Sort(NatLe, Naturals(seeds)), limits))
  }

  predicate NonNegative(s: seq<int>) { forall i :: 0 <= i < |s| ==> s[i] >= 0 }

  function Naturals(s: seq<int>): (r: seq<nat>)
    requires NonNegative(s)
    ensures r == s
  {
    seq(|s|, i requires 0 <= i < |s| => s[i])
  }

  // Uniqueness ------------------------------------------------------------------------------------

  ghost predicate Distinct<T>(s: seq<T>) { forall i, j :: 0 <= i < j < |s| ==> s[i] != s[j] }

  lemma {:induction false} SetNoLarger<T>(s: seq<T>)
    ensures |set x | x in s| <= |s|
  {
    if s != [] {
      var rest := s[..|s| - 1];
      SetNoLarger(rest);
      assert (set x | x in s) == (set x | x in rest) + {s[|s| - 1]};
    }
  }

  lemma {:induction false} AllDifferentIsDistinct<T>(s: seq<T>)
    ensures AllDifferent(s) <==> Distinct(s)
  {
    if s == [] {
      assert (set x | x in s) == {};
    } else {
      var rest, last := s[..|s| - 1], s[|s| - 1];
      AllDifferentIsDistinct(rest);
      SetNoLarger(rest);
      assert (set x | x in s) == (set x | x in rest) + {last};
      assert last in rest || |set x | x in s| == |set x | x in rest| + 1;
      assert last in rest ==> (set x | x in s) == (set x | x in rest);
    }
  }

  lemma {:induction false} AtIndex<T>(s: seq<T>, x: T) returns (i: nat)
    requires x in s
    ensures i < |s| && s[i] == x
  {
    i :| 0 <= i < |s| && s[i] == x;
  }

  lemma {:induction false} Present<T>(s: seq<T>, i: nat)
    requires i < |s|
    ensures s[i] in s
  {
  }

  lemma {:induction false} NameDecides(s: seq<Grid>, g: Grid, h: Grid)
    requires AllDifferent(GridNames(s)) && g in s && h in s && g.name == h.name
    ensures g == h
  {
    AllDifferentIsDistinct(GridNames(s));
    var i := AtIndex(s, g);
    var j := AtIndex(s, h);
    assert GridNames(s)[i] == g.name && GridNames(s)[j] == h.name;
  }

  lemma {:induction false} PairNameDecides(s: seq<Pair>, p: Pair, q: Pair)
    requires AllDifferent(PairNames(s)) && p in s && q in s && PairName(p) == PairName(q)
    ensures p == q
  {
    AllDifferentIsDistinct(PairNames(s));
    var i := AtIndex(s, p);
    var j := AtIndex(s, q);
    assert PairNames(s)[i] == PairName(p) && PairNames(s)[j] == PairName(q);
  }

  // The order of the lists does not matter -----------------------------------------------------------

  lemma {:induction false} Orders()
    ensures TotalPreorder(GridLe) && TotalPreorder(PairLe) && TotalPreorder(NatLe)
  {
    forall g, h ensures GridLe(g, h) || GridLe(h, g) { TextTotal(g.name, h.name); }
    forall g, h, k | GridLe(g, h) && GridLe(h, k) ensures GridLe(g, k) { TextTransitive(g.name, h.name, k.name); }
    forall p, q ensures PairLe(p, q) || PairLe(q, p) { TextTotal(p.a, q.a); TextTotal(p.b, q.b); }
    forall p, q, r | PairLe(p, q) && PairLe(q, r) ensures PairLe(p, r) { PairTransitive(p, q, r); }
  }

  lemma {:induction false} PairTransitive(p: Pair, q: Pair, r: Pair)
    requires PairLe(p, q) && PairLe(q, r)
    ensures PairLe(p, r)
  {
    if p.a == q.a && q.a == r.a {
      TextTransitive(p.b, q.b, r.b);
    } else {
      if TextLe(p.a, q.a) && TextLe(q.a, r.a) { TextTransitive(p.a, q.a, r.a); }
      if p.a == r.a { TextAntisymmetric(p.a, q.a); }
    }
  }

  lemma {:induction false} PermutedNames(s: seq<Grid>, s': seq<Grid>)
    requires multiset(s) == multiset(s')
    ensures AllDifferent(GridNames(s)) == AllDifferent(GridNames(s'))
  {
    SameMultisetSameLength(s, s');
    forall n ensures n in GridNames(s) <==> n in GridNames(s') {
      NameListed(s, n);
      NameListed(s', n);
    }
    assert (set n | n in GridNames(s)) == (set n | n in GridNames(s'));
  }

  lemma {:induction false} NameListed(s: seq<Grid>, n: string)
    ensures n in GridNames(s) <==> exists g :: g in s && g.name == n
  {
    if n in GridNames(s) {
      var i := AtIndex(GridNames(s), n);
      assert s[i] in s && s[i].name == n;
    }
    if g :| g in s && g.name == n {
      var i := AtIndex(s, g);
      assert GridNames(s)[i] == n;
    }
  }

  lemma {:induction false} PairListed(s: seq<Pair>, n: string)
    ensures n in PairNames(s) <==> exists p :: p in s && PairName(p) == n
  {
    if n in PairNames(s) {
      var i := AtIndex(PairNames(s), n);
      assert s[i] in s && PairName(s[i]) == n;
    }
    if p :| p in s && PairName(p) == n {
      var i := AtIndex(s, p);
      assert PairNames(s)[i] == n;
    }
  }

  lemma {:induction false} PermutedPairNames(s: seq<Pair>, s': seq<Pair>)
    requires multiset(s) == multiset(s')
    ensures AllDifferent(PairNames(s)) == AllDifferent(PairNames(s'))
  {
    SameMultisetSameLength(s, s');
    forall n ensures n in PairNames(s) <==> n in PairNames(s') {
      PairListed(s, n);
      PairListed(s', n);
    }
    assert (set n | n in PairNames(s)) == (set n | n in PairNames(s'));
  }

  lemma {:induction false} SortedGrids(s: seq<Grid>, s': seq<Grid>)
    requires multiset(s) == multiset(s') && AllDifferent(GridNames(s))
    ensures Sort(GridLe, s) == Sort(GridLe, s')
  {
    Orders();
    SortSorts(GridLe, s);
    SortSorts(GridLe, s');
    SameMultisetSameLength(s, Sort(GridLe, s));
    forall g, h | g in s && h in s && GridLe(g, h) && GridLe(h, g) ensures g == h {
      TextAntisymmetric(g.name, h.name);
      NameDecides(s, g, h);
    }
    SortedIsUnique(GridLe, Sort(GridLe, s), Sort(GridLe, s'));
  }

  lemma {:induction false} SortedPairs(s: seq<Pair>, s': seq<Pair>)
    requires multiset(s) == multiset(s') && AllDifferent(PairNames(s))
    ensures Sort(PairLe, s) == Sort(PairLe, s')
  {
    Orders();
    SortSorts(PairLe, s);
    SortSorts(PairLe, s');
    SameMultisetSameLength(s, Sort(PairLe, s));
    forall p, q | p in s && q in s && PairLe(p, q) && PairLe(q, p) ensures p == q {
      if p.a == q.a { TextAntisymmetric(p.b, q.b); } else { TextAntisymmetric(p.a, q.a); }
      PairNameDecides(s, p, q);
    }
    SortedIsUnique(PairLe, Sort(PairLe, s), Sort(PairLe, s'));
  }

  lemma {:induction false} PermutedSeeds(s: seq<int>, s': seq<int>)
    requires multiset(s) == multiset(s')
    ensures AllDifferent(s) == AllDifferent(s') && (NonNegative(s) ==> NonNegative(s'))
  {
    SameMultisetSameLength(s, s');
    assert (set x | x in s) == (set x | x in s');
    if NonNegative(s) {
      forall i | 0 <= i < |s'| ensures s'[i] >= 0 {
        Present(s', i);
        var j := AtIndex(s, s'[i]);
      }
    }
  }

  lemma {:induction false} SortedSeeds(s: seq<nat>, s': seq<nat>)
    requires multiset(s) == multiset(s')
    ensures Sort(NatLe, s) == Sort(NatLe, s')
  {
    Orders();
    SortSorts(NatLe, s);
    SortSorts(NatLe, s');
    SortedIsUnique(NatLe, Sort(NatLe, s), Sort(NatLe, s'));
  }

  /** Listing the grids, pairs or seeds in another order gives the same definition, or the same refusal. */
  lemma {:induction false} CanonicalIgnoresOrder(faults: seq<Grid>, faults': seq<Grid>, pairs: seq<Pair>, pairs': seq<Pair>,
                                                 seeds: seq<int>, seeds': seq<int>, limits: Limits)
    requires multiset(faults) == multiset(faults') && multiset(pairs) == multiset(pairs') && multiset(seeds) == multiset(seeds')
    ensures Canonical(faults, pairs, seeds, limits) == Canonical(faults', pairs', seeds', limits)
  {
    SameMultisetSameLength(faults, faults');
    SameMultisetSameLength(seeds, seeds');
    PermutedNames(faults, faults');
    PermutedPairNames(pairs, pairs');
    PermutedSeeds(seeds, seeds');
    PermutedSeeds(seeds', seeds);
    if Canonical(faults, pairs, seeds, limits).Ok? {
      SortedGrids(faults, faults');
      SortedPairs(pairs, pairs');
      SortedSeeds(Naturals(seeds), Naturals(seeds'));
    }
  }

  /** What an accepted definition satisfies. */
  ghost predicate SpecOk(s: Spec) {
    && s.faults != [] && Distinct(GridNames(s.faults)) && (forall g :: g in s.faults ==> GridOk(g))
    && Distinct(PairNames(s.pairs)) && (forall p :: p in s.pairs ==> PairOk(p))
    && s.seeds != [] && Distinct(s.seeds)
  }

  lemma {:induction false} CanonicalIsOk(faults: seq<Grid>, pairs: seq<Pair>, seeds: seq<int>, limits: Limits)
    requires (forall g :: g in faults ==> GridOk(g)) && (forall p :: p in pairs ==> PairOk(p))
    requires Canonical(faults, pairs, seeds, limits).Ok?
    ensures SpecOk(Canonical(faults, pairs, seeds, limits).value)
  {
    var spec := Canonical(faults, pairs, seeds, limits).value;
    SortedGridsOk(faults, spec.faults);
    SortedPairsOk(pairs, spec.pairs);
    SortedSeedsOk(seeds, spec.seeds);
  }

  lemma {:induction false} SortedGridsOk(s: seq<Grid>, r: seq<Grid>)
    requires multiset(r) == multiset(s) && AllDifferent(GridNames(s))
    ensures Distinct(GridNames(r)) && |r| == |s| && forall g :: g in r <==> g in s
  {
    SameMultisetSameLength(s, r);
    PermutedNames(s, r);
    AllDifferentIsDistinct(GridNames(r));
  }

  lemma {:induction false} SortedPairsOk(s: seq<Pair>, r: seq<Pair>)
    requires multiset(r) == multiset(s) && AllDifferent(PairNames(s))
    ensures Distinct(PairNames(r)) && |r| == |s| && forall p :: p in r <==> p in s
  {
    SameMultisetSameLength(s, r);
    PermutedPairNames(s, r);
    AllDifferentIsDistinct(PairNames(r));
  }

  lemma {:induction false} SortedSeedsOk(s: seq<int>, r: seq<int>)
    requires multiset(r) == multiset(s) && AllDifferent(s)
    ensures |r| == |s| && forall i, j :: 0 <= i < j < |r| ==> r[i] != r[j]
  {
    SameMultisetSameLength(s, r);
    PermutedSeeds(s, r);
    AllDifferentIsDistinct(r);
  }

  /** Canonical form rearranges the lists, in order of grid name, of pair and of seed. */
  lemma {:induction false} CanonicalIsSorted(faults: seq<Grid>, pairs: seq<Pair>, seeds: seq<int>, limits: Limits)
    requires Canonical(faults, pairs, seeds, limits).Ok?
    ensures var s := Canonical(faults, pairs, seeds, limits).value;
            && multiset(s.faults) == multiset(faults) && multiset(s.pairs) == multiset(pairs)
            && (forall x :: x in s.seeds <==> x in seeds) && |s.seeds| == |seeds| && s.limits == limits
            && (forall i, j :: 0 <= i < j < |s.faults| ==> TextLe(s.faults[i].name, s.faults[j].name))
            && (forall i, j :: 0 <= i < j < |s.pairs| ==>
                  TextLe(s.pairs[i].a, s.pairs[j].a) && (s.pairs[i].a == s.pairs[j].a ==> TextLe(s.pairs[i].b, s.pairs[j].b)))
            && (forall i, j :: 0 <= i < j < |s.seeds| ==> s.seeds[i] < s.seeds[j])
  {
    var s := Canonical(faults, pairs, seeds, limits).value;
    Orders();
    SortSorts(GridLe, faults);
    SortSorts(PairLe, pairs);
    SortSorts(NatLe, Naturals(seeds));
    SameMultisetSameLength(s.seeds, Naturals(seeds));
    SortedSeedsOk(seeds, s.seeds);
    forall i, j | 0 <= i < j < |s.faults| ensures TextLe(s.faults[i].name, s.faults[j].name) {
      assert GridLe(s.faults[i], s.faults[j]);
    }
    forall i, j | 0 <= i < j < |s.pairs|
      ensures TextLe(s.pairs[i].a, s.pairs[j].a) && (s.pairs[i].a == s.pairs[j].a ==> TextLe(s.pairs[i].b, s.pairs[j].b))
    {
      assert PairLe(s.pairs[i], s.pairs[j]);
      TextTotal(s.pairs[i].a, s.pairs[i].a);
    }
    forall i, j | 0 <= i < j < |s.seeds| ensures s.seeds[i] < s.seeds[j] { assert NatLe(s.seeds[i], s.seeds[j]); }
  }

  ghost predicate NamesRepeat(faults: seq<Grid>) {
    exists i, j :: 0 <= i < j < |faults| && faults[i].name == faults[j].name
  }

  ghost predicate PairNamesRepeat(pairs: seq<Pair>) {
    exists i, j :: 0 <= i < j < |pairs| && pairs[i].a + "+" + pairs[i].b == pairs[j].a + "+" + pairs[j].b
  }

  ghost predicate SeedsFine(seeds: seq<int>) {
    seeds != [] && Distinct(seeds) && forall i :: 0 <= i < |seeds| ==> seeds[i] >= 0
  }

  lemma {:induction false} RepetitionsShow(faults: seq<Grid>, pairs: seq<Pair>)
    ensures AllDifferent(GridNames(faults)) <==> !NamesRepeat(faults)
    ensures AllDifferent(PairNames(pairs)) <==> !PairNamesRepeat(pairs)
  {
    AllDifferentIsDistinct(GridNames(faults));
    AllDifferentIsDistinct(PairNames(pairs));
    forall i, j | 0 <= i < j < |faults| ensures faults[i].name == faults[j].name <==> GridNames(faults)[i] == GridNames(faults)[j] {
    }
    forall i, j | 0 <= i < j < |pairs|
      ensures pairs[i].a + "+" + pairs[i].b == pairs[j].a + "+" + pairs[j].b <==> PairNames(pairs)[i] == PairNames(pairs)[j]
    {
    }
  }

  /** Which definitions are accepted, and what the others are refused for. */
  lemma {:induction false} CanonicalAcceptedIff(faults: seq<Grid>, pairs: seq<Pair>, seeds: seq<int>, limits: Limits)
    ensures var r := Canonical(faults, pairs, seeds, limits);
            && (r.Ok? <==> faults != [] && !NamesRepeat(faults) && !PairNamesRepeat(pairs) && SeedsFine(seeds))
            && (r == Err(NoGrids) <==> faults == [])
            && (r == Err(DuplicateGrid) <==> NamesRepeat(faults))
            && (r == Err(DuplicatePair) <==> faults != [] && !NamesRepeat(faults) && PairNamesRepeat(pairs))
  {
    RepetitionsShow(faults, pairs);
    AllDifferentIsDistinct(seeds);
  }

  /** Two different pairs can share a name; such a definition is refused as a duplicate. */
  lemma {:induction false} DifferentPairsMayCollide(limits: Limits, grids: seq<Grid>)
    requires grids != [] && AllDifferent(GridNames(grids))
    ensures var p, q := Pair("x+y", "z", None, None, false), Pair("x", "y+z", None, None, false);
            p != q && PairName(p) == PairName(q) && Canonical(grids, [p, q], [0], limits) == Err(DuplicatePair)
  {
    var p, q := Pair("x+y", "z", None, None, false), Pair("x", "y+z", None, None, false);
    assert PairName(p) == "x+y+z" == PairName(q);
    assert PairNames([p, q]) == ["x+y+z", "x+y+z"];
    AllDifferentIsDistinct(PairNames([p, q]));
    assert PairNames([p, q])[0] == PairNames([p, q])[1];
  }
}
