/** Fault specifications: what a grid point applies, and how a compound of two of them is seeded. */
module Faults {
  import opened Common
  import opened BenchmarkSpec

  datatype Scope = All | RandomSubset(fraction: real)

  datatype Fault =
    | Leaf(kind: string, version: Option<string>, parameters: map<string, Param>, seed: nat, scope: Scope)
    | Compound(seed: nat, components: seq<Fault>)

  /** The grid's fault under a seed; a swept parameter holds its first value until a point replaces it. */
  function BaseFault(g: Grid, seed: nat): Fault {
    var parameters :=
      if g.sweep.Some? && g.values != [] then g.parameters[g.sweep.value := Number(g.values[0])] else g.parameters;
    Leaf(g.fault, g.version, parameters, seed, if g.scope.Some? then RandomSubset(g.scope.value) else All)
  }

  function Reseeded(f: Fault, seed: nat): Fault {
    match f
    case Leaf(kind, version, parameters, _, scope) => Leaf(kind, version, parameters, seed, scope)
    case Compound(_, components) => Compound(seed, components)
  }

  /** Components from position `i` on, with the seeds derived for their positions. */
  function ReseededFrom(components: seq<Fault>, seed: nat, derive: (nat, nat) -> nat, i: nat): seq<Fault>
    requires i <= |components|
    decreases |components| - i
  {
    if i == |components| then []
    else [Reseeded(components[i], derive(seed, i))] + ReseededFrom(components, seed, derive, i + 1)
  }

  /** A compound's components get seeds derived from its own and their position. */
  function WithSeed(f: Fault, seed: nat, derive: (nat, nat) -> nat): Fault {
    match f
    case Leaf(_, _, _, _, _) => Reseeded(f, seed)
    case Compound(_, components) => Compound(seed, ReseededFrom(components, seed, derive, 0))
  }

  /** The parameter, if swept, takes the point's value; the trial's seed replaces the base's. */
  function TrialSpec(base: Fault, parameter: Option<string>, value: Option<real>, seed: nat): Fault
    requires base.Leaf?
  {
    var parameters :=
      if parameter.None? || value.None? then base.parameters else base.parameters[parameter.value := Number(value.value)];
    Leaf(base.kind, base.version, parameters, seed, base.scope)
  }

  /** The exact fault of one grid point and seed. */
  function PointFault(g: Grid, value: Option<real>, seed: nat): Fault { TrialSpec(BaseFault(g, seed), g.sweep, value, seed) }

  /** An ordered pair of faults, not seeded yet. */
  function Compose(a: Fault, b: Fault): Fault { Compound(0, [a, b]) }

  /** The fault a grid asks for at a value of its swept parameter, or at none, under a seed. */
  ghost predicate Injects(f: Fault, g: Grid, value: Option<real>, seed: nat) {
    && f.Leaf? && f.kind == g.fault && f.version == g.version && f.seed == seed
    && (g.scope.None? ==> f.scope == All) && (g.scope.Some? ==> f.scope == RandomSubset(g.scope.value))
    && (g.sweep.None? ==> f.parameters == g.parameters)
    && (g.sweep.Some? ==> value.Some? && f.parameters == g.parameters[g.sweep.value := Number(value.value)])
  }

  lemma {:induction false} PointInjects(g: Grid, value: Option<real>, seed: nat)
    requires g.sweep.Some? ==> value.Some?
    ensures Injects(PointFault(g, value, seed), g, value, seed)
  {
  }

  /** Grid, value and seed determine the fault. */
  lemma {:induction false} InjectsOne(f: Fault, f': Fault, g: Grid, value: Option<real>, seed: nat)
    requires Injects(f, g, value, seed) && Injects(f', g, value, seed)
    ensures f == f'
  {
  }

  /** The same fault except for its seed. */
  ghost predicate SameFamily(f: Fault, g: Fault) { f == Reseeded(g, f.seed) }

  /** Points of one grid under two seeds are the same fault except for the seed. */
  lemma {:induction false} SeedIsAllThatDiffers(g: Grid, value: Option<real>, seed: nat, seed': nat)
    ensures SameFamily(PointFault(g, value, seed), PointFault(g, value, seed')) && PointFault(g, value, seed).seed == seed
  {
  }

  /** A compound of the points of two grids, whatever seed they were built with, holds under a seed the
      faults of their trials with derived seeds in place of the trials' own. */
  lemma {:induction false} CompoundOfPoints(g: Grid, v: Option<real>, h: Grid, w: Option<real>, built: nat, seed: nat, derive: (nat, nat) -> nat)
    ensures WithSeed(Compose(PointFault(g, v, built), PointFault(h, w, built)), seed, derive) ==
            Compound(seed, [PointFault(g, v, derive(seed, 0)), PointFault(h, w, derive(seed, 1))])
  {
    var a, b := PointFault(g, v, built), PointFault(h, w, built);
    assert ReseededFrom([a, b], seed, derive, 2) == [];
    assert ReseededFrom([a, b], seed, derive, 1) == [Reseeded(b, derive(seed, 1))];
    assert ReseededFrom([a, b], seed, derive, 0) == [Reseeded(a, derive(seed, 0)), Reseeded(b, derive(seed, 1))];
  }
}
