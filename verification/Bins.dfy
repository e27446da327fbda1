/** Reliability bins: edges by equal width or equal count, and membership by bisection. */
module Bins {
  import opened Sorting
  import opened Sums

  datatype Strategy = Uniform | Quantile

  function UniformEdges(n: nat): seq<real>
    requires n > 0
  {
    seq(n + 1, k requires 0 <= k <= n => k as real / n as real)
  }

  function Keep(s: seq<real>, lo: real, hi: real): seq<real> {
    if s == [] then []
    else Keep(s[..|s| - 1], lo, hi) + if lo < s[|s| - 1] <= hi then [s[|s| - 1]] else []
  }

  /** The rank at which quantile bin `k` of `n` starts among `size` sorted values. */
  function Rank(k: nat, size: nat, n: nat): nat
    requires n > 0
  {
    k * size / n
  }

  lemma {:induction false} RankBound(k: nat, size: nat, n: nat)
    requires k < n && size > 0
    ensures Rank(k, size, n) < size
  {
    var q := k * size / n;
    DivBounds(k * size, n);
    MulMono(k, n - 1, size);
    assert (n - 1) * size == n * size - size;
    if q >= size { MulMono(size, q, n); }
  }

  function ValueAt(s: seq<real>, k: nat, n: nat): real
    requires k < n && s != []
  {
    RankBound(k, |s|, n);
    s[Rank(k, |s|, n)]
  }

  function InnerCuts(s: seq<real>, n: nat): set<real>
    requires n > 0 && s != []
  {
    set k | 0 < k < n :: ValueAt(s, k, n)
  }

  function QuantileEdges(n: nat, values: seq<real>): seq<real>
    requires n > 0 && values != []
  {
    var s := Sort(RealLe, values);
    assert |multiset(s)| == |multiset(values)|;
    var lo, hi := s[0], s[|s| - 1];
    [lo] + Keep(SortedSet(InnerCuts(s, n)), lo, hi) + [hi]
  }

  function MakeEdges(strategy: Strategy, n: nat, values: seq<real>): seq<real>
    requires n > 0 && (strategy.Quantile? ==> values != [])
  {
    match strategy
    case Uniform => UniformEdges(n)
    case Quantile => QuantileEdges(n, values)
  }

  function Assign(value: real, edges: seq<real>): nat
    requires |edges| >= 2
  {
    var j := BisectRight(edges, value) - 1;
    var clamped := if j < 0 then 0 else j;
    if clamped < |edges| - 2 then clamped else |edges| - 2
  }

  // Membership --------------------------------------------------------------------------------

  /** Edges rise strictly, except that the last bin may be the single point at the maximum. */
  ghost predicate ValidEdges(edges: seq<real>) {
    && |edges| >= 2
    && (forall i, j :: 0 <= i < j < |edges| - 1 ==> edges[i] < edges[j])
    && (forall i :: 0 <= i < |edges| - 2 ==> edges[i] < edges[|edges| - 1])
    && edges[|edges| - 2] <= edges[|edges| - 1]
  }

  /** Bins are closed below and open above; the last one is closed. */
  ghost predicate InBin(edges: seq<real>, j: nat, v: real)
    requires j + 1 < |edges|
  {
    edges[j] <= v && if j + 2 == |edges| then v <= edges[j + 1] else v < edges[j + 1]
  }

  /** A value between the outer edges is assigned to the one bin that contains it. */
  lemma {:induction false} AssignedToItsBin(v: real, edges: seq<real>)
    requires ValidEdges(edges) && edges[0] <= v <= edges[|edges| - 1]
    ensures InBin(edges, Assign(v, edges), v)
    ensures forall j: nat :: j + 1 < |edges| && InBin(edges, j, v) ==> j == Assign(v, edges)
  {
    assert NonDecreasing(edges);
    var i := BisectRight(edges, v);
    assert i > 0;
    forall j: nat | j + 1 < |edges| && InBin(edges, j, v) ensures j == Assign(v, edges) {
      if j + 2 < |edges| {
        assert i == j + 1;
      } else {
        assert i >= j + 1;
      }
    }
  }

  lemma {:induction false} AssignClamps(v: real, edges: seq<real>)
    requires ValidEdges(edges)
    ensures v < edges[0] ==> Assign(v, edges) == 0
    ensures v > edges[|edges| - 1] ==> Assign(v, edges) == |edges| - 2
  {
    assert NonDecreasing(edges);
  }

  lemma {:induction false} UniformEdgesValid(n: nat)
    requires n > 0
    ensures ValidEdges(UniformEdges(n))
    ensures UniformEdges(n)[0] == 0.0 && UniformEdges(n)[n] == 1.0
  {
    var e := UniformEdges(n);
    forall i, j | 0 <= i < j <= n ensures e[i] < e[j] { FractionsRise(i, j, n as real); }
    CancelDivide(1.0, n as real);
  }

  lemma {:induction false} FractionsRise(i: int, j: int, w: real)
    requires i < j && w > 0.0
    ensures i as real / w < j as real / w
  {
  }

  lemma {:induction false} KeepKeeps(s: seq<real>, lo: real, hi: real)
    requires Increasing(s)
    ensures Increasing(Keep(s, lo, hi)) && |Keep(s, lo, hi)| <= |s|
    ensures forall x :: x in Keep(s, lo, hi) <==> x in s && lo < x <= hi
  {
    if s != [] {
      var n := |s| - 1;
      KeepKeeps(s[..n], lo, hi);
      assert s == s[..n] + [s[n]];
      var k := Keep(s[..n], lo, hi);
      forall i | 0 <= i < |k| ensures k[i] < s[n] { assert k[i] in k; }
    }
  }

  lemma {:induction false} KeepAll(s: seq<real>, lo: real, hi: real)
    requires forall x :: x in s ==> lo < x <= hi
    ensures Keep(s, lo, hi) == s
  {
    if s != [] {
      var n := |s| - 1;
      assert s == s[..n] + [s[n]];
      assert s[n] in s;
      assert forall x :: x in s[..n] ==> x in s;
      KeepAll(s[..n], lo, hi);
    }
  }

  lemma {:induction false} RealOrder()
    ensures TotalPreorder(RealLe)
  {
  }

  lemma {:induction false} FewCuts(s: seq<real>, n: nat, b: nat)
    requires n > 0 && s != [] && 0 < b <= n
    ensures |set k | 0 < k < b :: ValueAt(s, k, n)| <= b - 1
  {
    var cuts := set k | 0 < k < b :: ValueAt(s, k, n);
    if b == 1 {
      assert cuts == {};
    } else {
      FewCuts(s, n, b - 1);
      assert cuts == (set k | 0 < k < b - 1 :: ValueAt(s, k, n)) + {ValueAt(s, b - 1, n)};
    }
  }

  lemma {:induction false} SortedSpan(values: seq<real>)
    requires values != []
    ensures var s := Sort(RealLe, values);
            && |s| == |values| && NonDecreasing(s)
            && (forall v :: v in s <==> v in values)
            && forall v :: v in values ==> s[0] <= v <= s[|s| - 1]
  {
    RealOrder();
    SortSorts(RealLe, values);
    var s := Sort(RealLe, values);
    SameMultisetSameLength(s, values);
    forall i, j | 0 <= i < j < |s| ensures s[i] <= s[j] { assert RealLe(s[i], s[j]); }
    forall v | v in values ensures s[0] <= v <= s[|s| - 1] {
      assert v in s;
      var i :| 0 <= i < |s| && s[i] == v;
    }
  }

  /** Quantile edges run from the smallest to the largest value and give at most `n` bins. */
  lemma {:induction false} QuantileEdgesValid(n: nat, values: seq<real>)
    requires n > 0 && values != []
    ensures var e := QuantileEdges(n, values);
            && ValidEdges(e) && |e| - 1 <= n
            && e[0] in values && e[|e| - 1] in values
            && forall v :: v in values ==> e[0] <= v <= e[|e| - 1]
  {
    SortedSpan(values);
    var s := Sort(RealLe, values);
    var lo, hi := s[0], s[|s| - 1];
    var inner := SortedSet(InnerCuts(s, n));
    FewCuts(s, n, n);
    KeepKeeps(inner, lo, hi);
    var kept := Keep(inner, lo, hi);
    forall i | 0 <= i < |kept| ensures lo < kept[i] <= hi { assert kept[i] in kept; }
    assert lo in s && hi in s;
    assert lo <= hi;
    EdgesFromKept(lo, kept, hi);
  }

  lemma {:induction false} EdgesFromKept(lo: real, kept: seq<real>, hi: real)
    requires Increasing(kept) && lo <= hi && forall i :: 0 <= i < |kept| ==> lo < kept[i] <= hi
    ensures ValidEdges([lo] + kept + [hi])
  {
    var e := [lo] + kept + [hi];
    forall i | 0 <= i < |e| - 2 ensures e[i] < e[|e| - 1] {
      if i > 0 { assert kept[i - 1] < kept[|kept| - 1]; } else { assert lo < kept[|kept| - 1]; }
    }
  }

  /** Uniform edges are the multiples of 1/n. */
  lemma {:induction false} UniformEdgesAre(n: nat, values: seq<real>, k: nat)
    requires n > 0 && k <= n
    ensures |MakeEdges(Uniform, n, values)| == n + 1
    ensures Times(n as real, MakeEdges(Uniform, n, values)[k], k as real)
  {
    var w := n as real;
    assert w * (k as real / w) == k as real;
  }

  /** `x` stands at an inner equal-count rank of the sorted values. */
  ghost predicate StandsAt(s: seq<real>, n: nat, k: nat, x: real) {
    0 < k < n && k * |s| / n < |s| && s[k * |s| / n] == x
  }

  /** Quantile edges are the minimum, the maximum and, in between, exactly the values at the inner
      equal-count ranks that lie above the minimum, each once, however many values are tied. */
  lemma {:induction false} QuantileEdgesAre(n: nat, values: seq<real>, s: seq<real>, x: real)
    requires n > 0 && values != [] && NonDecreasing(s) && multiset(s) == multiset(values)
    ensures var e := MakeEdges(Quantile, n, values);
            && |s| > 0 && |e| >= 2 && e[0] == s[0] && e[|e| - 1] == s[|s| - 1]
            && Increasing(e[1..|e| - 1])
            && (x in e[1..|e| - 1] <==> s[0] < x && exists k :: StandsAt(s, n, k, x))
  {
    SortedSpan(values);
    assert s == Sort(RealLe, values) by { SortedIsUnique(RealLe, s, Sort(RealLe, values)); }
    var inner := SortedSet(InnerCuts(s, n));
    KeepKeeps(inner, s[0], s[|s| - 1]);
    var e := QuantileEdges(n, values);
    assert e[1..|e| - 1] == Keep(inner, s[0], s[|s| - 1]);
    forall k | 0 < k < n ensures StandsAt(s, n, k, ValueAt(s, k, n)) && ValueAt(s, k, n) <= s[|s| - 1] {
      RankBound(k, |s|, n);
    }
    forall k | StandsAt(s, n, k, x) ensures x in InnerCuts(s, n) { assert x == ValueAt(s, k, n); }
  }
}
