/** Equal-count binning of distinct confidences: exactly the requested bins, all of nearly equal size. */
module QuantileBalance {
  import opened Common
  import opened Sorting
  import opened Sums
  import opened Bins
  import opened Isotonic
  import opened Reliability
  import opened CalibrationError

  // Ranks ---------------------------------------------------------------------------------------

  lemma {:induction false} DivideStep(a: nat, size: nat, n: nat)
    requires n > 0
    ensures size / n <= (a + size) / n - a / n <= (size + n - 1) / n
  {
    DivBounds(a, n);
    DivBounds(size, n);
    StepAt(a, size, n, a / n, size / n);
  }

  lemma {:induction false} StepAt(a: nat, size: nat, n: nat, x: nat, q: nat)
    requires n > 0 && x * n <= a < x * n + n && q * n <= size < q * n + n && q == size / n
    ensures q <= (a + size) / n - x <= (size + n - 1) / n
  {
    assert (x + q) * n == x * n + q * n && (x + q + 1) * n == x * n + q * n + n && (q + 1) * n == q * n + n;
    Quotient(a + size, n, if a + size >= x * n + q * n + n then x + q + 1 else x + q);
    Quotient(size + n - 1, n, if size == q * n then q else q + 1);
  }

  lemma {:induction false} Quotient(a: nat, n: nat, q: nat)
    requires n > 0 && q * n <= a < q * n + n
    ensures a / n == q
  {
    DivBounds(a, n);
    if a / n < q { MulMono(a / n + 1, q, n); }
    if a / n > q { MulMono(q + 1, a / n, n); }
  }

  lemma {:induction false} RankStep(k: nat, size: nat, n: nat)
    requires n > 0
    ensures size / n <= Rank(k + 1, size, n) - Rank(k, size, n) <= (size + n - 1) / n
  {
    assert (k + 1) * size == k * size + size;
    DivideStep(k * size, size, n);
  }

  lemma {:induction false} RankEnds(size: nat, n: nat)
    requires n > 0
    ensures Rank(0, size, n) == 0 && Rank(n, size, n) == size
  {
    Quotient(n * size, n, size);
  }

  lemma {:induction false} RanksRise(i: nat, j: nat, size: nat, n: nat)
    requires 0 < n <= size && i < j
    ensures Rank(i, size, n) < Rank(j, size, n)
    decreases j
  {
    Quotient(n, n, 1);
    AtLeastOne(size, n);
    RankStep(j - 1, size, n);
    if i < j - 1 { RanksRise(i, j - 1, size, n); }
  }

  lemma {:induction false} AtLeastOne(size: nat, n: nat)
    requires 0 < n <= size
    ensures size / n >= 1
  {
    DivBounds(size, n);
    assert size / n * n > 0;
  }

  // Distinct values, sorted ---------------------------------------------------------------------

  ghost predicate Distinct(s: seq<real>) {
    forall i, j :: 0 <= i < j < |s| ==> s[i] != s[j]
  }

  function EqualTo(x: real): real -> real { (v: real) => if v == x then 1.0 else 0.0 }

  lemma {:induction false} CountAtMostOnce(s: seq<real>, x: real)
    requires Distinct(s)
    ensures 0.0 <= Sum(s, EqualTo(x)) <= 1.0
    ensures (forall i :: 0 <= i < |s| ==> s[i] != x) ==> Sum(s, EqualTo(x)) == 0.0
  {
    if s != [] {
      CountAtMostOnce(s[..|s| - 1], x);
      assert forall i :: 0 <= i < |s| - 1 ==> s[..|s| - 1][i] == s[i];
    }
  }

  lemma {:induction false} CountOne(s: seq<real>, x: real, i: nat)
    requires i < |s| && s[i] == x
    ensures Sum(s, EqualTo(x)) >= 1.0
  {
    var n := |s| - 1;
    CountNonNegative(s[..n], x);
    if i < n { CountOne(s[..n], x, i); }
  }

  lemma {:induction false} CountNonNegative(s: seq<real>, x: real)
    ensures Sum(s, EqualTo(x)) >= 0.0
  {
    if s != [] { CountNonNegative(s[..|s| - 1], x); }
  }

  lemma {:induction false} CountTwo(s: seq<real>, x: real, i: nat, j: nat)
    requires i < j < |s| && s[i] == x && s[j] == x
    ensures Sum(s, EqualTo(x)) >= 2.0
  {
    var n := |s| - 1;
    if j < n { CountTwo(s[..n], x, i, j); } else { CountOne(s[..n], x, i); }
  }

  lemma {:induction false} SortedDistinct(values: seq<real>)
    requires Distinct(values) && values != []
    ensures Increasing(Sort(RealLe, values)) && |Sort(RealLe, values)| == |values|
  {
    SortedSpan(values);
    var s := Sort(RealLe, values);
    forall i, j | 0 <= i < j < |s| ensures s[i] < s[j] {
      if s[i] == s[j] {
        SumPermuted(s, values, EqualTo(s[i]));
        CountTwo(s, s[i], i, j);
        CountAtMostOnce(values, s[i]);
      }
    }
  }

  lemma {:induction false} HasElement<T>(s: seq<T>) returns (x: T)
    requires s != []
    ensures x in s
  {
    x := s[0];
  }

  lemma {:induction false} IncreasingIsUnique(a: seq<real>, b: seq<real>)
    requires Increasing(a) && Increasing(b) && forall x :: x in a <==> x in b
    ensures a == b
    decreases |a|
  {
    if a == [] || b == [] {
      if a != [] { var x := HasElement(a); }
      if b != [] { var x := HasElement(b); }
    } else {
      assert a[0] in a;
      assert a[0] in b;
      var j :| 0 <= j < |b| && b[j] == a[0];
      assert b[0] in b;
      assert b[0] in a;
      var i :| 0 <= i < |a| && a[i] == b[0];
      assert a[0] == b[0];
      forall x ensures x in a[1..] <==> x in b[1..] {
        assert x in a[1..] <==> x in a && x != a[0];
        assert x in b[1..] <==> x in b && x != b[0];
      }
      IncreasingIsUnique(a[1..], b[1..]);
      assert a == [a[0]] + a[1..] && b == [b[0]] + b[1..];
    }
  }

  // Edges at equal-count ranks --------------------------------------------------------------------

  ghost function Cuts(s: seq<real>, n: nat): seq<real>
    requires 0 < n <= |s|
  {
    seq(n, k requires 0 <= k < n => ValueAt(s, k, n))
  }

  lemma {:induction false} CutsRise(s: seq<real>, n: nat)
    requires Increasing(s) && 0 < n <= |s|
    ensures Increasing(Cuts(s, n)) && Cuts(s, n)[0] == s[0]
    ensures forall k :: 0 <= k < n ==> Cuts(s, n)[k] <= s[|s| - 1]
  {
    RankEnds(|s|, n);
    forall i, j | 0 <= i < j < n ensures Cuts(s, n)[i] < Cuts(s, n)[j] {
      RankBound(j, |s|, n);
      RanksRise(i, j, |s|, n);
    }
    forall k | 0 <= k < n ensures Cuts(s, n)[k] <= s[|s| - 1] { RankBound(k, |s|, n); }
  }

  lemma {:induction false} SameCuts(s: seq<real>, n: nat, x: real)
    requires 0 < n <= |s|
    ensures x in InnerCuts(s, n) <==> x in Cuts(s, n)[1..]
  {
    var inner := Cuts(s, n)[1..];
    if x in InnerCuts(s, n) {
      var k :| 0 < k < n && ValueAt(s, k, n) == x;
      assert inner[k - 1] == x;
    }
    if x in inner {
      var i :| 0 <= i < n - 1 && inner[i] == x;
      assert ValueAt(s, i + 1, n) == x;
    }
  }

  lemma {:induction false} InnerAreCuts(s: seq<real>, n: nat)
    requires Increasing(s) && 0 < n <= |s|
    ensures SortedSet(InnerCuts(s, n)) == Cuts(s, n)[1..]
  {
    CutsRise(s, n);
    forall x ensures x in SortedSet(InnerCuts(s, n)) <==> x in Cuts(s, n)[1..] { SameCuts(s, n, x); }
    IncreasingIsUnique(SortedSet(InnerCuts(s, n)), Cuts(s, n)[1..]);
  }

  lemma {:induction false} KeptCuts(s: seq<real>, n: nat)
    requires Increasing(s) && 0 < n <= |s|
    ensures Keep(Cuts(s, n)[1..], s[0], s[|s| - 1]) == Cuts(s, n)[1..]
  {
    CutsRise(s, n);
    var inner := Cuts(s, n)[1..];
    forall x | x in inner ensures s[0] < x <= s[|s| - 1] {
      var i :| 0 <= i < |inner| && inner[i] == x;
      assert Cuts(s, n)[0] < Cuts(s, n)[i + 1];
    }
    KeepAll(inner, s[0], s[|s| - 1]);
  }

  /** For at least as many distinct values as bins the edges are the values at equal-count ranks. */
  lemma {:induction false} DistinctEdges(n: nat, values: seq<real>)
    requires Distinct(values) && 0 < n <= |values|
    ensures var s := Sort(RealLe, values);
            && Increasing(s) && |s| == |values|
            && QuantileEdges(n, values) == Cuts(s, n) + [s[|s| - 1]]
  {
    SortedDistinct(values);
    var s := Sort(RealLe, values);
    CutsEdges(s, n);
  }

  lemma {:induction false} FirstCut(s: seq<real>, n: nat)
    requires Increasing(s) && 0 < n <= |s|
    ensures [s[0]] + Cuts(s, n)[1..] == Cuts(s, n)
  {
    CutsRise(s, n);
  }

  lemma {:induction false} CutsEdges(s: seq<real>, n: nat)
    requires Increasing(s) && 0 < n <= |s|
    ensures [s[0]] + Keep(SortedSet(InnerCuts(s, n)), s[0], s[|s| - 1]) + [s[|s| - 1]] == Cuts(s, n) + [s[|s| - 1]]
  {
    FirstCut(s, n);
    assert SortedSet(InnerCuts(s, n)) == Cuts(s, n)[1..] by { InnerAreCuts(s, n); }
    assert Keep(Cuts(s, n)[1..], s[0], s[|s| - 1]) == Cuts(s, n)[1..] by { KeptCuts(s, n); }
  }

  // Counting ------------------------------------------------------------------------------------

  function HitOf(edges: seq<real>, j: nat): real -> real
    requires |edges| >= 2
  {
    (v: real) => if Assign(v, edges) == j then 1.0 else 0.0
  }

  lemma {:induction false} CountByValue(pairs: seq<Pair>, edges: seq<real>, j: nat)
    requires |edges| >= 2
    ensures Sum(pairs, InBinOf(edges, j)) == Sum(Confidences(pairs), HitOf(edges, j))
  {
    if pairs != [] {
      var n := |pairs| - 1;
      CountByValue(pairs[..n], edges, j);
      assert Confidences(pairs)[..n] == Confidences(pairs[..n]);
    }
  }

  lemma {:induction false} RangeCount(s: seq<real>, f: real -> real, lo: nat, hi: nat, m: nat)
    requires lo <= hi <= |s| && m <= |s|
    requires forall i :: 0 <= i < |s| ==> f(s[i]) == if lo <= i < hi then 1.0 else 0.0
    ensures Sum(s[..m], f) == if m <= lo then 0.0 else if m <= hi then (m - lo) as real else (hi - lo) as real
  {
    if m > 0 {
      RangeCount(s, f, lo, hi, m - 1);
      assert s[..m][..m - 1] == s[..m - 1];
    }
  }

  lemma {:induction false} CutsSpan(s: seq<real>, n: nat)
    requires Increasing(s) && 0 < n <= |s|
    ensures var edges := Cuts(s, n) + [s[|s| - 1]];
            ValidEdges(edges) && edges[0] == s[0] && edges[|edges| - 1] == s[|s| - 1] && |edges| == n + 1
  {
    var edges := Cuts(s, n) + [s[|s| - 1]];
    CutsRise(s, n);
    forall a | 0 <= a < n - 1 ensures edges[a] < edges[n] { assert edges[a] < edges[n - 1]; }
  }

  /** The values of rank `Rank(k)` up to `Rank(k + 1)` are the ones in bin `k`. */
  lemma {:induction false} BinOfRank(s: seq<real>, n: nat, k: nat, i: nat)
    requires Increasing(s) && 0 < n <= |s| && k < n && i < |s|
    ensures |Cuts(s, n)| == n && Assign(s[i], Cuts(s, n) + [s[|s| - 1]]) == k
            <==> Rank(k, |s|, n) <= i < Rank(k + 1, |s|, n)
  {
    var edges := Cuts(s, n) + [s[|s| - 1]];
    RankEnds(|s|, n);
    CutsSpan(s, n);
    AssignedToItsBin(s[i], edges);
    RankBound(k, |s|, n);
    assert edges[k] == s[Rank(k, |s|, n)];
    if k + 1 < n {
      RankBound(k + 1, |s|, n);
      assert edges[k + 1] == s[Rank(k + 1, |s|, n)];
    }
    assert InBin(edges, k, s[i]) <==> Rank(k, |s|, n) <= i < Rank(k + 1, |s|, n);
  }

  /** Distinct confidences, at least as many as bins: exactly `n` bins, each holding the floor or
      the ceiling of the equal share. */
  lemma {:induction false} QuantileBinsBalanced(pairs: seq<Pair>, n: nat, minBin: nat)
    requires Distinct(Confidences(pairs)) && 0 < n <= |pairs|
    ensures var edges := QuantileEdges(n, Confidences(pairs));
            && |edges| == n + 1
            && forall k :: 0 <= k < n ==>
                 |pairs| / n <= Table(pairs, edges, minBin)[k].count <= (|pairs| + n - 1) / n
  {
    DistinctEdges(n, Confidences(pairs));
    var s, edges := Sort(RealLe, Confidences(pairs)), QuantileEdges(n, Confidences(pairs));
    forall k: nat | k < n
      ensures |pairs| / n <= Table(pairs, edges, minBin)[k].count <= (|pairs| + n - 1) / n
    {
      BalancedBin(pairs, s, edges, n, k);
    }
  }

  lemma {:induction false} BalancedBin(pairs: seq<Pair>, s: seq<real>, edges: seq<real>, n: nat, k: nat)
    requires Increasing(s) && multiset(s) == multiset(Confidences(pairs)) && |s| == |pairs|
    requires 0 < n <= |s| && k < n && edges == Cuts(s, n) + [s[|s| - 1]]
    ensures |pairs| / n <= |Members(pairs, edges, k)| <= (|pairs| + n - 1) / n
  {
    RankedCount(pairs, s, edges, n, k);
    RankStep(k, |pairs|, n);
  }

  lemma {:induction false} RankedCount(pairs: seq<Pair>, s: seq<real>, edges: seq<real>, n: nat, k: nat)
    requires Increasing(s) && multiset(s) == multiset(Confidences(pairs)) && |s| == |pairs|
    requires 0 < n <= |s| && k < n && edges == Cuts(s, n) + [s[|s| - 1]]
    ensures |Members(pairs, edges, k)| == Rank(k + 1, |s|, n) - Rank(k, |s|, n)
  {
    MembersSums(pairs, edges, k);
    CountByValue(pairs, edges, k);
    SumPermuted(s, Confidences(pairs), HitOf(edges, k));
    RanksRise(k, k + 1, |s|, n);
    RankEnds(|s|, n);
    if k + 1 < n { RankBound(k + 1, |s|, n); }
    forall i | 0 <= i < |s|
      ensures HitOf(edges, k)(s[i]) == if Rank(k, |s|, n) <= i < Rank(k + 1, |s|, n) then 1.0 else 0.0
    {
      BinOfRank(s, n, k, i);
    }
    RangeCount(s, HitOf(edges, k), Rank(k, |s|, n), Rank(k + 1, |s|, n), |s|);
    assert s[..|s|] == s;
  }
}
