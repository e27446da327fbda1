/** What the binned calibration errors promise: bounds, conservation, and refinement. */
module CalibrationError {
  import opened Common
  import opened Sorting
  import opened Sums
  import opened Bins
  import opened Isotonic
  import opened Reliability

  ghost predicate InUnit(pairs: seq<Pair>) {
    forall p :: p in pairs ==> 0.0 <= p.conf <= 1.0
  }

  lemma {:induction false} AssignInRange(pairs: seq<Pair>, edges: seq<real>)
    requires |edges| >= 2
    ensures Within(pairs, BinOf(edges), |edges| - 1)
  {
  }

  function InBinOf(edges: seq<real>, j: nat): Pair -> real
    requires |edges| >= 2
  {
    (p: Pair) => if Assign(p.conf, edges) == j then 1.0 else 0.0
  }

  /** A bin's row sums exactly its own observations. */
  lemma {:induction false} MembersSums(pairs: seq<Pair>, edges: seq<real>, j: nat)
    requires |edges| >= 2
    ensures var m := Members(pairs, edges, j);
            && Sum(m, DevOf()) == Sum(pairs, DevIn(BinOf(edges), j))
            && Sum(m, ConfOf()) - Sum(m, TruthOf()) == Sum(m, DevOf())
            && |m| as real == Sum(pairs, InBinOf(edges, j))
            && |m| <= |pairs|
            && forall p :: p in m ==> p in pairs
  {
    if pairs != [] {
      var n := |pairs| - 1;
      var p := pairs[n];
      MembersSums(pairs[..n], edges, j);
      assert pairs == pairs[..n] + [p];
      var m := Members(pairs[..n], edges, j);
      if Assign(p.conf, edges) == j {
        assert (m + [p])[..|m|] == m;
      } else {
        assert m + [] == m;
      }
    }
  }

  ghost function CountOf(pairs: seq<Pair>, edges: seq<real>): nat -> real
    requires |edges| >= 2
  {
    (j: nat) => |Members(pairs, edges, j)| as real
  }

  /** Every observation is counted in exactly one row. */
  lemma {:induction false} CountsConserved(pairs: seq<Pair>, edges: seq<real>)
    requires |edges| >= 2
    ensures Sum(Range(|edges| - 1), CountOf(pairs, edges)) == |pairs| as real
  {
    var k := |edges| - 1;
    if pairs == [] {
      SumConstant(Range(k), CountOf(pairs, edges), 0.0);
    } else {
      var n := |pairs| - 1;
      var b := Assign(pairs[n].conf, edges);
      CountsConserved(pairs[..n], edges);
      forall j | j in Range(k)
        ensures CountOf(pairs, edges)(j) == CountOf(pairs[..n], edges)(j) + SpikeOf(b, 1.0)(j)
      {
      }
      SumSplit(Range(k), CountOf(pairs, edges), CountOf(pairs[..n], edges), SpikeOf(b, 1.0));
      SpikeSum(k, b, 1.0);
    }
  }

  lemma {:induction false} AbsRatio(d: real, c: real, n: real)
    requires c > 0.0 && n > 0.0
    ensures n * (c / n * Abs(d / c)) == Abs(d)
  {
    var q, w := d / c, c / n;
    assert q * c == d && w * n == c;
    AbsTimes(q, c);
    assert n * (w * Abs(q)) == (w * n) * Abs(q);
  }

  lemma {:induction false} AbsTimes(q: real, c: real)
    requires c > 0.0
    ensures Abs(q) * c == Abs(q * c)
  {
    ProductSign(q, c);
    if q < 0.0 { ProductSign(-q, c); }
  }

  lemma {:induction false} MeanGap(m: seq<Pair>)
    requires m != [] && Sum(m, ConfOf()) - Sum(m, TruthOf()) == Sum(m, DevOf())
    ensures BinStats(m).Some? && BinStats(m).value.absGap == Abs(Sum(m, DevOf()) / (|m| as real))
  {
    DivideDifference(Sum(m, ConfOf()), Sum(m, TruthOf()), |m| as real);
  }

  lemma {:induction false} DivideDifference(a: real, b: real, c: real)
    requires c > 0.0
    ensures a / c - b / c == (a - b) / c
  {
  }

  lemma {:induction false} StatsShare(r: Row, g: Stats, n: real, c: real, d: real)
    requires n > 0.0 && c > 0.0 && r.stats == Some(g) && r.count as real == c && g.absGap == Abs(d / c)
    ensures n * ShareOf(n)(r) == Abs(d)
  {
    AbsRatio(d, c, n);
    assert Share(r, n) == c / n * Abs(d / c);
  }

  lemma {:induction false} NoShare(r: Row, n: real)
    requires n > 0.0 && r.stats == None
    ensures n * ShareOf(n)(r) == 0.0
  {
    assert Share(r, n) == 0.0;
  }

  /** One row's share of the ECE, times the observation count, is its absolute total deviation. */
  lemma {:induction false} ShareIs(pairs: seq<Pair>, edges: seq<real>, minBin: nat, j: nat, n: real)
    requires |edges| >= 2 && j + 1 < |edges| && n > 0.0
    ensures n * ShareOf(n)(Table(pairs, edges, minBin)[j]) == Abs(Sum(pairs, DevIn(BinOf(edges), j)))
  {
    var m := Members(pairs, edges, j);
    var r := Table(pairs, edges, minBin)[j];
    assert Sum(m, DevOf()) == Sum(pairs, DevIn(BinOf(edges), j)) by { MembersSums(pairs, edges, j); }
    if m != [] {
      assert Sum(m, ConfOf()) - Sum(m, TruthOf()) == Sum(m, DevOf()) by { MembersSums(pairs, edges, j); }
      MeanGap(m);
      StatsShare(r, r.stats.value, n, |m| as real, Sum(m, DevOf()));
    } else {
      NoShare(r, n);
    }
  }

  ghost predicate RowsMatch(rows: seq<Row>, f: Row -> real, n: real, g: nat -> real) {
    forall j: nat :: j < |rows| ==> Times(n, f(rows[j]), g(j))
  }

  lemma {:induction false} SharesMatch(pairs: seq<Pair>, edges: seq<real>, minBin: nat, n: real)
    requires |edges| >= 2 && n > 0.0
    ensures RowsMatch(Table(pairs, edges, minBin), ShareOf(n), n, AbsTotal(pairs, BinOf(edges)))
  {
    var rows := Table(pairs, edges, minBin);
    forall j: nat | j < |rows| ensures Times(n, ShareOf(n)(rows[j]), AbsTotal(pairs, BinOf(edges))(j)) {
      ShareIs(pairs, edges, minBin, j, n);
    }
  }

  lemma {:induction false} SumMatched(rows: seq<Row>, f: Row -> real, n: real, g: nat -> real)
    requires RowsMatch(rows, f, n, g)
    ensures Times(n, Sum(rows, f), Sum(Range(|rows|), g))
  {
    if rows != [] {
      var k := |rows| - 1;
      SumMatched(rows[..k], f, n, g);
      assert Range(k + 1)[..k] == Range(k);
      Distribute(n, Sum(rows[..k], f), f(rows[k]));
      assert Times(n, f(rows[k]), g(k));
    }
  }

  /** The observation count times the ECE is the spread over the bins. */
  lemma {:induction false} EceIsSpread(pairs: seq<Pair>, edges: seq<real>, minBin: nat)
    requires |edges| >= 2 && pairs != []
    ensures var e := Ece(Table(pairs, edges, minBin), |pairs|);
            e.Some? && Times(|pairs| as real, e.value, Spread(pairs, BinOf(edges), |edges| - 1))
  {
    var n := |pairs| as real;
    SharesMatch(pairs, edges, minBin, n);
    SumMatched(Table(pairs, edges, minBin), ShareOf(n), n, AbsTotal(pairs, BinOf(edges)));
  }

  // Refinement ----------------------------------------------------------------------------------

  lemma {:induction false} FractionBounds(k: nat, n: nat, v: real)
    requires n > 0
    ensures k as real / n as real <= v <==> k as real <= v * (n as real)
  {
    var w := n as real;
    assert (k as real / w) * w == k as real;
    if k as real / w <= v {
      NonNegProduct(v - k as real / w, w);
    } else {
      ProductSign(k as real / w - v, w);
    }
  }

  lemma {:induction false} UniformBinIs(n: nat, v: real, j: nat)
    requires n > 0 && 0.0 <= v <= 1.0 && j < n
    ensures Assign(v, UniformEdges(n)) == j <==>
            j as real <= v * (n as real) && (j + 1 == n || v * (n as real) < (j + 1) as real)
  {
    UniformEdgesValid(n);
    AssignedToItsBin(v, UniformEdges(n));
    FractionBounds(j, n, v);
    FractionBounds(j + 1, n, v);
    assert InBin(UniformEdges(n), j, v) <==>
      j as real <= v * (n as real) && (j + 1 == n || v * (n as real) < (j + 1) as real);
  }

  /** Bin `j` of the table with `m * n` bins lies inside bin `j / m` of the table with `n`. */
  lemma {:induction false} UniformNested(n: nat, m: nat, v: real)
    requires n > 0 && m > 0 && 0.0 <= v <= 1.0 && m * n > 0
    ensures Assign(v, UniformEdges(n)) == Assign(v, UniformEdges(m * n)) / m
  {
    NestedIn(n, m, m * n, v);
  }

  lemma {:induction false} NestedIn(n: nat, m: nat, l: nat, v: real)
    requires n > 0 && m > 0 && 0.0 <= v <= 1.0 && l == m * n && l > 0
    ensures Assign(v, UniformEdges(n)) == Assign(v, UniformEdges(l)) / m
  {
    var j, y := UniformBin(l, v);
    var i, x := UniformBin(n, v);
    CastProduct(m, n, l, v, x, y);
    NestedAt(n, m, l, i, j, x, y);
  }

  lemma {:induction false} NestedAt(n: nat, m: nat, l: nat, i: nat, j: nat, x: real, y: real)
    requires m > 0 && l == m * n && i < n && j < l && y == x * (m as real)
    requires j as real <= y && (j + 1 == l || y < (j + 1) as real)
    requires i as real <= x && (i + 1 == n || x < (i + 1) as real)
    ensures i == j / m
  {
    var i' := Quotient(n, m, j, x, y);
    SameIndex(n, i, i', x);
  }

  /** The index bisection finds for uniform edges, in multiplied-out form. */
  lemma {:induction false} UniformBin(n: nat, v: real) returns (j: nat, x: real)
    requires n > 0 && 0.0 <= v <= 1.0
    ensures x == v * (n as real)
    ensures j == Assign(v, UniformEdges(n)) && j < n
    ensures j as real <= x && (j + 1 == n || x < (j + 1) as real)
  {
    UniformEdgesValid(n);
    j, x := Assign(v, UniformEdges(n)), v * (n as real);
    UniformBinIs(n, v, j);
  }

  lemma {:induction false} Quotient(n: nat, m: nat, j: nat, x: real, y: real) returns (i: nat)
    requires m > 0 && n > 0 && j < m * n && y == x * (m as real)
    requires j as real <= y && (j + 1 == m * n || y < (j + 1) as real)
    ensures i == j / m && i < n && i as real <= x && (i + 1 == n || x < (i + 1) as real)
  {
    i := j / m;
    DivBounds(j, m);
    NestedIndex(n, m, i, j, x);
  }

  lemma {:induction false} SameIndex(n: nat, i: nat, j: nat, x: real)
    requires i < n && i as real <= x && (i + 1 == n || x < (i + 1) as real)
    requires j < n && j as real <= x && (j + 1 == n || x < (j + 1) as real)
    ensures i == j
  {
  }

  lemma {:induction false} CastProduct(m: nat, n: nat, l: nat, v: real, x: real, y: real)
    requires l == m * n && x == v * (n as real) && y == v * (l as real)
    ensures y == x * (m as real)
  {
    assert l as real == (m as real) * (n as real);
  }

  lemma {:induction false} NestedIndex(n: nat, m: nat, i: nat, j: nat, x: real)
    requires m > 0 && n > 0 && j < m * n && i * m <= j < i * m + m
    ensures i < n
    ensures j as real <= x * (m as real) ==> i as real <= x
    ensures j + 1 != m * n && x * (m as real) < (j + 1) as real ==> x < (i + 1) as real
    ensures j + 1 == m * n ==> i + 1 == n
  {
    IndexBelow(n, m, i, j);
    assert (i * m) as real == i as real * m as real;
    assert (i * m + m) as real == i as real * m as real + m as real;
    RealIndex(i as real, m as real, j as real, x);
  }

  lemma {:induction false} RealIndex(i: real, w: real, j: real, x: real)
    requires w > 0.0 && i * w <= j && j + 1.0 <= i * w + w
    ensures j <= x * w ==> i <= x
    ensures x * w < j + 1.0 ==> x < i + 1.0
  {
    if j <= x * w { CancelRight(i, x, w); }
    assert i * w + w == (i + 1.0) * w;
    if x * w < j + 1.0 { CancelRightStrictly(x, i + 1.0, w); }
  }

  lemma {:induction false} IndexBelow(n: nat, m: nat, i: nat, j: nat)
    requires m > 0 && n > 0 && j < m * n && i * m <= j < i * m + m
    ensures i < n && (j + 1 == m * n ==> i + 1 == n)
  {
    if i >= n { MulMono(n, i, m); }
    if i + 2 <= n { MulMono(i + 2, n, m); }
  }

  lemma {:induction false} CancelRight(x: real, y: real, w: real)
    requires w > 0.0 && x * w <= y * w
    ensures x <= y
  {
    CancelScale(w, x, y);
  }

  lemma {:induction false} CancelRightStrictly(x: real, y: real, w: real)
    requires w > 0.0 && x * w < y * w
    ensures x < y
  {
    if x >= y { NonNegProduct(x - y, w); }
  }

  ghost function DividedBy(m: nat): nat -> nat
    requires m > 0
  {
    (j: nat) => j / m
  }

  /** Splitting every uniform bin into `m` equal parts never lowers the ECE. */
  lemma {:induction false} RefinementRaisesEce(pairs: seq<Pair>, n: nat, m: nat, minBin: nat)
    requires pairs != [] && InUnit(pairs) && n > 0 && m > 0
    ensures m * n > 0
    ensures var coarse := Ece(Table(pairs, UniformEdges(n), minBin), |pairs|);
            var fine := Ece(Table(pairs, UniformEdges(m * n), minBin), |pairs|);
            coarse.Some? && fine.Some? && coarse.value <= fine.value
  {
    MulMono(1, m, n);
    RefinedAt(pairs, n, m, m * n, minBin);
  }

  lemma {:induction false} RefinedAt(pairs: seq<Pair>, n: nat, m: nat, l: nat, minBin: nat)
    requires pairs != [] && InUnit(pairs) && n > 0 && m > 0 && l == m * n && l > 0
    ensures var coarse := Ece(Table(pairs, UniformEdges(n), minBin), |pairs|);
            var fine := Ece(Table(pairs, UniformEdges(l), minBin), |pairs|);
            coarse.Some? && fine.Some? && coarse.value <= fine.value
  {
    RefinedSpread(pairs, n, m, l);
    EceIsSpread(pairs, UniformEdges(n), minBin);
    EceIsSpread(pairs, UniformEdges(l), minBin);
    var coarse := Ece(Table(pairs, UniformEdges(n), minBin), |pairs|);
    var fine := Ece(Table(pairs, UniformEdges(l), minBin), |pairs|);
    CancelTimes(|pairs| as real, coarse.value, Spread(pairs, BinOf(UniformEdges(n)), n), fine.value, Spread(pairs, BinOf(UniformEdges(l)), l));
  }

  lemma {:induction false} RefinedSpread(pairs: seq<Pair>, n: nat, m: nat, l: nat)
    requires InUnit(pairs) && n > 0 && m > 0 && l == m * n && l > 0
    ensures Spread(pairs, BinOf(UniformEdges(n)), n) <= Spread(pairs, BinOf(UniformEdges(l)), l)
  {
    var a, b := UniformEdges(n), UniformEdges(l);
    AssignInRange(pairs, a);
    AssignInRange(pairs, b);
    forall p | p in pairs ensures BinOf(a)(p.conf) == DividedBy(m)(BinOf(b)(p.conf)) {
      UniformNested(n, m, p.conf);
    }
    CoarserSpreadsLess(pairs, BinOf(a), n, BinOf(b), l, DividedBy(m));
  }

  lemma {:induction false} CancelTimes(c: real, x: real, x': real, y: real, y': real)
    requires c > 0.0 && Times(c, x, x') && Times(c, y, y') && x' <= y'
    ensures x <= y
  {
    CancelScale(c, x, y);
  }

  lemma {:induction false} CancelScale(c: real, x: real, y: real)
    requires c > 0.0 && c * x <= c * y
    ensures x <= y
  {
    if x > y { ProductSign(x - y, c); }
  }

  // The metric chain ----------------------------------------------------------------------------

  lemma {:induction false} DevSums(pairs: seq<Pair>)
    ensures Sum(pairs, ConfOf()) - Sum(pairs, TruthOf()) == Sum(pairs, DevOf())
  {
    if pairs != [] { DevSums(pairs[..|pairs| - 1]); }
  }

  lemma {:induction false} MeanInUnit(pairs: seq<Pair>)
    requires InUnit(pairs)
    ensures 0.0 <= Sum(pairs, ConfOf()) <= |pairs| as real
    ensures 0.0 <= Sum(pairs, TruthOf()) <= |pairs| as real
  {
    if pairs != [] {
      var n := |pairs| - 1;
      assert pairs[n] in pairs && forall p :: p in pairs[..n] ==> p in pairs;
      MeanInUnit(pairs[..n]);
    }
  }

  lemma {:induction false} UnitQuotient(a: real, n: real)
    requires 0.0 <= a <= n && n > 0.0
    ensures 0.0 <= a / n <= 1.0
  {
    DivideMono(0.0, a, n);
    DivideMono(a, n, n);
    CancelDivide(1.0, n);
  }

  lemma {:induction false} GapInUnit(m: seq<Pair>)
    requires m != [] && InUnit(m)
    ensures BinStats(m).Some? && BinStats(m).value.absGap <= 1.0
  {
    MeanInUnit(m);
    UnitQuotient(Sum(m, ConfOf()), |m| as real);
    UnitQuotient(Sum(m, TruthOf()), |m| as real);
  }

  lemma {:induction false} LargestIs(s: seq<real>)
    requires s != []
    ensures forall i :: 0 <= i < |s| ==> s[i] <= Largest(s)
    ensures exists i :: 0 <= i < |s| && s[i] == Largest(s)
  {
    var n := |s| - 1;
    if n == 0 {
      assert s[0] == Largest(s);
    } else {
      LargestIs(s[..n]);
      var i :| 0 <= i < n && s[..n][i] == Largest(s[..n]);
      assert s[i] == Largest(s) || s[n] == Largest(s);
    }
  }

  lemma {:induction false} GapsAre(rows: seq<Row>, j: nat)
    requires j < |rows| && rows[j].stats.Some?
    ensures exists i :: 0 <= i < |Gaps(rows)| && Gaps(rows)[i] == rows[j].stats.value.absGap
  {
    var n := |rows| - 1;
    var init := Gaps(rows[..n]);
    if j == n {
      assert Gaps(rows)[|init|] == rows[j].stats.value.absGap;
    } else {
      GapsAre(rows[..n], j);
      var i :| 0 <= i < |init| && init[i] == rows[j].stats.value.absGap;
      assert Gaps(rows)[i] == rows[j].stats.value.absGap;
    }
  }

  lemma {:induction false} GapsFrom(rows: seq<Row>, i: nat) returns (j: nat)
    requires i < |Gaps(rows)|
    ensures j < |rows| && rows[j].stats.Some? && Gaps(rows)[i] == rows[j].stats.value.absGap
  {
    var n := |rows| - 1;
    if i < |Gaps(rows[..n])| {
      j := GapsFrom(rows[..n], i);
    } else {
      j := n;
    }
  }

  /** MCE is the largest gap of a non-empty bin. */
  lemma {:induction false} MceIsLargestGap(rows: seq<Row>)
    ensures Mce(rows).None? <==> forall j :: 0 <= j < |rows| ==> rows[j].stats.None?
    ensures Mce(rows).Some? ==>
              && (forall j :: 0 <= j < |rows| && rows[j].stats.Some? ==> rows[j].stats.value.absGap <= Mce(rows).value)
              && (exists j :: 0 <= j < |rows| && rows[j].stats.Some? && rows[j].stats.value.absGap == Mce(rows).value)
  {
    forall j | 0 <= j < |rows| && rows[j].stats.Some?
      ensures Mce(rows).Some? && rows[j].stats.value.absGap <= Mce(rows).value
    {
      GapsAre(rows, j);
      LargestIs(Gaps(rows));
    }
    if Mce(rows).Some? {
      LargestIs(Gaps(rows));
      var i :| 0 <= i < |Gaps(rows)| && Gaps(rows)[i] == Largest(Gaps(rows));
      var j := GapsFrom(rows, i);
    }
  }

  /** One bin's absolute total deviation is at most its count times a bound on its gap. */
  lemma {:induction false} TotalBelow(pairs: seq<Pair>, edges: seq<real>, minBin: nat, j: nat, c: real)
    requires |edges| >= 2 && j + 1 < |edges|
    requires var r := Table(pairs, edges, minBin)[j]; r.stats.Some? ==> r.stats.value.absGap <= c
    ensures AtMostTimes(Abs(Sum(pairs, DevIn(BinOf(edges), j))), c, |Members(pairs, edges, j)| as real)
  {
    var m := Members(pairs, edges, j);
    MembersSums(pairs, edges, j);
    if m != [] {
      MeanGap(m);
      RatioBelow(Sum(m, DevOf()), |m| as real, c);
    } else {
      assert Sum(m, DevOf()) == 0.0;
      NothingBelow(c);
    }
  }

  lemma {:induction false} NothingBelow(c: real)
    ensures AtMostTimes(0.0, c, 0.0)
  {
  }

  lemma {:induction false} RatioBelow(d: real, n: real, c: real)
    requires n > 0.0 && Abs(d / n) <= c
    ensures AtMostTimes(Abs(d), c, n)
  {
    var q := d / n;
    AbsTimes(q, n);
    assert q * n == d;
    NonNegProduct(c - Abs(q), n);
  }

  lemma {:induction false} SpreadBelow(pairs: seq<Pair>, edges: seq<real>, minBin: nat, c: real)
    requires |edges| >= 2
    requires forall j: nat :: j + 1 < |edges| ==>
               var r := Table(pairs, edges, minBin)[j]; r.stats.Some? ==> r.stats.value.absGap <= c
    ensures AtMostTimes(Spread(pairs, BinOf(edges), |edges| - 1), c, |pairs| as real)
  {
    TotalsBelow(pairs, edges, minBin, c);
    SumBelowScaled(Range(|edges| - 1), AbsTotal(pairs, BinOf(edges)), c, CountOf(pairs, edges));
    CountsConserved(pairs, edges);
  }

  lemma {:induction false} TotalsBelow(pairs: seq<Pair>, edges: seq<real>, minBin: nat, c: real)
    requires |edges| >= 2
    requires forall j: nat :: j + 1 < |edges| ==>
               var r := Table(pairs, edges, minBin)[j]; r.stats.Some? ==> r.stats.value.absGap <= c
    ensures AllAtMostTimes(Range(|edges| - 1), AbsTotal(pairs, BinOf(edges)), c, CountOf(pairs, edges))
  {
    forall j | j in Range(|edges| - 1)
      ensures AtMostTimes(AbsTotal(pairs, BinOf(edges))(j), c, CountOf(pairs, edges)(j))
    {
      TotalBelow(pairs, edges, minBin, j, c);
    }
  }

  ghost function ConstantTilt(x: real): nat -> real { (j: nat) => x }

  /** The spread is at least the absolute total deviation. */
  lemma {:induction false} SpreadAboveTotal(pairs: seq<Pair>, bin: real -> nat, k: nat)
    requires Within(pairs, bin, k)
    ensures Abs(Sum(pairs, DevOf())) <= Spread(pairs, bin, k)
  {
    SumCong(pairs, DevOf(), TiltedDev(bin, ConstantTilt(1.0)));
    TiltBound(pairs, bin, ConstantTilt(1.0), k);
    SumScale(pairs, DevOf(), -1.0, TiltedDev(bin, ConstantTilt(-1.0)));
    TiltBound(pairs, bin, ConstantTilt(-1.0), k);
  }

  ghost predicate SquareGap(q: real, t: real, s: real, n: real) { q - 2.0 * t * s + n * (t * t) >= 0.0 }

  lemma {:induction false} AddSquareGap(q: real, t: real, s: real, n: real, sign: real, d: real)
    requires SquareGap(q, t, s, n) && (sign == 1.0 || sign == -1.0)
    ensures SquareGap(q + Square(d), t, s + sign * d, n + 1.0)
  {
    TiltStep(sign, d, t);
    Distribute(2.0 * t, s, sign * d);
    Distribute(t * t, n, 1.0);
  }

  /** Cauchy-Schwarz: a tilted deviation has the square of the deviation. */
  lemma {:induction false} SquaredTiltAt(pairs: seq<Pair>, bin: real -> nat, tilt: nat -> real, t: real)
    requires UnitTilt(tilt)
    ensures SquareGap(Sum(pairs, SquaredDevOf()), t, Sum(pairs, TiltedDev(bin, tilt)), |pairs| as real)
  {
    if pairs != [] {
      var n := |pairs| - 1;
      var p := pairs[n];
      SquaredTiltAt(pairs[..n], bin, tilt, t);
      AddSquareGap(Sum(pairs[..n], SquaredDevOf()), t, Sum(pairs[..n], TiltedDev(bin, tilt)), n as real,
                   tilt(bin(p.conf)), p.conf - Truth(p.correct));
    }
  }

  lemma {:induction false} TiltStep(s: real, d: real, t: real)
    requires s == 1.0 || s == -1.0
    ensures Square(d) - 2.0 * t * (s * d) + t * t >= 0.0
  {
    var e := s * d - t;
    SquareIsPositive(e);
    assert Square(e) == Square(d) - 2.0 * t * (s * d) + t * t;
  }

  /** `n * x`, `n * y` and `n * n` cancelled in one place. */
  lemma {:induction false} Cancelled(n: real, d: real, spread: real, e: real, c: real, q: real)
    requires n > 0.0 && Times(n, e, spread) && AtMostTimes(spread, c, n) && Abs(d) <= spread
    requires SquareGap(q, e, spread, n)
    ensures Abs(d / n) <= e <= c && Square(e) <= q / n
  {
    MeanBelow(n, e, c, spread);
    MeanAbove(n, d, e, spread);
    SquareBelow(n, e, spread, q);
  }

  lemma {:induction false} MeanBelow(n: real, e: real, c: real, spread: real)
    requires n > 0.0 && Times(n, e, spread) && AtMostTimes(spread, c, n)
    ensures e <= c
  {
    CancelScale(n, e, c);
  }

  lemma {:induction false} MeanAbove(n: real, d: real, e: real, spread: real)
    requires n > 0.0 && Times(n, e, spread) && Abs(d) <= spread
    ensures Abs(d / n) <= e
  {
    var m := d / n;
    assert m * n == d;
    AbsTimes(m, n);
    CancelScale(n, Abs(m), e);
  }

  lemma {:induction false} SquareBelow(n: real, e: real, spread: real, q: real)
    requires n > 0.0 && Times(n, e, spread) && SquareGap(q, e, spread, n)
    ensures Square(e) <= q / n
  {
    var s := Square(e);
    SpreadSquared(n, e, spread, q);
    DivideMono(s * n, q, n);
    CancelDivide(s, n);
  }

  lemma {:induction false} SpreadSquared(n: real, e: real, spread: real, q: real)
    requires Times(n, e, spread) && SquareGap(q, e, spread, n)
    ensures Square(e) * n <= q
  {
    assert e * spread == n * (e * e);
  }

  lemma {:induction false} MceBelowOne(pairs: seq<Pair>, edges: seq<real>, minBin: nat)
    requires |edges| >= 2 && pairs != [] && InUnit(pairs)
    ensures var c := Mce(Table(pairs, edges, minBin)); c.Some? && c.value <= 1.0
  {
    var rows := Table(pairs, edges, minBin);
    MceIsLargestGap(rows);
    Occupied(pairs, edges, 0);
    assert rows[Assign(pairs[0].conf, edges)].stats.Some?;
    var j :| 0 <= j < |rows| && rows[j].stats.Some? && rows[j].stats.value.absGap == Mce(rows).value;
    MembersSums(pairs, edges, j);
    GapInUnit(Members(pairs, edges, j));
  }

  lemma {:induction false} SpreadBelowMce(pairs: seq<Pair>, edges: seq<real>, minBin: nat, c: real)
    requires |edges| >= 2 && Mce(Table(pairs, edges, minBin)) == Some(c)
    ensures AtMostTimes(Spread(pairs, BinOf(edges), |edges| - 1), c, |pairs| as real)
  {
    MceIsLargestGap(Table(pairs, edges, minBin));
    SpreadBelow(pairs, edges, minBin, c);
  }

  lemma {:induction false} SquaredTilt(pairs: seq<Pair>, bin: real -> nat, k: nat, e: real)
    requires Within(pairs, bin, k)
    ensures SquareGap(Sum(pairs, SquaredDevOf()), e, Spread(pairs, bin, k), |pairs| as real)
  {
    SignsAttain(pairs, bin, k);
    SquaredTiltAt(pairs, bin, SignOf(pairs, bin), e);
  }

  lemma {:induction false} ChainAt(pairs: seq<Pair>, edges: seq<real>, minBin: nat, n: real, e: real, c: real)
    requires |edges| >= 2 && pairs != [] && n == |pairs| as real
    requires Ece(Table(pairs, edges, minBin), |pairs|) == Some(e) && Mce(Table(pairs, edges, minBin)) == Some(c)
    ensures Abs(Sum(pairs, DevOf()) / n) <= e <= c && Square(e) <= Sum(pairs, SquaredDevOf()) / n
  {
    var k := |edges| - 1;
    var spread := Spread(pairs, BinOf(edges), k);
    AssignInRange(pairs, edges);
    EceIsSpread(pairs, edges, minBin);
    SpreadBelowMce(pairs, edges, minBin, c);
    SpreadAboveTotal(pairs, BinOf(edges), k);
    SquaredTilt(pairs, BinOf(edges), k, e);
    Cancelled(n, Sum(pairs, DevOf()), spread, e, c, Sum(pairs, SquaredDevOf()));
  }

  ghost predicate Chained(m: Option<Metrics>) {
    match m
    case Some(Metrics(_, _, overconfidence, Some(ece), Some(mce), brier)) =>
      Abs(overconfidence) <= ece <= mce <= 1.0 && Square(ece) <= brier <= 1.0
    case _ => false
  }

  /** For every strategy: |overconfidence| <= ECE <= MCE <= 1, and ECE squared is at most the Brier score, which
      is at most 1. */
  lemma {:induction false} MetricChain(pairs: seq<Pair>, strategy: Strategy, nBins: nat, minBin: nat)
    requires pairs != [] && InUnit(pairs) && nBins > 0
    ensures Chained(TopMetrics(pairs, strategy, nBins, minBin))
  {
    EdgesSuffice(strategy, nBins, Confidences(pairs));
    MceBelowOne(pairs, MakeEdges(strategy, nBins, Confidences(pairs)), minBin);
    ChainOf(pairs, MakeEdges(strategy, nBins, Confidences(pairs)), minBin, TopMetrics(pairs, strategy, nBins, minBin).value);
  }

  lemma {:induction false} ChainOf(pairs: seq<Pair>, edges: seq<real>, minBin: nat, m: Metrics)
    requires |edges| >= 2 && pairs != [] && InUnit(pairs)
    requires m.overconfidence == Sum(pairs, ConfOf()) / (|pairs| as real) - Sum(pairs, TruthOf()) / (|pairs| as real)
    requires m.brier == Sum(pairs, SquaredDevOf()) / (|pairs| as real)
    requires m.ece == Ece(Table(pairs, edges, minBin), |pairs|) && m.mce == Mce(Table(pairs, edges, minBin))
    requires m.ece.Some? && m.mce.Some? && m.mce.value <= 1.0
    ensures Chained(Some(m))
  {
    DevSums(pairs);
    DivideDifference(Sum(pairs, ConfOf()), Sum(pairs, TruthOf()), |pairs| as real);
    ChainAt(pairs, edges, minBin, |pairs| as real, m.ece.value, m.mce.value);
    SquaresBelow(pairs);
    UnitQuotient(Sum(pairs, SquaredDevOf()), |pairs| as real);
  }

  lemma {:induction false} UnitSquare(d: real)
    requires -1.0 <= d <= 1.0
    ensures 0.0 <= Square(d) <= 1.0
  {
    SquareIsPositive(d);
    NonNegProduct(1.0 - d, 1.0 + d);
  }

  lemma {:induction false} SquaresBelow(pairs: seq<Pair>)
    requires InUnit(pairs)
    ensures 0.0 <= Sum(pairs, SquaredDevOf()) <= |pairs| as real
  {
    if pairs != [] {
      var n := |pairs| - 1;
      assert pairs[n] in pairs && forall p :: p in pairs[..n] ==> p in pairs;
      SquaresBelow(pairs[..n]);
      UnitSquare(pairs[n].conf - Truth(pairs[n].correct));
    }
  }

  function CorrectOnes(pairs: seq<Pair>): nat {
    if pairs == [] then 0 else CorrectOnes(pairs[..|pairs| - 1]) + if pairs[|pairs| - 1].correct then 1 else 0
  }

  lemma {:induction false} TruthCounts(pairs: seq<Pair>)
    ensures Sum(pairs, TruthOf()) == CorrectOnes(pairs) as real
  {
    if pairs != [] { TruthCounts(pairs[..|pairs| - 1]); }
  }

  lemma {:induction false} GapOfMeans(a: real, b: real, n: real)
    requires n > 0.0
    ensures Times(n, a / n, a) && Times(n, a / n - b / n, a - b)
  {
    DivideDifference(a, b, n);
    assert n * (a / n) == a;
    assert n * ((a - b) / n) == a - b;
  }

  /** Every scalar is the mean it is named after: of the correct predictions, the confidences, the
      deviations and the squared deviations. There are none without observations. */
  ghost predicate Means(m: Option<Metrics>, pairs: seq<Pair>) {
    match m
    case None => pairs == []
    case Some(Metrics(accuracy, confidence, overconfidence, _, _, brier)) =>
      var n := |pairs| as real;
      && pairs != []
      && Times(n, accuracy, CorrectOnes(pairs) as real)
      && Times(n, confidence, Sum(pairs, ConfOf()))
      && Times(n, overconfidence, Sum(pairs, DevOf()))
      && Times(n, brier, Sum(pairs, SquaredDevOf()))
  }

  lemma {:induction false} MeanTimes(a: real, n: real)
    requires n > 0.0
    ensures Times(n, a / n, a)
  {
  }

  lemma {:induction false} MeansOfSums(pairs: seq<Pair>, m: Metrics)
    requires pairs != []
    requires m.accuracy == Sum(pairs, TruthOf()) / (|pairs| as real) && m.confidence == Sum(pairs, ConfOf()) / (|pairs| as real)
    requires m.overconfidence == m.confidence - m.accuracy && m.brier == Sum(pairs, SquaredDevOf()) / (|pairs| as real)
    ensures Means(Some(m), pairs)
  {
    var n := |pairs| as real;
    TruthCounts(pairs);
    DevSums(pairs);
    MeanTimes(Sum(pairs, TruthOf()), n);
    MeanTimes(Sum(pairs, ConfOf()), n);
    GapOfMeans(Sum(pairs, ConfOf()), Sum(pairs, TruthOf()), n);
    MeanTimes(Sum(pairs, SquaredDevOf()), n);
  }

  lemma {:induction false} MetricsAreMeans(pairs: seq<Pair>, strategy: Strategy, nBins: nat, minBin: nat)
    requires nBins > 0
    ensures Means(TopMetrics(pairs, strategy, nBins, minBin), pairs)
  {
    if pairs != [] { MeansOfSums(pairs, TopMetrics(pairs, strategy, nBins, minBin).value); }
  }

  /** ECE and MCE are read from the table whose edges the strategy makes: the mean over observations of
      each bin's absolute deviation, and the largest gap of an occupied bin. */
  lemma {:induction false} ErrorsReadTheTable(pairs: seq<Pair>, strategy: Strategy, nBins: nat, minBin: nat)
    requires pairs != [] && nBins > 0
    ensures var edges := MakeEdges(strategy, nBins, Confidences(pairs));
            var m := TopMetrics(pairs, strategy, nBins, minBin);
            && |edges| >= 2 && m.Some? && m.value.ece.Some?
            && Times(|pairs| as real, m.value.ece.value, Spread(pairs, BinOf(edges), |edges| - 1))
            && m.value.mce.Some? && LargestGap(Table(pairs, edges, minBin), m.value.mce.value)
  {
    EdgesSuffice(strategy, nBins, Confidences(pairs));
    var edges := MakeEdges(strategy, nBins, Confidences(pairs));
    EceIsSpread(pairs, edges, minBin);
    MceIsLargestGap(Table(pairs, edges, minBin));
    Occupied(pairs, edges, 0);
    assert Table(pairs, edges, minBin)[Assign(pairs[0].conf, edges)].stats.Some?;
  }

  ghost predicate LargestGap(rows: seq<Row>, c: real) {
    && (forall j :: 0 <= j < |rows| && rows[j].stats.Some? ==> rows[j].stats.value.absGap <= c)
    && (exists j :: 0 <= j < |rows| && rows[j].stats.Some? && rows[j].stats.value.absGap == c)
  }

  // Rows ------------------------------------------------------------------------------------------

  /** What an observation contributes to bin `j`. */
  ghost function OnlyIn(f: Pair -> real, edges: seq<real>, j: nat): Pair -> real
    requires |edges| >= 2
  {
    (p: Pair) => if Assign(p.conf, edges) == j then f(p) else 0.0
  }

  lemma {:induction false} SumWithin(pairs: seq<Pair>, edges: seq<real>, j: nat, f: Pair -> real)
    requires |edges| >= 2
    ensures Sum(Members(pairs, edges, j), f) == Sum(pairs, OnlyIn(f, edges, j))
  {
    if pairs != [] {
      var n := |pairs| - 1;
      var m := Members(pairs[..n], edges, j);
      SumWithin(pairs[..n], edges, j, f);
      if Assign(pairs[n].conf, edges) == j {
        assert (m + [pairs[n]])[..|m|] == m;
      } else {
        assert m + [] == m;
      }
    }
  }

  /** What row `j` reports: its interval, closed above only in the last bin, the number of its
      observations with how far they carry, and their mean confidence and accuracy and the gap between. */
  lemma {:induction false} RowReports(pairs: seq<Pair>, edges: seq<real>, minBin: nat, j: nat)
    requires |edges| >= 2 && j + 1 < |edges|
    ensures var r := Table(pairs, edges, minBin)[j];
            && r.index == j && r.lower == edges[j] && r.upper == edges[j + 1]
            && (r.upperClosed <==> j + 2 == |edges|)
            && r.count as real == Sum(pairs, InBinOf(edges, j))
            && (r.evidence == Empty <==> r.count == 0) && (r.evidence == SingleObservation <==> r.count == 1)
            && (r.evidence == Sparse <==> 2 <= r.count < minBin)
            && (r.stats.None? <==> r.count == 0)
            && (r.stats.Some? ==>
                  && Times(r.count as real, r.stats.value.confidence, Sum(pairs, OnlyIn(ConfOf(), edges, j)))
                  && Times(r.count as real, r.stats.value.accuracy, Sum(pairs, OnlyIn(TruthOf(), edges, j)))
                  && r.stats.value.gap == r.stats.value.confidence - r.stats.value.accuracy
                  && r.stats.value.absGap == Abs(r.stats.value.gap))
  {
    var m := Members(pairs, edges, j);
    MembersSums(pairs, edges, j);
    SumWithin(pairs, edges, j, ConfOf());
    SumWithin(pairs, edges, j, TruthOf());
    if m != [] {
      GapOfMeans(Sum(m, ConfOf()), Sum(m, TruthOf()), |m| as real);
      GapOfMeans(Sum(m, TruthOf()), 0.0, |m| as real);
    }
  }

  lemma {:induction false} Occupied(pairs: seq<Pair>, edges: seq<real>, i: nat)
    requires |edges| >= 2 && i < |pairs|
    ensures pairs[i] in Members(pairs, edges, Assign(pairs[i].conf, edges))
  {
    var n := |pairs| - 1;
    if i < n { Occupied(pairs[..n], edges, i); }
  }
}
