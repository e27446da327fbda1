/** Why the pooled means are the least-squares monotone fit. */
module LeastSquares {
  import opened Sorting
  import opened Sums
  import opened Isotonic

  /** A candidate calibration: a function of the confidence that never falls. */
  ghost predicate Monotone(g: real -> real) {
    forall x, y :: x <= y ==> g(x) <= g(y)
  }

  function ErrorOf(g: real -> real): Pair -> real {
    (p: Pair) => Square(g(p.conf) - Truth(p.correct))
  }

  function GapOf(f: real -> real, g: real -> real): Pair -> real {
    (p: Pair) => Square(f(p.conf) - g(p.conf))
  }

  /** Squared error of `g` against the outcomes. */
  function SquaredError(pairs: seq<Pair>, g: real -> real): real { Sum(pairs, ErrorOf(g)) }

  function Distance(pairs: seq<Pair>, f: real -> real, g: real -> real): real { Sum(pairs, GapOf(f, g)) }

  // The same sums over pooled points ----------------------------------------------------------

  function PointError(p: Point, v: real): real { p.weight * Square(v) - 2.0 * (p.hits * v) + p.hits }

  function PointGap(p: Point, u: real, v: real): real { p.weight * Square(u - v) }

  function PointLean(p: Point, v: real, m: real): real { (v - m) * (p.hits - m * p.weight) }

  function PooledErrorOf(g: real -> real): Point -> real { (p: Point) => PointError(p, g(p.x)) }

  function PooledGapOf(f: real -> real, g: real -> real): Point -> real {
    (p: Point) => PointGap(p, f(p.x), g(p.x))
  }

  function LeanOf(g: real -> real, m: real): Point -> real { (p: Point) => PointLean(p, g(p.x), m) }

  // One block -----------------------------------------------------------------------------------

  ghost function Dot(v: seq<real>, a: seq<real>, j: nat): real
    requires j <= |v| == |a|
  {
    if j == 0 then 0.0 else Dot(v, a, j - 1) + v[j - 1] * a[j - 1]
  }

  lemma {:induction false} ScaleUp(sum: real, low: real, high: real, e: real, a: real)
    requires sum <= low * e && low <= high && e >= 0.0
    ensures sum + high * a <= high * (e + a)
  {
    assert (high - low) * e >= 0.0;
  }

  /** Summation by parts: non-negative prefix sums `e` of `a` pull against every non-decreasing `v`. */
  lemma {:induction false} SummationByParts(v: seq<real>, a: seq<real>, e: seq<real>, j: nat)
    requires |v| == |a| && |e| == |a| + 1 && 0 < j <= |a|
    requires NonDecreasing(v) && e[0] == 0.0
    requires forall i :: 0 < i <= |a| ==> e[i] == e[i - 1] + a[i - 1]
    requires forall i :: 0 <= i <= |a| ==> e[i] >= 0.0
    ensures Dot(v, a, j) <= v[j - 1] * e[j]
  {
    var i := j - 1;
    assert e[j] == e[i] + a[i];
    if i > 0 {
      SummationByParts(v, a, e, i);
      ScaleUp(Dot(v, a, i), v[i - 1], v[i], e[i], a[i]);
    } else {
      assert Dot(v, a, 0) == 0.0;
    }
  }

  ghost function Residuals(ps: seq<Point>, m: real): seq<real> {
    seq(|ps|, i requires 0 <= i < |ps| => ps[i].hits - m * ps[i].weight)
  }

  ghost function Lifts(ps: seq<Point>, g: real -> real, m: real): seq<real> {
    seq(|ps|, i requires 0 <= i < |ps| => g(ps[i].x) - m)
  }

  lemma {:induction false} LeanIsDot(ps: seq<Point>, g: real -> real, m: real, j: nat)
    requires j <= |ps|
    ensures Sum(ps[..j], LeanOf(g, m)) == Dot(Lifts(ps, g, m), Residuals(ps, m), j)
  {
    if j > 0 {
      LeanIsDot(ps, g, m, j - 1);
      assert ps[..j][..j - 1] == ps[..j - 1];
      assert Lifts(ps, g, m)[j - 1] * Residuals(ps, m)[j - 1] == PointLean(ps[j - 1], g(ps[j - 1].x), m);
    }
  }

  lemma {:induction false} ExcessStep(ps: seq<Point>, j: nat, m: real)
    requires j < |ps|
    ensures Excess(ps, j + 1, m) == Excess(ps, j, m) + Residuals(ps, m)[j]
  {
    assert ps[..j + 1][..j] == ps[..j];
  }

  lemma {:induction false} ExcessInBlock(b: Block, ps: seq<Point>, i: nat)
    requires IsBlock(b, ps) && i <= |ps|
    ensures Excess(ps, i, Mean(b)) >= 0.0
    ensures i == 0 || i == |ps| ==> Excess(ps, i, Mean(b)) == 0.0
  {
    MeanTimesCount(b);
    if i == 0 {
      assert ps[..i] == [];
    } else if i == |ps| {
      assert ps[..i] == ps;
    }
  }

  lemma {:induction false} Excesses(b: Block, ps: seq<Point>) returns (e: seq<real>)
    requires IsBlock(b, ps)
    ensures |e| == |ps| + 1 && e[0] == 0.0 && e[|ps|] == 0.0
    ensures forall i :: 0 < i <= |ps| ==> e[i] == e[i - 1] + Residuals(ps, Mean(b))[i - 1]
    ensures forall i :: 0 <= i <= |ps| ==> e[i] >= 0.0
  {
    e := [0.0];
    ExcessInBlock(b, ps, 0);
    for k := 0 to |ps|
      invariant |e| == k + 1 && e[0] == 0.0 && e[k] == Excess(ps, k, Mean(b))
      invariant forall i :: 0 < i <= k ==> e[i] == e[i - 1] + Residuals(ps, Mean(b))[i - 1]
      invariant forall i :: 0 <= i <= k ==> e[i] >= 0.0
    {
      ExcessStep(ps, k, Mean(b));
      ExcessInBlock(b, ps, k + 1);
      e := e + [Excess(ps, k + 1, Mean(b))];
    }
    ExcessInBlock(b, ps, |ps|);
  }

  /** Within a block every non-decreasing `g` leans against the residuals. */
  lemma {:induction false} BlockLeans(b: Block, ps: seq<Point>, g: real -> real)
    requires IsBlock(b, ps) && Monotone(g)
    ensures Sum(ps, LeanOf(g, Mean(b))) <= 0.0
  {
    var e := Excesses(b, ps);
    var n := |ps|;
    SummationByParts(Lifts(ps, g, Mean(b)), Residuals(ps, Mean(b)), e, n);
    LeanIsDot(ps, g, Mean(b), n);
    assert ps[..n] == ps;
  }

  /** Completing the square around the level `m`. */
  lemma {:induction false} CompleteSquare(p: Point, v: real, m: real)
    ensures PointError(p, v) == PointError(p, m) + PointGap(p, m, v) - 2.0 * PointLean(p, v, m)
  {
    var w, h, d := p.weight, p.hits, v - m;
    ErrorAround(w, m, d);
    GapAround(w, m, d);
    LeanAround(w, h, m, d);
    assert h * v == h * m + h * d;
  }

  lemma {:induction false} ErrorAround(w: real, m: real, d: real)
    ensures w * Square(m + d) == w * Square(m) + 2.0 * (w * (m * d)) + w * Square(d)
  {
    SquareOfSum(m, d);
    ScaleThree(w, Square(m), m * d, Square(d));
  }

  lemma {:induction false} SquareOfSum(m: real, d: real)
    ensures Square(m + d) == Square(m) + 2.0 * (m * d) + Square(d)
  {
  }

  lemma {:induction false} ScaleThree(w: real, x: real, y: real, z: real)
    ensures w * (x + 2.0 * y + z) == w * x + 2.0 * (w * y) + w * z
  {
  }

  lemma {:induction false} GapAround(w: real, m: real, d: real)
    ensures w * Square(m - (m + d)) == w * Square(d)
  {
    assert Square(m - (m + d)) == Square(d);
  }

  lemma {:induction false} LeanAround(w: real, h: real, m: real, d: real)
    ensures d * (h - m * w) == h * d - w * (m * d)
  {
  }

  lemma {:induction false} PointIdentity(p: Point, f: real -> real, g: real -> real, m: real)
    requires f(p.x) == m
    ensures PooledErrorOf(g)(p) == PooledErrorOf(f)(p) + PooledGapOf(f, g)(p) - 2.0 * LeanOf(g, m)(p)
  {
    CompleteSquare(p, g(p.x), m);
  }

  ghost predicate Level(f: real -> real, ps: seq<Point>, m: real) {
    forall i :: 0 <= i < |ps| ==> f(ps[i].x) == m
  }

  lemma {:induction false} BlockIdentity(ps: seq<Point>, f: real -> real, g: real -> real, m: real)
    requires Level(f, ps, m)
    ensures Sum(ps, PooledErrorOf(g)) ==
            Sum(ps, PooledErrorOf(f)) + Sum(ps, PooledGapOf(f, g)) - 2.0 * Sum(ps, LeanOf(g, m))
  {
    if ps != [] {
      BlockIdentity(ps[..|ps| - 1], f, g, m);
      PointIdentity(ps[|ps| - 1], f, g, m);
    }
  }

  /** On one block the block mean beats every non-decreasing candidate. */
  lemma {:induction false} BlockOptimal(b: Block, ps: seq<Point>, f: real -> real, g: real -> real)
    requires IsBlock(b, ps) && Level(f, ps, Mean(b)) && Monotone(g)
    ensures Sum(ps, PooledErrorOf(g)) >= Sum(ps, PooledErrorOf(f)) + Sum(ps, PooledGapOf(f, g))
  {
    BlockLeans(b, ps, g);
    BlockIdentity(ps, f, g, Mean(b));
  }

  // All blocks -------------------------------------------------------------------------------

  ghost predicate Fits(f: real -> real, blocks: seq<Block>, groups: seq<seq<Point>>) {
    && |blocks| == |groups|
    && forall k :: 0 <= k < |blocks| ==> IsBlock(blocks[k], groups[k]) && Level(f, groups[k], Mean(blocks[k]))
  }

  lemma {:induction false} PoolingOptimal(blocks: seq<Block>, groups: seq<seq<Point>>, f: real -> real, g: real -> real)
    requires Fits(f, blocks, groups) && Monotone(g)
    ensures var pts := Flatten(groups);
            Sum(pts, PooledErrorOf(g)) >= Sum(pts, PooledErrorOf(f)) + Sum(pts, PooledGapOf(f, g))
  {
    if groups != [] {
      var n := |groups| - 1;
      var init := Flatten(groups[..n]);
      SumAppend(init, groups[n], PooledErrorOf(g));
      SumAppend(init, groups[n], PooledErrorOf(f));
      SumAppend(init, groups[n], PooledGapOf(f, g));
      PoolingOptimal(blocks[..n], groups[..n], f, g);
      BlockOptimal(blocks[n], groups[n], f, g);
    }
  }

  // Back to the observations --------------------------------------------------------------------

  /** One more observation at confidence `c` changes only the point at `c`. */
  lemma {:induction false} PointStep(init: seq<Pair>, p: Pair, f: real -> real, g: real -> real, x: real)
    ensures var a := Point(x, HitsAt(init, x), WeightAt(init, x));
            var b := Point(x, HitsAt(init + [p], x), WeightAt(init + [p], x));
            && PooledErrorOf(g)(b) == PooledErrorOf(g)(a) + (if p.conf == x then ErrorOf(g)(p) else 0.0)
            && PooledGapOf(f, g)(b) == PooledGapOf(f, g)(a) + (if p.conf == x then GapOf(f, g)(p) else 0.0)
  {
    assert (init + [p])[..|init|] == init;
    if p.conf == x {
      var v, t, w := g(x), Truth(p.correct), WeightAt(init, x);
      assert Square(v - t) == Square(v) - 2.0 * t * v + t;
      assert (w + 1.0) * Square(v) == w * Square(v) + Square(v);
      assert (w + 1.0) * Square(f(x) - v) == w * Square(f(x) - v) + Square(f(x) - v);
    }
  }

  lemma {:induction false} AddPair(init: seq<Pair>, p: Pair, xs: seq<real>, f: real -> real, g: real -> real)
    requires Increasing(xs)
    ensures Sum(PointsOver(init + [p], xs), PooledErrorOf(g)) ==
            Sum(PointsOver(init, xs), PooledErrorOf(g)) + (if p.conf in xs then ErrorOf(g)(p) else 0.0)
    ensures Sum(PointsOver(init + [p], xs), PooledGapOf(f, g)) ==
            Sum(PointsOver(init, xs), PooledGapOf(f, g)) + (if p.conf in xs then GapOf(f, g)(p) else 0.0)
  {
    if xs != [] {
      var n := |xs| - 1;
      AddPair(init, p, xs[..n], f, g);
      assert xs == xs[..n] + [xs[n]];
      assert PointsOver(init, xs)[..n] == PointsOver(init, xs[..n]);
      assert PointsOver(init + [p], xs)[..n] == PointsOver(init + [p], xs[..n]);
      PointStep(init, p, f, g, xs[n]);
      assert p.conf == xs[n] ==> p.conf !in xs[..n];
    }
  }

  lemma {:induction false} EmptyPairs(xs: seq<real>, f: real -> real, g: real -> real)
    ensures Sum(PointsOver([], xs), PooledErrorOf(g)) == 0.0
    ensures Sum(PointsOver([], xs), PooledGapOf(f, g)) == 0.0
  {
    if xs != [] {
      var n := |xs| - 1;
      assert PointsOver([], xs)[..n] == PointsOver([], xs[..n]);
      EmptyPairs(xs[..n], f, g);
    }
  }

  lemma {:induction false} PooledIsPairwise(pairs: seq<Pair>, xs: seq<real>, f: real -> real, g: real -> real)
    requires Increasing(xs) && forall p :: p in pairs ==> p.conf in xs
    ensures Sum(PointsOver(pairs, xs), PooledErrorOf(g)) == SquaredError(pairs, g)
    ensures Sum(PointsOver(pairs, xs), PooledGapOf(f, g)) == Distance(pairs, f, g)
  {
    if pairs == [] {
      EmptyPairs(xs, f, g);
    } else {
      var n := |pairs| - 1;
      assert pairs == pairs[..n] + [pairs[n]];
      PooledIsPairwise(pairs[..n], xs, f, g);
      AddPair(pairs[..n], pairs[n], xs, f, g);
    }
  }
}
