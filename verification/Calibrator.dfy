/** The fitted calibrator: knots read off the pooled blocks, linear interpolation between them, and
    the guarantees of fitting and then applying it. */
module Calibrator {
  import opened Sorting
  import opened Sums
  import opened Isotonic
  import opened LeastSquares
  import UniquePooling

  datatype Knot = Knot(x: real, y: real)

  /** A block as the calibrator sees it: a confidence range and its level. */
  datatype Step = Step(lo: real, hi: real, level: real)

  function StepOf(b: Block): Step
    requires b.count > 0.0
  {
    Step(b.lo, b.hi, Mean(b))
  }

  function StepKnots(s: Step): seq<Knot> {
    if s.hi != s.lo then [Knot(s.lo, s.level), Knot(s.hi, s.level)] else [Knot(s.lo, s.level)]
  }

  function Knots(steps: seq<Step>): seq<Knot> {
    if steps == [] then [] else Knots(steps[..|steps| - 1]) + StepKnots(steps[|steps| - 1])
  }

  ghost function Steps(blocks: seq<Block>): seq<Step>
    requires forall k :: 0 <= k < |blocks| ==> blocks[k].count > 0.0
  {
    seq(|blocks|, k requires 0 <= k < |blocks| => StepOf(blocks[k]))
  }

  function FitOf(knots: seq<Knot>, nFit: nat, blocks: nat): Fit {
    Fit(seq(|knots|, i requires 0 <= i < |knots| => knots[i].x),
        seq(|knots|, i requires 0 <= i < |knots| => knots[i].y), nFit, blocks)
  }

  /** The fit is the one that some pooling of the observations produces. */
  ghost predicate IsFit(pairs: seq<Pair>, fit: Fit) {
    exists blocks, groups ::
      IsPooling(Points(pairs), blocks, groups) && fit == FitOf(Knots(Steps(blocks)), |pairs|, |blocks|)
  }

  // Shape of the knots --------------------------------------------------------------------------

  /** Steps in order of confidence with levels in the unit interval, none below its predecessor. */
  ghost predicate Staircase(steps: seq<Step>) {
    && (forall k :: 0 <= k < |steps| ==> steps[k].lo <= steps[k].hi && 0.0 <= steps[k].level <= 1.0)
    && (forall k, l :: 0 <= k < l < |steps| ==> steps[k].hi < steps[l].lo && steps[k].level <= steps[l].level)
  }

  ghost predicate KnotsFit(ks: seq<Knot>) {
    && (forall i, j :: 0 <= i < j < |ks| ==> ks[i].x < ks[j].x && ks[i].y <= ks[j].y)
    && (forall i :: 0 <= i < |ks| ==> 0.0 <= ks[i].y <= 1.0)
  }

  lemma {:induction false} KnotsShape(steps: seq<Step>)
    requires Staircase(steps)
    ensures KnotsFit(Knots(steps))
    ensures steps == [] <==> Knots(steps) == []
    ensures steps != [] ==>
              var ks, n := Knots(steps), |steps|;
              && ks[0].x == steps[0].lo
              && ks[|ks| - 1] == Knot(steps[n - 1].hi, steps[n - 1].level)
  {
    if steps != [] {
      var n := |steps| - 1;
      var init := steps[..n];
      KnotsShape(init);
      if init != [] { assert init[n - 1] == steps[n - 1]; }
      AddStep(Knots(init), steps[n]);
    }
  }

  lemma {:induction false} AddStep(ks: seq<Knot>, step: Step)
    requires KnotsFit(ks) && step.lo <= step.hi && 0.0 <= step.level <= 1.0
    requires ks != [] ==> ks[|ks| - 1].x < step.lo && ks[|ks| - 1].y <= step.level
    ensures KnotsFit(ks + StepKnots(step))
  {
    forall i | 0 <= i < |ks| ensures ks[i].x < step.lo && ks[i].y <= step.level {
      assert i == |ks| - 1 || ks[i].x < ks[|ks| - 1].x;
    }
  }

  /** Where step `k` put its knots. */
  lemma {:induction false} KnotIndex(steps: seq<Step>, k: nat) returns (i: nat)
    requires k < |steps|
    ensures i < |Knots(steps)| && Knots(steps)[i] == Knot(steps[k].lo, steps[k].level)
    ensures steps[k].lo != steps[k].hi ==>
              i + 1 < |Knots(steps)| && Knots(steps)[i + 1] == Knot(steps[k].hi, steps[k].level)
  {
    var n := |steps| - 1;
    if k == n {
      i := |Knots(steps[..n])|;
    } else {
      i := KnotIndex(steps[..n], k);
    }
  }

  // Applying the calibrator ---------------------------------------------------------------------

  ghost predicate Usable(fit: Fit) {
    && |fit.x| == |fit.y| > 0
    && Increasing(fit.x) && NonDecreasing(fit.y)
    && forall i :: 0 <= i < |fit.y| ==> 0.0 <= fit.y[i] <= 1.0
  }

  function Line(x0: real, x1: real, y0: real, y1: real, c: real): real
    requires x0 != x1
  {
    y0 + (y1 - y0) * (c - x0) / (x1 - x0)
  }

  function Apply(fit: Fit, conf: real): real
    requires |fit.x| == |fit.y| > 0 && Increasing(fit.x)
  {
    var last := |fit.x| - 1;
    if conf <= fit.x[0] then fit.y[0]
    else if conf >= fit.x[last] then fit.y[last]
    else
      var j := BisectRight(fit.x, conf);
      Line(fit.x[j - 1], fit.x[j], fit.y[j - 1], fit.y[j], conf)
  }

  ghost function Calibrate(fit: Fit): real -> real
    requires Usable(fit)
  {
    (c: real) => Apply(fit, c)
  }

  lemma {:induction false} LineBetween(x0: real, x1: real, y0: real, y1: real, c: real, d: real)
    requires x0 < x1 && y0 <= y1 && x0 <= c <= d <= x1
    ensures y0 <= Line(x0, x1, y0, y1, c) <= Line(x0, x1, y0, y1, d) <= y1
    ensures c == x0 ==> Line(x0, x1, y0, y1, c) == y0
    ensures d == x1 ==> Line(x0, x1, y0, y1, d) == y1
    ensures y0 == y1 ==> Line(x0, x1, y0, y1, c) == y0
  {
    Ratio(y1 - y0, x1 - x0, c - x0, d - x0);
  }

  lemma {:induction false} Ratio(h: real, w: real, a: real, b: real)
    requires h >= 0.0 && w > 0.0 && 0.0 <= a <= b <= w
    ensures 0.0 <= h * a / w <= h * b / w <= h
    ensures a == 0.0 ==> h * a / w == 0.0
    ensures b == w ==> h * b / w == h
  {
    NonNegProduct(h, a);
    NonNegProduct(h, b - a);
    NonNegProduct(h, w - b);
    DivideMono(0.0, h * a, w);
    DivideMono(h * a, h * b, w);
    DivideMono(h * b, h * w, w);
    CancelDivide(h, w);
  }

  /** On a closed segment between two neighbouring knots the calibrator is their line. */
  lemma {:induction false} OnSegment(fit: Fit, j: nat, c: real)
    requires Usable(fit) && 0 < j < |fit.x| && fit.x[j - 1] <= c <= fit.x[j]
    ensures Apply(fit, c) == Line(fit.x[j - 1], fit.x[j], fit.y[j - 1], fit.y[j], c)
  {
    var i := BisectRight(fit.x, c);
    if c == fit.x[j] {
      LineEnds(fit, j);
      if j + 1 < |fit.x| {
        LineEnds(fit, j + 1);
        assert i == j + 1;
      }
    } else {
      assert i == j;
      if c == fit.x[0] { LineEnds(fit, j); }
    }
  }

  /** `(c, a)` lies on the straight line through `(x0, y0)` and `(x1, y1)`. */
  ghost predicate OnLine(x0: real, x1: real, y0: real, y1: real, c: real, a: real) {
    (a - y0) * (x1 - x0) == (y1 - y0) * (c - x0)
  }

  /** Between two neighbouring knots the calibrator interpolates linearly. */
  lemma {:induction false} Interpolates(fit: Fit, j: nat, c: real)
    requires Usable(fit) && 0 < j < |fit.x| && fit.x[j - 1] <= c <= fit.x[j]
    ensures OnLine(fit.x[j - 1], fit.x[j], fit.y[j - 1], fit.y[j], c, Apply(fit, c))
  {
    OnSegment(fit, j, c);
    LineSlope(fit.x[j - 1], fit.x[j], fit.y[j - 1], fit.y[j], c, Apply(fit, c));
  }

  lemma {:induction false} LineSlope(x0: real, x1: real, y0: real, y1: real, c: real, a: real)
    requires x0 < x1 && a == Line(x0, x1, y0, y1, c)
    ensures OnLine(x0, x1, y0, y1, c, a)
  {
  }

  /** Outside the fitted range it keeps its end values. */
  lemma {:induction false} ClipsOutside(fit: Fit, c: real)
    requires Usable(fit)
    ensures c <= fit.x[0] ==> Apply(fit, c) == fit.y[0]
    ensures c >= fit.x[|fit.x| - 1] ==> Apply(fit, c) == fit.y[|fit.y| - 1]
  {
    if |fit.x| > 1 { ApplyAtKnot(fit, |fit.x| - 1); }
  }

  lemma {:induction false} LineEnds(fit: Fit, j: nat)
    requires Usable(fit) && 0 < j < |fit.x|
    ensures Line(fit.x[j - 1], fit.x[j], fit.y[j - 1], fit.y[j], fit.x[j - 1]) == fit.y[j - 1]
    ensures Line(fit.x[j - 1], fit.x[j], fit.y[j - 1], fit.y[j], fit.x[j]) == fit.y[j]
  {
    LineBetween(fit.x[j - 1], fit.x[j], fit.y[j - 1], fit.y[j], fit.x[j - 1], fit.x[j]);
  }

  /** Every confidence is below the first knot, above the last, or on one segment. */
  lemma {:induction false} Locate(fit: Fit, c: real) returns (j: nat)
    requires Usable(fit) && fit.x[0] < c < fit.x[|fit.x| - 1]
    ensures 0 < j < |fit.x| && fit.x[j - 1] <= c < fit.x[j]
  {
    j := BisectRight(fit.x, c);
  }

  lemma {:induction false} ApplyAtKnot(fit: Fit, i: nat)
    requires Usable(fit) && i < |fit.x|
    ensures Apply(fit, fit.x[i]) == fit.y[i]
  {
    if i == 0 {
    } else {
      OnSegment(fit, i, fit.x[i]);
      LineBetween(fit.x[i - 1], fit.x[i], fit.y[i - 1], fit.y[i], fit.x[i], fit.x[i]);
    }
  }

  /** The calibrator stays between its first and last value and never falls. */
  lemma {:induction false} ApplyIsMonotone(fit: Fit, c: real, d: real)
    requires Usable(fit) && c <= d
    ensures fit.y[0] <= Apply(fit, c) <= Apply(fit, d) <= fit.y[|fit.y| - 1]
  {
    var last := |fit.x| - 1;
    ApplyInRange(fit, c);
    ApplyInRange(fit, d);
    if fit.x[0] < c && d < fit.x[last] {
      var i := Locate(fit, c);
      var j := Locate(fit, d);
      OnSegment(fit, i, c);
      OnSegment(fit, j, d);
      assert i <= j;
      if i == j {
        LineBetween(fit.x[i - 1], fit.x[i], fit.y[i - 1], fit.y[i], c, d);
      } else {
        LineBetween(fit.x[i - 1], fit.x[i], fit.y[i - 1], fit.y[i], c, c);
        LineBetween(fit.x[j - 1], fit.x[j], fit.y[j - 1], fit.y[j], d, d);
        assert fit.y[i] <= fit.y[j - 1];
      }
    }
  }

  lemma {:induction false} ApplyInRange(fit: Fit, c: real)
    requires Usable(fit)
    ensures fit.y[0] <= Apply(fit, c) <= fit.y[|fit.y| - 1]
  {
    if fit.x[0] < c < fit.x[|fit.x| - 1] {
      var j := Locate(fit, c);
      OnSegment(fit, j, c);
      LineBetween(fit.x[j - 1], fit.x[j], fit.y[j - 1], fit.y[j], c, c);
    }
  }

  // The fit of a set of observations ----------------------------------------------------------

  ghost predicate PlacedAt(whole: seq<Point>, part: seq<Point>, at: nat) {
    at + |part| <= |whole| && forall i :: 0 <= i < |part| ==> whole[at + i] == part[i]
  }

  lemma {:induction false} GroupPlace(groups: seq<seq<Point>>, k: nat) returns (at: nat)
    requires k < |groups|
    ensures PlacedAt(Flatten(groups), groups[k], at)
  {
    var n := |groups| - 1;
    if k == n {
      at := |Flatten(groups[..n])|;
    } else {
      at := GroupPlace(groups[..n], k);
      forall i | 0 <= i < |groups[k]| ensures Flatten(groups)[at + i] == groups[k][i] {
        assert Flatten(groups)[at + i] == Flatten(groups[..n])[at + i];
      }
    }
  }

  lemma {:induction false} GroupsAscend(groups: seq<seq<Point>>, k: nat, l: nat)
    requires Weighted(Flatten(groups)) && k < l < |groups| && groups[k] != [] && groups[l] != []
    ensures groups[k][|groups[k]| - 1].x < groups[l][0].x
  {
    var n := |groups| - 1;
    var init := Flatten(groups[..n]);
    if l == n {
      var at := GroupPlace(groups[..n], k);
      assert init[at + |groups[k]| - 1] == groups[k][|groups[k]| - 1];
      assert Flatten(groups)[|init|] == groups[l][0];
      assert Flatten(groups)[at + |groups[k]| - 1] == init[at + |groups[k]| - 1];
    } else {
      assert forall i :: 0 <= i < |init| ==> init[i] == Flatten(groups)[i];
      GroupsAscend(groups[..n], k, l);
    }
  }

  lemma {:induction false} MeanInUnit(b: Block)
    requires b.count > 0.0 && 0.0 <= b.sum <= b.count
    ensures 0.0 <= Mean(b) <= 1.0
  {
    DivideMono(0.0, b.sum, b.count);
    DivideMono(b.sum, b.count, b.count);
    CancelDivide(1.0, b.count);
  }

  lemma {:induction false} PoolingIsStaircase(pts: seq<Point>, blocks: seq<Block>, groups: seq<seq<Point>>)
    requires IsPooling(pts, blocks, groups) && Weighted(pts)
    ensures Staircase(Steps(blocks))
  {
    forall k | 0 <= k < |blocks|
      ensures Steps(blocks)[k].lo <= Steps(blocks)[k].hi && 0.0 <= Steps(blocks)[k].level <= 1.0
    {
      SumsBounded(groups[k]);
      MeanInUnit(blocks[k]);
    }
    forall k, l | 0 <= k < l < |blocks|
      ensures Steps(blocks)[k].hi < Steps(blocks)[l].lo && Steps(blocks)[k].level <= Steps(blocks)[l].level
    {
      GroupsAscend(groups, k, l);
    }
  }

  lemma {:induction false} FitIsUsable(pairs: seq<Pair>, fit: Fit)
    requires IsFit(pairs, fit) && pairs != []
    ensures Usable(fit) && fit.nFit == |pairs| && 0 < fit.blocks <= |fit.x|
  {
    var blocks: seq<Block>, groups: seq<seq<Point>> :| IsPooling(Points(pairs), blocks, groups) && fit == FitOf(Knots(Steps(blocks)), |pairs|, |blocks|);
    PointsAreWeighted(pairs);
    PoolingIsStaircase(Points(pairs), blocks, groups);
    assert pairs[0].conf in Confs(pairs);
    assert Points(pairs) != [] && blocks != [];
    StaircaseIsUsable(Steps(blocks), |pairs|);
  }

  lemma {:induction false} StaircaseIsUsable(steps: seq<Step>, nFit: nat)
    requires Staircase(steps) && steps != []
    ensures var fit := FitOf(Knots(steps), nFit, |steps|); Usable(fit) && |steps| <= |fit.x|
  {
    KnotsShape(steps);
    KnotsCount(steps);
  }

  lemma {:induction false} KnotsCount(steps: seq<Step>)
    ensures |steps| <= |Knots(steps)| <= 2 * |steps|
  {
    if steps != [] { KnotsCount(steps[..|steps| - 1]); }
  }

  lemma {:induction false} StepLevel(steps: seq<Step>, fit: Fit, k: nat, x: real)
    requires Usable(fit) && fit == FitOf(Knots(steps), fit.nFit, fit.blocks)
    requires k < |steps| && steps[k].lo <= x <= steps[k].hi
    ensures Apply(fit, x) == steps[k].level
  {
    var step := steps[k];
    var j := KnotIndex(steps, k);
    if step.lo == step.hi {
      ApplyAtKnot(fit, j);
    } else {
      OnSegment(fit, j + 1, x);
      LineBetween(step.lo, step.hi, step.level, step.level, x, x);
    }
  }

  /** At every confidence of the training data the calibrator returns the mean of its block. */
  lemma {:induction false} LevelAtTraining(pairs: seq<Pair>, fit: Fit, blocks: seq<Block>, groups: seq<seq<Point>>)
    requires IsPooling(Points(pairs), blocks, groups) && fit == FitOf(Knots(Steps(blocks)), |pairs|, |blocks|)
    requires Usable(fit)
    ensures Fits(Calibrate(fit), blocks, groups) && fit.blocks == |blocks| && fit.nFit == |pairs|
  {
    forall k | 0 <= k < |blocks| ensures Level(Calibrate(fit), groups[k], Mean(blocks[k])) {
      BlockSpan(blocks[k], groups[k]);
      forall i | 0 <= i < |groups[k]| ensures Calibrate(fit)(groups[k][i].x) == Mean(blocks[k]) {
        StepLevel(Steps(blocks), fit, k, groups[k][i].x);
      }
    }
  }

  lemma {:induction false} BlockSpan(b: Block, g: seq<Point>)
    requires IsBlock(b, g)
    ensures forall i :: 0 <= i < |g| ==> b.lo <= g[i].x <= b.hi
  {
  }

  lemma {:induction false} CalibratorIsMonotone(fit: Fit)
    requires Usable(fit)
    ensures Monotone(Calibrate(fit))
  {
    forall x: real, y: real | x <= y ensures Calibrate(fit)(x) <= Calibrate(fit)(y) {
      ApplyIsMonotone(fit, x, y);
    }
  }

  /** Least squares: no non-decreasing function does better on the observations than the fitted
      calibrator, and any other pays for its whole squared distance from it. */
  lemma {:induction false} IsotonicIsOptimal(pairs: seq<Pair>, fit: Fit, g: real -> real)
    requires IsFit(pairs, fit) && pairs != [] && Monotone(g)
    ensures Usable(fit) && Monotone(Calibrate(fit))
    ensures SquaredError(pairs, g) >= SquaredError(pairs, Calibrate(fit)) + Distance(pairs, Calibrate(fit), g)
  {
    FitIsUsable(pairs, fit);
    CalibratorIsMonotone(fit);
    var f := Calibrate(fit);
    var blocks: seq<Block>, groups: seq<seq<Point>> :|
      IsPooling(Points(pairs), blocks, groups) && fit == FitOf(Knots(Steps(blocks)), |pairs|, |blocks|);
    LevelAtTraining(pairs, fit, blocks, groups);
    PoolingOptimal(blocks, groups, f, g);
    var xs := SortedSet(Confs(pairs));
    PooledIsPairwise(pairs, xs, f, g);
    PooledIsPairwise(pairs, xs, f, f);
  }

  lemma {:induction false} NoDistance(pairs: seq<Pair>, f: real -> real, g: real -> real)
    ensures Distance(pairs, f, g) >= 0.0
    ensures Distance(pairs, f, g) <= 0.0 ==> forall p :: p in pairs ==> f(p.conf) == g(p.conf)
  {
    if pairs != [] {
      var n := |pairs| - 1;
      NoDistance(pairs[..n], f, g);
      SquareIsPositive(f(pairs[n].conf) - g(pairs[n].conf));
      assert pairs == pairs[..n] + [pairs[n]];
    }
  }

  /** The least-squares monotone fit is unique at the training confidences. */
  lemma {:induction false} IsotonicIsUnique(pairs: seq<Pair>, fit: Fit, g: real -> real)
    requires IsFit(pairs, fit) && pairs != [] && Monotone(g) && Usable(fit)
    requires SquaredError(pairs, g) <= SquaredError(pairs, Calibrate(fit))
    ensures forall p :: p in pairs ==> g(p.conf) == Apply(fit, p.conf)
  {
    IsotonicIsOptimal(pairs, fit, g);
    NoDistance(pairs, Calibrate(fit), g);
    forall p | p in pairs ensures g(p.conf) == Apply(fit, p.conf) {
      assert Calibrate(fit)(p.conf) == g(p.conf);
    }
  }

  /** Hence the fit, knots and block count included, is determined by the observations. */
  lemma {:induction false} FitIsDetermined(pairs: seq<Pair>, fit: Fit, fit': Fit)
    requires IsFit(pairs, fit) && IsFit(pairs, fit')
    ensures fit == fit'
  {
    PointsAreWeighted(pairs);
    var b: seq<Block>, g: seq<seq<Point>> :|
      IsPooling(Points(pairs), b, g) && fit == FitOf(Knots(Steps(b)), |pairs|, |b|);
    var b': seq<Block>, g': seq<seq<Point>> :|
      IsPooling(Points(pairs), b', g') && fit' == FitOf(Knots(Steps(b')), |pairs|, |b'|);
    UniquePooling.PoolingIsUnique(Points(pairs), b, g, b', g');
  }

  // The method ----------------------------------------------------------------------------------

  method PoolByConfidence(pairs: seq<Pair>) returns (byX: map<real, (real, real)>)
    ensures byX.Keys == Confs(pairs)
    ensures forall x :: x in byX ==> byX[x] == (HitsAt(pairs, x), WeightAt(pairs, x))
  {
    byX := map[];
    for i := 0 to |pairs|
      invariant byX.Keys == Confs(pairs[..i])
      invariant forall x :: x in byX ==> byX[x] == (HitsAt(pairs[..i], x), WeightAt(pairs[..i], x))
    {
      var p := pairs[i];
      assert pairs[..i + 1][..i] == pairs[..i];
      assert pairs[..i + 1] == pairs[..i] + [p];
      if p.conf !in byX {
        Unseen(pairs[..i], p.conf);
        byX := byX[p.conf := (0.0, 0.0)];
      }
      var s := byX[p.conf];
      byX := byX[p.conf := (s.0 + Truth(p.correct), s.1 + 1.0)];
      assert Confs(pairs[..i + 1]) == Confs(pairs[..i]) + {p.conf};
    }
    assert pairs[..|pairs|] == pairs;
  }

  lemma {:induction false} Unseen(pairs: seq<Pair>, x: real)
    requires x !in Confs(pairs)
    ensures HitsAt(pairs, x) == 0.0 && WeightAt(pairs, x) == 0.0
  {
    if pairs != [] {
      var n := |pairs| - 1;
      assert pairs[n] in pairs && forall p :: p in pairs[..n] ==> p in pairs;
      Unseen(pairs[..n], x);
    }
  }

  method FitIsotonic(pairs: seq<Pair>) returns (fit: Fit)
    ensures IsFit(pairs, fit)
    ensures pairs != [] ==> Usable(fit)
    ensures pairs != [] ==>
              forall g: real -> real :: Monotone(g) ==>
                SquaredError(pairs, g) >= SquaredError(pairs, Calibrate(fit)) + Distance(pairs, Calibrate(fit), g)
  {
    var byX := PoolByConfidence(pairs);
    var xs := SortedSet(byX.Keys);
    assert forall i :: 0 <= i < |xs| ==> xs[i] in xs;
    var pts := seq(|xs|, i requires 0 <= i < |xs| => Point(xs[i], byX[xs[i]].0, byX[xs[i]].1));
    assert pts == Points(pairs);
    PointsAreWeighted(pairs);
    var blocks, groups := Pool(pts);
    var knots := ReadKnots(blocks);
    fit := FitOf(knots, |pairs|, |blocks|);
    assert IsFit(pairs, fit);
    if pairs != [] { FitIsOptimal(pairs, fit); }
  }

  lemma {:induction false} FitIsOptimal(pairs: seq<Pair>, fit: Fit)
    requires IsFit(pairs, fit) && pairs != []
    ensures Usable(fit)
    ensures forall g: real -> real :: Monotone(g) ==>
              SquaredError(pairs, g) >= SquaredError(pairs, Calibrate(fit)) + Distance(pairs, Calibrate(fit), g)
  {
    FitIsUsable(pairs, fit);
    forall g: real -> real | Monotone(g)
      ensures SquaredError(pairs, g) >= SquaredError(pairs, Calibrate(fit)) + Distance(pairs, Calibrate(fit), g)
    {
      IsotonicIsOptimal(pairs, fit, g);
    }
  }

  method ReadKnots(blocks: seq<Block>) returns (knots: seq<Knot>)
    requires forall k :: 0 <= k < |blocks| ==> blocks[k].count > 0.0
    ensures knots == Knots(Steps(blocks))
  {
    knots := [];
    for k := 0 to |blocks|
      invariant knots == Knots(Steps(blocks)[..k])
    {
      knots := knots + StepKnots(StepOf(blocks[k]));
      assert Steps(blocks)[..k + 1][..k] == Steps(blocks)[..k];
    }
    assert Steps(blocks)[..|blocks|] == Steps(blocks);
  }
}
