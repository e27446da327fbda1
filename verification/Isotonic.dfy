/** Isotonic calibration: pool-adjacent-violators regression of correctness on confidence, and the
    piecewise-linear calibrator read back from its knots. Floats are exact reals. */
module Isotonic {
  import opened Sorting
  import opened Sums

  datatype Pair = Pair(conf: real, correct: bool)

  /** A stack entry: outcome sum, observation count, first and last confidence. */
  datatype Block = Block(sum: real, count: real, lo: real, hi: real)

  datatype Fit = Fit(x: seq<real>, y: seq<real>, nFit: nat, blocks: nat)

  function Truth(correct: bool): real { if correct then 1.0 else 0.0 }

  // Observations pooled by confidence ----------------------------------------------------------

  datatype Point = Point(x: real, hits: real, weight: real)

  function Confs(pairs: seq<Pair>): set<real> { set p | p in pairs :: p.conf }

  function HitsAt(pairs: seq<Pair>, x: real): real {
    if pairs == [] then 0.0
    else
      var p := pairs[|pairs| - 1];
      HitsAt(pairs[..|pairs| - 1], x) + if p.conf == x then Truth(p.correct) else 0.0
  }

  function WeightAt(pairs: seq<Pair>, x: real): real {
    if pairs == [] then 0.0
    else
      var p := pairs[|pairs| - 1];
      WeightAt(pairs[..|pairs| - 1], x) + if p.conf == x then 1.0 else 0.0
  }

  function PointsOver(pairs: seq<Pair>, xs: seq<real>): seq<Point> {
    seq(|xs|, i requires 0 <= i < |xs| => Point(xs[i], HitsAt(pairs, xs[i]), WeightAt(pairs, xs[i])))
  }

  function Points(pairs: seq<Pair>): seq<Point> { PointsOver(pairs, SortedSet(Confs(pairs))) }

  function Hits(ps: seq<Point>): real {
    if ps == [] then 0.0 else Hits(ps[..|ps| - 1]) + ps[|ps| - 1].hits
  }

  function Weight(ps: seq<Point>): real {
    if ps == [] then 0.0 else Weight(ps[..|ps| - 1]) + ps[|ps| - 1].weight
  }

  ghost predicate Weighted(ps: seq<Point>) {
    && (forall i :: 0 <= i < |ps| ==> ps[i].weight > 0.0 && 0.0 <= ps[i].hits <= ps[i].weight)
    && (forall i, j :: 0 <= i < j < |ps| ==> ps[i].x < ps[j].x)
  }

  lemma {:induction false} SumsAppend(a: seq<Point>, b: seq<Point>)
    ensures Hits(a + b) == Hits(a) + Hits(b)
    ensures Weight(a + b) == Weight(a) + Weight(b)
  {
    if b == [] {
      assert a + b == a;
    } else {
      SumsAppend(a, b[..|b| - 1]);
      assert (a + b)[..|a + b| - 1] == a + b[..|b| - 1];
    }
  }

  lemma {:induction false} SumsBounded(ps: seq<Point>)
    requires Weighted(ps)
    ensures 0.0 <= Hits(ps) <= Weight(ps)
    ensures ps != [] ==> Weight(ps) > 0.0
  {
    if ps != [] {
      SumsBounded(ps[..|ps| - 1]);
    }
  }

  lemma {:induction false} AtBounded(pairs: seq<Pair>, x: real)
    ensures 0.0 <= HitsAt(pairs, x) <= WeightAt(pairs, x)
    ensures x in Confs(pairs) ==> WeightAt(pairs, x) > 0.0
  {
    if pairs != [] {
      var n := |pairs| - 1;
      AtBounded(pairs[..n], x);
      assert pairs == pairs[..n] + [pairs[n]];
      assert x in Confs(pairs) && pairs[n].conf != x ==> x in Confs(pairs[..n]);
    }
  }

  lemma {:induction false} PointsAreWeighted(pairs: seq<Pair>)
    ensures Weighted(Points(pairs))
    ensures forall i :: 0 <= i < |Points(pairs)| ==> Points(pairs)[i].x in Confs(pairs)
  {
    var xs := SortedSet(Confs(pairs));
    forall i | 0 <= i < |xs|
      ensures Points(pairs)[i].weight > 0.0 && 0.0 <= Points(pairs)[i].hits <= Points(pairs)[i].weight
    {
      assert xs[i] in xs;
      AtBounded(pairs, xs[i]);
    }
  }

  // Pool adjacent violators -------------------------------------------------------------------

  function Mean(b: Block): real
    requires b.count != 0.0
  {
    b.sum / b.count
  }

  /** `b` summarises the run of points `g`, and every proper prefix of the run has a larger mean
      than the whole: the reason the run had to be pooled. */
  ghost predicate IsBlock(b: Block, g: seq<Point>) {
    && g != []
    && Weighted(g)
    && b.sum == Hits(g) && b.count == Weight(g) && b.count > 0.0
    && b.lo == g[0].x && b.hi == g[|g| - 1].x
    && forall j :: 0 < j < |g| ==> Excess(g, j, Mean(b)) > 0.0
  }

  /** How far the first `j` points lie above the level `m`, in total. */
  ghost function Excess(g: seq<Point>, j: nat, m: real): real
    requires j <= |g|
  {
    Above(Hits(g[..j]), Weight(g[..j]), m)
  }

  ghost function Above(hits: real, weight: real, m: real): real { hits - m * weight }

  ghost function Flatten(groups: seq<seq<Point>>): seq<Point> {
    if groups == [] then [] else Flatten(groups[..|groups| - 1]) + groups[|groups| - 1]
  }

  ghost predicate AreBlocks(pts: seq<Point>, blocks: seq<Block>, groups: seq<seq<Point>>) {
    && |blocks| == |groups|
    && Flatten(groups) == pts
    && forall k :: 0 <= k < |blocks| ==> IsBlock(blocks[k], groups[k])
  }

  ghost predicate Rising(blocks: seq<Block>)
    requires forall k :: 0 <= k < |blocks| ==> blocks[k].count > 0.0
  {
    forall k, l :: 0 <= k < l < |blocks| ==> Mean(blocks[k]) <= Mean(blocks[l])
  }

  /** The final stack: consecutive runs of all the points, with non-decreasing means. */
  ghost predicate IsPooling(pts: seq<Point>, blocks: seq<Block>, groups: seq<seq<Point>>) {
    AreBlocks(pts, blocks, groups) && Rising(blocks)
  }

  function Merge(a: Block, b: Block): Block { Block(a.sum + b.sum, a.count + b.count, a.lo, b.hi) }

  lemma {:induction false} MeanTimesCount(b: Block)
    requires b.count > 0.0
    ensures Mean(b) * b.count == b.sum
  {
  }

  /** The weighted mean of two levels lies strictly between them. */
  lemma {:induction false} MeanBetween(a: Block, b: Block)
    requires a.count > 0.0 && b.count > 0.0 && Mean(a) > Mean(b)
    ensures Mean(b) < Mean(Merge(a, b)) < Mean(a)
  {
    var m := Mean(Merge(a, b));
    var ma, mb := Mean(a), Mean(b);
    MeanTimesCount(a);
    MeanTimesCount(b);
    MeanTimesCount(Merge(a, b));
    var up, down := ma - m, m - mb;
    assert up * a.count == down * b.count;
    ProductSign(up, a.count);
    ProductSign(down, b.count);
  }

  lemma {:induction false} LowerLevel(h: real, w: real, m: real, lower: real)
    requires Above(h, w, m) >= 0.0 && w > 0.0 && lower < m
    ensures Above(h, w, lower) > 0.0
  {
    ProductSign(m - lower, w);
    assert (m - lower) * w == m * w - lower * w;
  }

  lemma {:induction false} MergeExcess(a: Block, ga: seq<Point>, b: Block, gb: seq<Point>, j: nat)
    requires IsBlock(a, ga) && IsBlock(b, gb) && Mean(a) > Mean(b)
    requires 0 < j < |ga| + |gb|
    ensures Excess(ga + gb, j, Mean(Merge(a, b))) > 0.0
  {
    var m := Mean(Merge(a, b));
    MeanBetween(a, b);
    if j <= |ga| {
      assert (ga + gb)[..j] == ga[..j];
      HeadExcess(a, ga, j, m);
    } else {
      var i := j - |ga|;
      assert (ga + gb)[..j] == ga + gb[..i];
      SumsAppend(ga, gb[..i]);
      TailExcess(a, b, gb, i, m);
    }
  }

  /** Below its own mean every prefix of a block, the whole included, lies above the level. */
  lemma {:induction false} HeadExcess(a: Block, ga: seq<Point>, j: nat, m: real)
    requires IsBlock(a, ga) && 0 < j <= |ga| && m < Mean(a)
    ensures Excess(ga, j, m) > 0.0
  {
    assert Weighted(ga[..j]);
    SumsBounded(ga[..j]);
    var h, w := Hits(ga[..j]), Weight(ga[..j]);
    if j == |ga| {
      assert ga[..j] == ga;
      assert Above(h, w, Mean(a)) == 0.0 by { MeanTimesCount(a); }
    } else {
      assert Excess(ga, j, Mean(a)) > 0.0;
    }
    LowerLevel(h, w, Mean(a), m);
  }

  lemma {:induction false} PrefixWeighs(g: seq<Point>, i: nat)
    requires Weighted(g) && i <= |g|
    ensures Weight(g[..i]) <= Weight(g)
  {
    assert g == g[..i] + g[i..];
    SumsAppend(g[..i], g[i..]);
    SumsBounded(g[i..]);
  }

  /** What the first block has to spare at the pooled level covers any prefix of the second. */
  lemma {:induction false} TailExcess(a: Block, b: Block, gb: seq<Point>, i: nat, m: real)
    requires a.count > 0.0 && IsBlock(b, gb) && 0 < i < |gb|
    requires m == Mean(Merge(a, b)) && Mean(b) < m
    ensures Above(a.sum + Hits(gb[..i]), a.count + Weight(gb[..i]), m) > 0.0
  {
    var h, w := Hits(gb[..i]), Weight(gb[..i]);
    assert Above(h, w, Mean(b)) > 0.0 by {
      assert Excess(gb, i, Mean(b)) > 0.0;
    }
    PrefixWeighs(gb, i);
    MeanTimesCount(Merge(a, b));
    MeanTimesCount(b);
    TailArithmetic(a, b, h, w, b.count - w, Mean(b), m);
  }

  lemma {:induction false} TailArithmetic(a: Block, b: Block, h: real, w: real, rest: real, mb: real, m: real)
    requires rest >= 0.0 && b.count == w + rest && mb < m
    requires Above(h, w, mb) > 0.0 && b.sum == mb * b.count && m * (a.count + b.count) == a.sum + b.sum
    ensures Above(a.sum + h, a.count + w, m) > 0.0
  {
    assert a.sum + h - m * (a.count + w) == (h - mb * w) + (m - mb) * rest;
    assert (m - mb) * rest >= 0.0;
  }

  lemma {:induction false} MergeBlocks(a: Block, ga: seq<Point>, b: Block, gb: seq<Point>)
    requires IsBlock(a, ga) && IsBlock(b, gb) && Mean(a) > Mean(b)
    requires Weighted(ga + gb)
    ensures IsBlock(Merge(a, b), ga + gb)
  {
    SumsAppend(ga, gb);
    forall j | 0 < j < |ga + gb| ensures Excess(ga + gb, j, Mean(Merge(a, b))) > 0.0 {
      MergeExcess(a, ga, b, gb, j);
    }
  }

  lemma {:induction false} MergeTop(pts: seq<Point>, blocks: seq<Block>, groups: seq<seq<Point>>)
    returns (blocks': seq<Block>, groups': seq<seq<Point>>)
    requires AreBlocks(pts, blocks, groups) && Weighted(pts) && |blocks| > 1
    requires Mean(blocks[|blocks| - 2]) > Mean(blocks[|blocks| - 1])
    ensures AreBlocks(pts, blocks', groups')
    ensures blocks' == blocks[..|blocks| - 2] + [Merge(blocks[|blocks| - 2], blocks[|blocks| - 1])]
  {
    var n := |blocks| - 2;
    var ga, gb := groups[n], groups[n + 1];
    blocks' := blocks[..n] + [Merge(blocks[n], blocks[n + 1])];
    groups' := groups[..n] + [ga + gb];
    JoinTop(groups);
    MergeBlocks(blocks[n], ga, blocks[n + 1], gb);
  }

  lemma {:induction false} JoinTop(groups: seq<seq<Point>>)
    requires |groups| > 1 && Weighted(Flatten(groups))
    ensures var n := |groups| - 2;
            && Flatten(groups[..n] + [groups[n] + groups[n + 1]]) == Flatten(groups)
            && Weighted(groups[n] + groups[n + 1])
  {
    var n := |groups| - 2;
    var ga, gb, front := groups[n], groups[n + 1], Flatten(groups[..n]);
    var groups' := groups[..n] + [ga + gb];
    assert groups[..n + 1][..n] == groups[..n] && groups'[..n] == groups[..n];
    assert groups[..|groups| - 1] == groups[..n + 1];
    assert Flatten(groups[..n + 1]) == front + ga;
    assert Flatten(groups) == front + ga + gb == front + (ga + gb);
    assert forall i :: 0 <= i < |ga + gb| ==> (ga + gb)[i] == Flatten(groups)[|front| + i];
  }

  lemma {:induction false} PushPoint(pts: seq<Point>, p: Point, blocks: seq<Block>, groups: seq<seq<Point>>)
    requires AreBlocks(pts, blocks, groups) && Weighted(pts + [p])
    ensures AreBlocks(pts + [p], blocks + [Block(p.hits, p.weight, p.x, p.x)], groups + [[p]])
  {
    assert (groups + [[p]])[..|groups|] == groups;
    assert [p][..0] == [];
    assert p == (pts + [p])[|pts|];
    assert Hits([p]) == Hits([p][..0]) + p.hits && Weight([p]) == Weight([p][..0]) + p.weight;
  }

  lemma {:induction false} RisingPush(blocks: seq<Block>)
    requires forall k :: 0 <= k < |blocks| ==> blocks[k].count > 0.0
    requires blocks != [] && Rising(blocks[..|blocks| - 1])
    requires |blocks| > 1 ==> Mean(blocks[|blocks| - 2]) <= Mean(blocks[|blocks| - 1])
    ensures Rising(blocks)
  {
    var n := |blocks| - 1;
    forall k, l | 0 <= k < l < |blocks| ensures Mean(blocks[k]) <= Mean(blocks[l]) {
      assert blocks[k] == blocks[..n][k];
      if l < n {
        assert blocks[l] == blocks[..n][l];
      } else if k < n - 1 {
        assert blocks[n - 1] == blocks[..n][n - 1];
      }
    }
  }

  /** The two nested loops over the block stack. */
  method Pool(pts: seq<Point>) returns (blocks: seq<Block>, ghost groups: seq<seq<Point>>)
    requires Weighted(pts)
    ensures IsPooling(pts, blocks, groups)
    ensures exists runs :: IsPooling(pts, blocks, runs)
  {
    blocks, groups := [], [];
    for i := 0 to |pts|
      invariant IsPooling(pts[..i], blocks, groups)
    {
      var p := pts[i];
      ghost var seen := pts[..i + 1];
      assert seen == pts[..i] + [p];
      PushPoint(pts[..i], p, blocks, groups);
      ghost var below := blocks;
      blocks := blocks + [Block(p.hits, p.weight, p.x, p.x)];
      groups := groups + [[p]];
      assert blocks[..|blocks| - 1] == below;
      while |blocks| > 1 && Mean(blocks[|blocks| - 2]) > Mean(blocks[|blocks| - 1])
        invariant |blocks| >= 1
        invariant AreBlocks(seen, blocks, groups)
        invariant Rising(blocks[..|blocks| - 1])
      {
        var n := |blocks| - 2;
        ghost var below := blocks[..n + 1];
        ghost var blocks', groups' := MergeTop(seen, blocks, groups);
        blocks := blocks[..n] + [Merge(blocks[n], blocks[n + 1])];
        groups := groups';
        assert blocks[..|blocks| - 1] == below[..n];
      }
      RisingPush(blocks);
    }
    assert pts[..|pts|] == pts;
  }
}
