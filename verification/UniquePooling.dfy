/** The block stack does not depend on the order of the merges: it is determined by the points. */
module UniquePooling {
  import opened Sums
  import opened Isotonic

  /** How far the points fall short of the level `m`, in total. */
  ghost function Spare(s: seq<Point>, m: real): real {
    if s == [] then 0.0
    else Spare(s[..|s| - 1], m) + Shortfall(s[|s| - 1], m)
  }

  ghost function Shortfall(p: Point, m: real): real { m * p.weight - p.hits }

  lemma {:induction false} SpareAppend(a: seq<Point>, b: seq<Point>, m: real)
    ensures Spare(a + b, m) == Spare(a, m) + Spare(b, m)
  {
    if b == [] {
      assert a + b == a;
    } else {
      SpareAppend(a, b[..|b| - 1], m);
      assert (a + b)[..|a + b| - 1] == a + b[..|b| - 1];
    }
  }

  lemma {:induction false} SpareIs(s: seq<Point>, m: real)
    ensures Spare(s, m) == m * Weight(s) - Hits(s)
  {
    if s != [] {
      SpareIs(s[..|s| - 1], m);
      var w, x := Weight(s[..|s| - 1]), s[|s| - 1].weight;
      assert m * (w + x) == m * w + m * x;
    }
  }

  lemma {:induction false} SpareMono(s: seq<Point>, low: real, high: real)
    requires Weighted(s) && low <= high
    ensures Spare(s, low) <= Spare(s, high)
    ensures s != [] && low < high ==> Spare(s, low) < Spare(s, high)
  {
    if s != [] {
      SpareMono(s[..|s| - 1], low, high);
      RaisedLevel(s[|s| - 1], low, high);
    }
  }

  lemma {:induction false} RaisedLevel(p: Point, low: real, high: real)
    requires p.weight > 0.0 && low <= high
    ensures Shortfall(p, low) <= Shortfall(p, high) && (low < high ==> Shortfall(p, low) < Shortfall(p, high))
  {
    ProductSign(high - low, p.weight);
    assert (high - low) * p.weight == high * p.weight - low * p.weight;
  }

  /** A run level with `m` all of whose proper suffixes fall short of `m`. */
  ghost predicate IsRun(g: seq<Point>, m: real) {
    && g != [] && Spare(g, m) == 0.0
    && forall k :: 0 < k < |g| ==> Spare(g[k..], m) > 0.0
  }

  ghost predicate Runs(groups: seq<seq<Point>>, ms: seq<real>) {
    && |groups| == |ms|
    && (forall k :: 0 <= k < |groups| ==> IsRun(groups[k], ms[k]))
    && (forall k, l :: 0 <= k < l < |ms| ==> ms[k] <= ms[l])
  }

  lemma {:induction false} BlockIsLevel(b: Block, g: seq<Point>)
    requires IsBlock(b, g)
    ensures Spare(g, Mean(b)) == 0.0
  {
    SpareIs(g, Mean(b));
    MeanTimesCount(b);
  }

  lemma {:induction false} ProperSuffix(b: Block, g: seq<Point>, k: nat)
    requires IsBlock(b, g) && 0 < k < |g|
    ensures Spare(g[k..], Mean(b)) > 0.0
  {
    BlockIsLevel(b, g);
    assert g == g[..k] + g[k..];
    SpareAppend(g[..k], g[k..], Mean(b));
    SpareIs(g[..k], Mean(b));
    assert Excess(g, k, Mean(b)) > 0.0;
  }

  lemma {:induction false} BlockIsRun(b: Block, g: seq<Point>)
    requires IsBlock(b, g)
    ensures IsRun(g, Mean(b))
  {
    BlockIsLevel(b, g);
    forall k | 0 < k < |g| ensures Spare(g[k..], Mean(b)) > 0.0 {
      ProperSuffix(b, g, k);
    }
  }

  lemma {:induction false} Front(groups: seq<seq<Point>>)
    requires groups != [] && Weighted(Flatten(groups))
    ensures var n := |groups| - 1;
            && Flatten(groups) == Flatten(groups[..n]) + groups[n]
            && Weighted(Flatten(groups[..n]))
  {
    var n := |groups| - 1;
    var init := Flatten(groups[..n]);
    assert forall i :: 0 <= i < |init| ==> init[i] == Flatten(groups)[i];
  }

  lemma {:induction false} RunSuffix(g: seq<Point>, m: real, k: nat)
    requires IsRun(g, m) && k <= |g|
    ensures Spare(g[k..], m) >= 0.0
  {
    if k == 0 { assert g[k..] == g; }
  }

  /** No suffix of the points lies above the level of the last run. */
  lemma {:induction false} SuffixBelow(groups: seq<seq<Point>>, ms: seq<real>, k: nat)
    requires groups != [] && Runs(groups, ms) && Weighted(Flatten(groups)) && k < |Flatten(groups)|
    ensures Spare(Flatten(groups)[k..], ms[|ms| - 1]) >= 0.0
    decreases |groups|
  {
    var n := |groups| - 1;
    var init, top := Flatten(groups[..n]), groups[n];
    Front(groups);
    if k >= |init| {
      RunSuffix(top, ms[n], k - |init|);
      assert Flatten(groups)[k..] == top[k - |init|..];
    } else {
      assert groups[..n] != [];
      SuffixBelow(groups[..n], ms[..n], k);
      var s := init[k..];
      assert Flatten(groups)[k..] == s + top;
      SpareAppend(s, top, ms[n]);
      SpareMono(s, ms[n - 1], ms[n]);
    }
  }

  /** A longer run `g` ending in the run `top` cannot fit below a stack topped by `top`. */
  lemma {:induction false} SuffixRuns(top: seq<Point>, m: real, g: seq<Point>, m': real)
    requires IsRun(top, m) && IsRun(g, m') && Weighted(g) && |top| < |g| && g[|g| - |top|..] == top
    ensures Spare(g, m) < 0.0
  {
    assert Weighted(top) by {
      assert forall i :: 0 <= i < |top| ==> top[i] == g[|g| - |top| + i];
    }
    assert Spare(top, m') > 0.0;
    if m >= m' {
      SpareMono(top, m', m);
    }
    SpareMono(g, m, m');
  }

  /** The last run of one partition is never a proper suffix of a run of another. */
  lemma {:induction false} LastRunsAgree(init: seq<Point>, top: seq<Point>, m: real, g: seq<Point>, m': real)
    requires Weighted(init + top) && IsRun(top, m) && IsRun(g, m') && Spare(g, m) >= 0.0
    requires |g| <= |init + top| && (init + top)[|init + top| - |g|..] == g
    ensures |g| <= |top|
  {
    var pts := init + top;
    if |g| > |top| {
      assert Weighted(g) by {
        assert forall i :: 0 <= i < |g| ==> g[i] == pts[|pts| - |g| + i];
      }
      assert g[|g| - |top|..] == top;
      SuffixRuns(top, m, g, m');
    }
  }

  lemma {:induction false} LastRunsEqual(groups: seq<seq<Point>>, ms: seq<real>, groups': seq<seq<Point>>, ms': seq<real>)
    requires groups != [] && groups' != [] && Flatten(groups) == Flatten(groups') && Weighted(Flatten(groups))
    requires Runs(groups, ms) && Runs(groups', ms')
    ensures groups[|groups| - 1] == groups'[|groups'| - 1]
    ensures Flatten(groups[..|groups| - 1]) == Flatten(groups'[..|groups'| - 1])
  {
    var pts, n, n' := Flatten(groups), |groups| - 1, |groups'| - 1;
    Front(groups);
    Front(groups');
    assert pts[|pts| - |groups[n]|..] == groups[n];
    assert pts[|pts| - |groups'[n']|..] == groups'[n'];
    SuffixBelow(groups, ms, |pts| - |groups'[n']|);
    SuffixBelow(groups', ms', |pts| - |groups[n]|);
    LastRunsAgree(Flatten(groups[..n]), groups[n], ms[n], groups'[n'], ms'[n']);
    LastRunsAgree(Flatten(groups'[..n']), groups'[n'], ms'[n'], groups[n], ms[n]);
    assert Flatten(groups[..n]) == pts[..|pts| - |groups[n]|] == Flatten(groups'[..n']);
  }

  lemma {:induction false} RunsFlatten(groups: seq<seq<Point>>, ms: seq<real>)
    requires Runs(groups, ms)
    ensures groups == [] <==> Flatten(groups) == []
  {
    if groups != [] { assert IsRun(groups[|groups| - 1], ms[|groups| - 1]); }
  }

  lemma {:induction false} RunsAreUnique(groups: seq<seq<Point>>, ms: seq<real>, groups': seq<seq<Point>>, ms': seq<real>)
    requires Flatten(groups) == Flatten(groups') && Weighted(Flatten(groups))
    requires Runs(groups, ms) && Runs(groups', ms')
    ensures groups == groups'
    decreases |groups|
  {
    if groups == [] || groups' == [] {
      RunsFlatten(groups, ms);
      RunsFlatten(groups', ms');
    } else {
      var n, n' := |groups| - 1, |groups'| - 1;
      LastRunsEqual(groups, ms, groups', ms');
      Front(groups);
      RunsAreUnique(groups[..n], ms[..n], groups'[..n'], ms'[..n']);
      assert groups == groups[..n] + [groups[n]] && groups' == groups'[..n'] + [groups'[n']];
    }
  }

  ghost function Levels(blocks: seq<Block>): seq<real>
    requires forall k :: 0 <= k < |blocks| ==> blocks[k].count > 0.0
  {
    seq(|blocks|, k requires 0 <= k < |blocks| => Mean(blocks[k]))
  }

  lemma {:induction false} PoolingHasRuns(pts: seq<Point>, blocks: seq<Block>, groups: seq<seq<Point>>)
    requires IsPooling(pts, blocks, groups)
    ensures Runs(groups, Levels(blocks))
  {
    forall k | 0 <= k < |blocks| ensures IsRun(groups[k], Levels(blocks)[k]) {
      BlockIsRun(blocks[k], groups[k]);
    }
  }

  /** Any two poolings of the same points coincide. */
  lemma {:induction false} PoolingIsUnique(pts: seq<Point>, blocks: seq<Block>, groups: seq<seq<Point>>,
                        blocks': seq<Block>, groups': seq<seq<Point>>)
    requires Weighted(pts) && IsPooling(pts, blocks, groups) && IsPooling(pts, blocks', groups')
    ensures blocks == blocks' && groups == groups'
  {
    PoolingHasRuns(pts, blocks, groups);
    PoolingHasRuns(pts, blocks', groups');
    RunsAreUnique(groups, Levels(blocks), groups', Levels(blocks'));
    forall k | 0 <= k < |blocks| ensures blocks[k] == blocks'[k] {
      assert IsBlock(blocks[k], groups[k]) && IsBlock(blocks'[k], groups[k]);
    }
  }
}
