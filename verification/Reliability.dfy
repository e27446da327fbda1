/** The reliability table of (confidence, correct) pairs and the scalar metrics read from it. */
module Reliability {
  import opened Common
  import opened Sums
  import opened Bins
  import opened Isotonic

  datatype Evidence = Empty | SingleObservation | Sparse | Enough

  datatype Stats = Stats(confidence: real, accuracy: real, gap: real, absGap: real)

  datatype Row = Row(index: nat, lower: real, upper: real, upperClosed: bool, count: nat,
                     evidence: Evidence, stats: Option<Stats>)

  datatype Metrics = Metrics(accuracy: real, confidence: real, overconfidence: real,
                             ece: Option<real>, mce: Option<real>, brier: real)

  function ConfOf(): Pair -> real { (p: Pair) => p.conf }
  function TruthOf(): Pair -> real { (p: Pair) => Truth(p.correct) }
  function DevOf(): Pair -> real { (p: Pair) => p.conf - Truth(p.correct) }
  function SquaredDevOf(): Pair -> real { (p: Pair) => Square(p.conf - Truth(p.correct)) }

  function Members(pairs: seq<Pair>, edges: seq<real>, j: nat): seq<Pair>
    requires |edges| >= 2
  {
    if pairs == [] then []
    else
      var p := pairs[|pairs| - 1];
      Members(pairs[..|pairs| - 1], edges, j) + if Assign(p.conf, edges) == j then [p] else []
  }

  function BinEvidence(count: nat, minBin: nat): Evidence {
    if count == 0 then Empty
    else if count == 1 then SingleObservation
    else if count < minBin then Sparse
    else Enough
  }

  function BinStats(m: seq<Pair>): Option<Stats> {
    if m == [] then None
    else
      var n := |m| as real;
      var conf, acc := Sum(m, ConfOf()) / n, Sum(m, TruthOf()) / n;
      Some(Stats(conf, acc, conf - acc, Abs(conf - acc)))
  }

  function RowOf(j: nat, edges: seq<real>, m: seq<Pair>, minBin: nat): Row
    requires j + 1 < |edges|
  {
    Row(j, edges[j], edges[j + 1], j + 2 == |edges|, |m|, BinEvidence(|m|, minBin), BinStats(m))
  }

  /** One row per bin over the observations whose confidence is assigned to it. */
  function Table(pairs: seq<Pair>, edges: seq<real>, minBin: nat): seq<Row>
    requires |edges| >= 2
  {
    seq(|edges| - 1, j requires 0 <= j < |edges| - 1 => RowOf(j, edges, Members(pairs, edges, j), minBin))
  }

  method Curve(pairs: seq<Pair>, edges: seq<real>, minBin: nat) returns (rows: seq<Row>)
    requires |edges| >= 2
    ensures rows == Table(pairs, edges, minBin)
  {
    var members: seq<seq<Pair>> := seq(|edges| - 1, _ => []);
    for i := 0 to |pairs|
      invariant |members| == |edges| - 1
      invariant forall j :: 0 <= j < |members| ==> members[j] == Members(pairs[..i], edges, j)
    {
      var b := Assign(pairs[i].conf, edges);
      assert pairs[..i + 1][..i] == pairs[..i];
      members := members[b := members[b] + [pairs[i]]];
    }
    assert pairs[..|pairs|] == pairs;
    rows := [];
    for j := 0 to |members|
      invariant rows == Table(pairs, edges, minBin)[..j]
    {
      rows := rows + [RowOf(j, edges, members[j], minBin)];
    }
  }

  function Share(r: Row, n: real): real
    requires n != 0.0
  {
    match r.stats
    case None => 0.0
    case Some(g) => (r.count as real / n) * g.absGap
  }

  function ShareOf(n: real): Row -> real
    requires n != 0.0
  {
    (r: Row) => Share(r, n)
  }

  function Ece(rows: seq<Row>, n: nat): Option<real> {
    if n == 0 then None else Some(Sum(rows, ShareOf(n as real)))
  }

  function Gaps(rows: seq<Row>): seq<real> {
    if rows == [] then []
    else
      Gaps(rows[..|rows| - 1]) +
      match rows[|rows| - 1].stats
      case None => []
      case Some(g) => [g.absGap]
  }

  function Largest(s: seq<real>): real
    requires s != []
  {
    if |s| == 1 then s[0]
    else
      var m, x := Largest(s[..|s| - 1]), s[|s| - 1];
      if m < x then x else m
  }

  function Mce(rows: seq<Row>): Option<real> {
    var gaps := Gaps(rows);
    if gaps == [] then None else Some(Largest(gaps))
  }

  function Confidences(pairs: seq<Pair>): seq<real> {
    seq(|pairs|, i requires 0 <= i < |pairs| => pairs[i].conf)
  }

  /** The scalars of one context; `None` for no observations. */
  function TopMetrics(pairs: seq<Pair>, strategy: Strategy, nBins: nat, minBin: nat): Option<Metrics>
    requires nBins > 0
  {
    if pairs == [] then None
    else
      var n := |pairs| as real;
      EdgesSuffice(strategy, nBins, Confidences(pairs));
      var rows := Table(pairs, MakeEdges(strategy, nBins, Confidences(pairs)), minBin);
      var acc, conf := Sum(pairs, TruthOf()) / n, Sum(pairs, ConfOf()) / n;
      Some(Metrics(acc, conf, conf - acc, Ece(rows, |pairs|), Mce(rows), Sum(pairs, SquaredDevOf()) / n))
  }

  lemma {:induction false} EdgesSuffice(strategy: Strategy, nBins: nat, values: seq<real>)
    requires nBins > 0 && values != []
    ensures |MakeEdges(strategy, nBins, values)| >= 2
  {
  }

  // Deviations by bin ---------------------------------------------------------------------------

  ghost function Range(n: nat): seq<nat> { seq(n, i requires 0 <= i < n => i) }

  function BinOf(edges: seq<real>): real -> nat
    requires |edges| >= 2
  {
    (v: real) => Assign(v, edges)
  }

  /** A pair's deviation, counted only when its bin is `j`. */
  function DevIn(bin: real -> nat, j: nat): Pair -> real {
    (p: Pair) => if bin(p.conf) == j then p.conf - Truth(p.correct) else 0.0
  }

  ghost function AbsTotal(pairs: seq<Pair>, bin: real -> nat): nat -> real {
    (j: nat) => Abs(Sum(pairs, DevIn(bin, j)))
  }

  ghost function Tilted(pairs: seq<Pair>, bin: real -> nat, tilt: nat -> real): nat -> real {
    (j: nat) => tilt(j) * Sum(pairs, DevIn(bin, j))
  }

  function TiltedDev(bin: real -> nat, tilt: nat -> real): Pair -> real {
    (p: Pair) => tilt(bin(p.conf)) * (p.conf - Truth(p.correct))
  }

  /** The sum over bins of absolute total deviations: the observation count times the ECE. */
  ghost function Spread(pairs: seq<Pair>, bin: real -> nat, k: nat): real {
    Sum(Range(k), AbsTotal(pairs, bin))
  }

  ghost predicate Within(pairs: seq<Pair>, bin: real -> nat, k: nat) {
    forall p :: p in pairs ==> bin(p.conf) < k
  }

  function SpikeOf(b: nat, x: real): nat -> real { (j: nat) => if j == b then x else 0.0 }

  lemma {:induction false} SpikeSum(k: nat, b: nat, x: real)
    ensures Sum(Range(k), SpikeOf(b, x)) == if b < k then x else 0.0
  {
    if k > 0 {
      assert Range(k)[..k - 1] == Range(k - 1);
      SpikeSum(k - 1, b, x);
    }
  }

  /** Summing tilted deviations bin by bin or pair by pair is the same. */
  lemma {:induction false} Regroup(pairs: seq<Pair>, bin: real -> nat, tilt: nat -> real, k: nat)
    requires Within(pairs, bin, k)
    ensures Sum(Range(k), Tilted(pairs, bin, tilt)) == Sum(pairs, TiltedDev(bin, tilt))
  {
    if pairs == [] {
      assert forall j :: j in Range(k) ==> Tilted(pairs, bin, tilt)(j) == 0.0;
      SumConstant(Range(k), Tilted(pairs, bin, tilt), 0.0);
    } else {
      var n := |pairs| - 1;
      var init := pairs[..n];
      assert forall q :: q in init ==> q in pairs;
      assert pairs[n] in pairs;
      Regroup(init, bin, tilt, k);
      var b, x := bin(pairs[n].conf), TiltedDev(bin, tilt)(pairs[n]);
      OneMorePair(pairs, bin, tilt, k);
      SumSplit(Range(k), Tilted(pairs, bin, tilt), Tilted(init, bin, tilt), SpikeOf(b, x));
      SpikeSum(k, b, x);
    }
  }

  lemma {:induction false} OneMorePair(pairs: seq<Pair>, bin: real -> nat, tilt: nat -> real, k: nat)
    requires pairs != []
    ensures var p, init := pairs[|pairs| - 1], pairs[..|pairs| - 1];
            forall j :: j in Range(k) ==>
              Tilted(pairs, bin, tilt)(j) == Tilted(init, bin, tilt)(j) + SpikeOf(bin(p.conf), TiltedDev(bin, tilt)(p))(j)
  {
    var p, init := pairs[|pairs| - 1], pairs[..|pairs| - 1];
    forall j | j in Range(k)
      ensures Tilted(pairs, bin, tilt)(j) == Tilted(init, bin, tilt)(j) + SpikeOf(bin(p.conf), TiltedDev(bin, tilt)(p))(j)
    {
      Distribute(tilt(j), Sum(init, DevIn(bin, j)), DevIn(bin, j)(p));
    }
  }

  lemma {:induction false} Distribute(c: real, x: real, y: real)
    ensures c * (x + y) == c * x + c * y
  {
  }

  ghost predicate UnitTilt(tilt: nat -> real) {
    forall j :: tilt(j) == 1.0 || tilt(j) == -1.0
  }

  /** No choice of signs per bin gains more than the spread ... */
  lemma {:induction false} TiltBound(pairs: seq<Pair>, bin: real -> nat, tilt: nat -> real, k: nat)
    requires Within(pairs, bin, k) && UnitTilt(tilt)
    ensures Sum(pairs, TiltedDev(bin, tilt)) <= Spread(pairs, bin, k)
  {
    Regroup(pairs, bin, tilt, k);
    SumMono(Range(k), Tilted(pairs, bin, tilt), AbsTotal(pairs, bin));
  }

  ghost function SignOf(pairs: seq<Pair>, bin: real -> nat): nat -> real {
    (j: nat) => if Sum(pairs, DevIn(bin, j)) < 0.0 then -1.0 else 1.0
  }

  /** ... and the signs of the totals gain exactly the spread. */
  lemma {:induction false} SignsAttain(pairs: seq<Pair>, bin: real -> nat, k: nat)
    requires Within(pairs, bin, k)
    ensures UnitTilt(SignOf(pairs, bin))
    ensures Sum(pairs, TiltedDev(bin, SignOf(pairs, bin))) == Spread(pairs, bin, k)
  {
    var tilt := SignOf(pairs, bin);
    Regroup(pairs, bin, tilt, k);
    SumCong(Range(k), Tilted(pairs, bin, tilt), AbsTotal(pairs, bin));
  }

  ghost function Pulled(tilt: nat -> real, coarser: nat -> nat): nat -> real { (j: nat) => tilt(coarser(j)) }

  lemma {:induction false} PulledAgrees(p: Pair, coarse: real -> nat, fine: real -> nat, merge: nat -> nat, tilt: nat -> real)
    requires coarse(p.conf) == merge(fine(p.conf))
    ensures TiltedDev(coarse, tilt)(p) == TiltedDev(fine, Pulled(tilt, merge))(p)
  {
    assert tilt(coarse(p.conf)) == Pulled(tilt, merge)(fine(p.conf));
  }

  /** Merging bins never increases the spread. */
  lemma {:induction false} CoarserSpreadsLess(pairs: seq<Pair>, coarse: real -> nat, k: nat, fine: real -> nat, l: nat, merge: nat -> nat)
    requires Within(pairs, coarse, k) && Within(pairs, fine, l)
    requires forall p :: p in pairs ==> coarse(p.conf) == merge(fine(p.conf))
    ensures Spread(pairs, coarse, k) <= Spread(pairs, fine, l)
  {
    var tilt := SignOf(pairs, coarse);
    SignsAttain(pairs, coarse, k);
    forall p | p in pairs ensures TiltedDev(coarse, tilt)(p) == TiltedDev(fine, Pulled(tilt, merge))(p) {
      PulledAgrees(p, coarse, fine, merge, tilt);
    }
    SumCong(pairs, TiltedDev(coarse, tilt), TiltedDev(fine, Pulled(tilt, merge)));
    TiltBound(pairs, fine, Pulled(tilt, merge), l);
  }
}
