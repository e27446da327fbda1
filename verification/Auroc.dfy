/** AUROC by bisection into the sorted negatives, against its pairwise definition. */
module Auroc {
  import opened Common
  import opened Sorting
  import opened Sums
  import opened Bins

  /** What one (positive, negative) pair contributes. */
  function PairScore(s: real, t: real): real { if s > t then 1.0 else if s == t then 0.5 else 0.0 }

  function ScoreAgainst(s: real): real -> real { (t: real) => PairScore(s, t) }

  function WinsOver(neg: seq<real>): real -> real { (s: real) => Sum(neg, ScoreAgainst(s)) }

  /** Wins plus half the ties over all pairs. */
  function Wins(pos: seq<real>, neg: seq<real>): real { Sum(pos, WinsOver(neg)) }

  function Pairwise(pos: seq<real>, neg: seq<real>): Option<real> {
    if pos == [] || neg == [] then None
    else Some(Ratio(Wins(pos, neg), pos, neg))
  }

  function Ratio(total: real, pos: seq<real>, neg: seq<real>): real
    requires pos != [] && neg != []
  {
    MulMono(1, |pos|, |neg|);
    total / (|pos| * |neg|) as real
  }

  /** Ranks below and up to `s` in the sorted negatives are the wins and the wins with ties. */
  lemma {:induction false} RankScore(neg: seq<real>, s: real, m: nat)
    requires NonDecreasing(neg) && m <= |neg|
    ensures var lo, hi := BisectLeft(neg, s), BisectRight(neg, s);
            && lo <= hi
            && Sum(neg[..m], ScoreAgainst(s)) ==
                 if m <= lo then m as real
                 else if m <= hi then lo as real + 0.5 * ((m - lo) as real)
                 else lo as real + 0.5 * ((hi - lo) as real)
  {
    var lo, hi := BisectLeft(neg, s), BisectRight(neg, s);
    LeftBeforeRight(neg, s);
    if m > 0 {
      RankScore(neg, s, m - 1);
      assert neg[..m][..m - 1] == neg[..m - 1];
    }
  }

  lemma {:induction false} SortedScore(scores: seq<real>, neg: seq<real>, s: real)
    requires NonDecreasing(neg) && multiset(neg) == multiset(scores)
    ensures var lo, hi := BisectLeft(neg, s), BisectRight(neg, s);
            lo as real + 0.5 * ((hi - lo) as real) == WinsOver(scores)(s)
  {
    RankScore(neg, s, |neg|);
    assert neg[..|neg|] == neg;
    SumPermuted(neg, scores, ScoreAgainst(s));
  }

  method Auroc(pos: seq<real>, scoresNeg: seq<real>) returns (r: Option<real>)
    ensures r == Pairwise(pos, scoresNeg)
  {
    if pos == [] || scoresNeg == [] {
      return None;
    }
    var neg := Sort(RealLe, scoresNeg);
    SortedSpan(scoresNeg);
    var total := 0.0;
    for i := 0 to |pos|
      invariant total == Sum(pos[..i], WinsOver(scoresNeg))
    {
      var s := pos[i];
      var lo, hi := BisectLeft(neg, s), BisectRight(neg, s);
      LeftBeforeRight(neg, s);
      total := total + (lo as real + 0.5 * ((hi - lo) as real));
      SortedScore(scoresNeg, neg, s);
      assert pos[..i + 1][..i] == pos[..i];
    }
    assert pos[..|pos|] == pos;
    r := Some(Ratio(total, pos, neg));
  }

  // Properties ----------------------------------------------------------------------------------

  lemma {:induction false} WinsBounded(pos: seq<real>, neg: seq<real>)
    ensures 0.0 <= Wins(pos, neg) <= (|pos| * |neg|) as real
  {
    if pos != [] {
      var n := |pos| - 1;
      WinsBounded(pos[..n], neg);
      RowBounded(pos[n], neg);
      assert (n + 1) * |neg| == n * |neg| + |neg|;
    }
  }

  lemma {:induction false} RowBounded(s: real, neg: seq<real>)
    ensures 0.0 <= Sum(neg, ScoreAgainst(s)) <= |neg| as real
  {
    if neg != [] { RowBounded(s, neg[..|neg| - 1]); }
  }

  lemma {:induction false} RowAndColumn(pos: seq<real>, neg: seq<real>, s: real)
    ensures Sum(neg, WinsOver(pos + [s])) == Sum(neg, WinsOver(pos)) + (|neg| as real - Sum(neg, ScoreAgainst(s)))
  {
    if neg != [] {
      var n := |neg| - 1;
      RowAndColumn(pos, neg[..n], s);
      assert (pos + [s])[..|pos|] == pos;
      assert PairScore(s, neg[n]) + PairScore(neg[n], s) == 1.0;
    }
  }

  /** Exchanging the roles of positives and negatives accounts for every pair once. */
  lemma {:induction false} WinsComplement(pos: seq<real>, neg: seq<real>)
    ensures Wins(pos, neg) + Wins(neg, pos) == (|pos| * |neg|) as real
  {
    if pos == [] {
      SumConstant(neg, WinsOver(pos), 0.0);
    } else {
      var n := |pos| - 1;
      WinsComplement(pos[..n], neg);
      assert pos == pos[..n] + [pos[n]];
      RowAndColumn(pos[..n], neg, pos[n]);
      assert (n + 1) * |neg| == n * |neg| + |neg|;
    }
  }

  lemma {:induction false} AurocInUnit(pos: seq<real>, neg: seq<real>)
    requires pos != [] && neg != []
    ensures Pairwise(pos, neg).Some? && 0.0 <= Pairwise(pos, neg).value <= 1.0
  {
    WinsBounded(pos, neg);
    MulMono(1, |pos|, |neg|);
    var n := (|pos| * |neg|) as real;
    DivideMono(0.0, Wins(pos, neg), n);
    DivideMono(Wins(pos, neg), n, n);
    CancelDivide(1.0, n);
  }

  lemma {:induction false} AurocComplement(pos: seq<real>, neg: seq<real>)
    requires pos != [] && neg != []
    ensures var a, b := Pairwise(pos, neg), Pairwise(neg, pos);
            a.Some? && b.Some? && a.value + b.value == 1.0
  {
    WinsComplement(pos, neg);
    MulMono(1, |pos|, |neg|);
    assert |pos| * |neg| == |neg| * |pos|;
    SumOfShares(Wins(pos, neg), Wins(neg, pos), (|pos| * |neg|) as real);
  }

  lemma {:induction false} SumOfShares(a: real, b: real, n: real)
    requires n > 0.0 && a + b == n
    ensures a / n + b / n == 1.0
  {
    assert a / n + b / n == (a + b) / n;
  }
}
