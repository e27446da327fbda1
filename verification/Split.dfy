/** The calibration / evaluation split of sample ids by a seeded hash. */
module Split {
  import opened Sorting
  import opened Sums

  /** Ids in order of their hash, ties broken by the id. `digest` stands for the seeded SHA-256. */
  function HashOrder(digest: int -> int): (int, int) -> bool {
    (i: int, j: int) => digest(i) < digest(j) || (digest(i) == digest(j) && i <= j)
  }

  predicate IntLe(i: int, j: int) { i <= j }

  /** Rounding to the nearest integer, halves to the even neighbour. */
  function Round(x: real): int {
    var f := x.Floor;
    var d := x - f as real;
    if d < 0.5 || (d == 0.5 && f % 2 == 0) then f else f + 1
  }

  /** How many of `n` ids calibrate: at least one, and at least one is left over. */
  function Share(fraction: real, n: nat): int {
    Clamped(Round(Portion(fraction, n)), n)
  }

  function Portion(fraction: real, n: nat): real { fraction * n as real }

  function Clamped(r: int, n: nat): int {
    var k := if r < 1 then 1 else r;
    if k < n - 1 then k else n - 1
  }

  function SplitIds(ids: seq<int>, fraction: real, digest: int -> int): (seq<int>, seq<int>) {
    var ranked := Sort(HashOrder(digest), ids);
    var k := Share(fraction, |ranked|);
    if k < 0 then ([], [])  // no ids
    else
      (Sort(IntLe, ranked[..k]), Sort(IntLe, ranked[k..]))
  }

  lemma {:induction false} Orders(digest: int -> int)
    ensures TotalPreorder(HashOrder(digest)) && TotalPreorder(IntLe)
  {
  }

  ghost predicate AllDifferent(s: seq<int>) {
    forall i, j :: 0 <= i < j < |s| ==> s[i] != s[j]
  }

  lemma {:induction false} DifferentIffOnce(s: seq<int>)
    ensures AllDifferent(s) <==> forall x :: multiset(s)[x] <= 1
  {
    if s != [] {
      var n := |s| - 1;
      var init := s[..n];
      assert s == init + [s[n]];
      assert multiset(s) == multiset(init) + multiset{s[n]};
      DifferentIffOnce(init);
      assert forall i :: 0 <= i < n ==> init[i] == s[i];
      assert s[n] in init <==> s[n] in multiset(init);
      if s[n] in init {
        var i :| 0 <= i < n && init[i] == s[n];
        assert s[i] == s[n] && multiset(s)[s[n]] > 1;
      } else if AllDifferent(init) {
        assert AllDifferent(s);
      } else {
        var x :| multiset(init)[x] > 1;
        assert multiset(s)[x] > 1;
      }
    }
  }

  /** For two or more distinct ids the split is an exact partition into two non-empty parts. */
  lemma {:induction false} SplitIsPartition(ids: seq<int>, fraction: real, digest: int -> int)
    requires |ids| >= 2 && AllDifferent(ids)
    ensures var (cal, ev) := SplitIds(ids, fraction, digest);
            && cal != [] && ev != []
            && multiset(cal) + multiset(ev) == multiset(ids)
            && (forall x :: x in cal ==> x !in ev)
            && AllDifferent(cal) && AllDifferent(ev)
            && |cal| == Share(fraction, |ids|)
  {
    var ranked := Sort(HashOrder(digest), ids);
    SameMultisetSameLength(ranked, ids);
    var k := Share(fraction, |ranked|);
    var (cal, ev) := SplitIds(ids, fraction, digest);
    assert ranked == ranked[..k] + ranked[k..];
    SameMultisetSameLength(cal, ranked[..k]);
    SameMultisetSameLength(ev, ranked[k..]);
    assert multiset(cal) + multiset(ev) == multiset(ids);
    PartsDiffer(ids, cal, ev);
  }

  lemma {:induction false} PartsDiffer(whole: seq<int>, a: seq<int>, b: seq<int>)
    requires AllDifferent(whole) && multiset(a) + multiset(b) == multiset(whole)
    ensures AllDifferent(a) && AllDifferent(b) && forall x :: x in a ==> x !in b
  {
    DifferentIffOnce(whole);
    DifferentIffOnce(a);
    DifferentIffOnce(b);
    forall x ensures multiset(a)[x] + multiset(b)[x] <= 1 {
      assert multiset(whole)[x] == multiset(a)[x] + multiset(b)[x];
    }
    forall x | x in a ensures x !in b {
      assert x in multiset(a);
      assert x in b <==> x in multiset(b);
    }
  }

  /** The ids that calibrate are the first by hash; both parts are listed in increasing order. */
  lemma {:induction false} SplitFollowsHash(ids: seq<int>, fraction: real, digest: int -> int, i: nat, j: nat)
    requires |ids| >= 2
    ensures var (cal, ev) := SplitIds(ids, fraction, digest);
            && (forall a, b :: 0 <= a < b < |cal| ==> cal[a] <= cal[b])
            && (forall a, b :: 0 <= a < b < |ev| ==> ev[a] <= ev[b])
            && (i < |cal| && j < |ev| ==> digest(cal[i]) < digest(ev[j]) || (digest(cal[i]) == digest(ev[j]) && cal[i] <= ev[j]))
  {
    SplitIsListed(ids, fraction, digest);
    var (cal, ev) := SplitIds(ids, fraction, digest);
    if i < |cal| && j < |ev| { SplitIsRanked(ids, fraction, digest, i, j); }
  }

  lemma {:induction false} SplitIsListed(ids: seq<int>, fraction: real, digest: int -> int)
    requires |ids| >= 2
    ensures var (cal, ev) := SplitIds(ids, fraction, digest);
            && (forall a, b :: 0 <= a < b < |cal| ==> cal[a] <= cal[b])
            && (forall a, b :: 0 <= a < b < |ev| ==> ev[a] <= ev[b])
  {
    var ranked := Sort(HashOrder(digest), ids);
    SameMultisetSameLength(ranked, ids);
    var k := Share(fraction, |ranked|);
    Orders(digest);
    SortSorts(IntLe, ranked[..k]);
    SortSorts(IntLe, ranked[k..]);
    InOrder(Sort(IntLe, ranked[..k]));
    InOrder(Sort(IntLe, ranked[k..]));
  }

  lemma {:induction false} SplitIsRanked(ids: seq<int>, fraction: real, digest: int -> int, i: nat, j: nat)
    requires |ids| >= 2 && i < |SplitIds(ids, fraction, digest).0| && j < |SplitIds(ids, fraction, digest).1|
    ensures HashOrder(digest)(SplitIds(ids, fraction, digest).0[i], SplitIds(ids, fraction, digest).1[j])
  {
    var ranked := Sort(HashOrder(digest), ids);
    SameMultisetSameLength(ranked, ids);
    var k := Share(fraction, |ranked|);
    Orders(digest);
    SortSorts(HashOrder(digest), ids);
    var (cal, ev) := SplitIds(ids, fraction, digest);
    var a := PlaceOf(ranked[..k], cal, i);
    var b := PlaceOf(ranked[k..], ev, j);
    assert ranked[a] == cal[i] && ranked[k + b] == ev[j];
  }

  lemma {:induction false} InOrder(s: seq<int>)
    requires SortedBy(IntLe, s)
    ensures forall a, b :: 0 <= a < b < |s| ==> s[a] <= s[b]
  {
    forall a, b | 0 <= a < b < |s| ensures s[a] <= s[b] { assert IntLe(s[a], s[b]); }
  }

  lemma {:induction false} PlaceOf(s: seq<int>, sorted: seq<int>, i: nat) returns (k: nat)
    requires multiset(sorted) == multiset(s) && i < |sorted|
    ensures k < |s| && s[k] == sorted[i]
  {
    assert sorted[i] in multiset(sorted);
    assert sorted[i] in multiset(s);
    k :| 0 <= k < |s| && s[k] == sorted[i];
  }

  /** The split depends only on which ids there are, not on their order. */
  lemma {:induction false} SplitIgnoresOrder(ids: seq<int>, ids': seq<int>, fraction: real, digest: int -> int)
    requires multiset(ids) == multiset(ids')
    ensures SplitIds(ids, fraction, digest) == SplitIds(ids', fraction, digest)
  {
    Orders(digest);
    SortSorts(HashOrder(digest), ids);
    SortSorts(HashOrder(digest), ids');
    SortedIsUnique(HashOrder(digest), Sort(HashOrder(digest), ids), Sort(HashOrder(digest), ids'));
  }

  /** The calibration part is within one id of the requested fraction. */
  lemma {:induction false} SharesFairly(fraction: real, n: nat)
    requires 0.0 < fraction < 1.0 && n >= 2
    ensures 1 <= Share(fraction, n) <= n - 1
    ensures Abs(Share(fraction, n) as real - Portion(fraction, n)) < 1.0
  {
    ProperPortion(fraction, n);
    ClampedFairly(Portion(fraction, n), n);
  }

  /** The calibration part has the size in 1 .. n - 1 nearest to the requested fraction, and the even one of
      two that are equally near. */
  lemma {:induction false} ShareIsNearest(fraction: real, n: nat, m: int)
    requires n >= 2 && 1 <= m <= n - 1
    ensures var k, x := Share(fraction, n), fraction * n as real;
            && 1 <= k <= n - 1 && Abs(k as real - x) <= Abs(m as real - x)
            && (m != k && Abs(k as real - x) == Abs(m as real - x) ==> k % 2 == 0)
  {
    NearestInRange(Portion(fraction, n), n, m);
  }

  lemma {:induction false} NearestInRange(x: real, n: nat, m: int)
    requires n >= 2 && 1 <= m <= n - 1
    ensures var k := Clamped(Round(x), n);
            && 1 <= k <= n - 1 && Abs(k as real - x) <= Abs(m as real - x)
            && (m != k && Abs(k as real - x) == Abs(m as real - x) ==> k % 2 == 0)
  {
    var f := x.Floor;
    assert f as real <= x < f as real + 1.0;
    assert m <= f || m >= f + 1;
  }

  lemma {:induction false} ClampedFairly(x: real, n: nat)
    requires n >= 2 && 0.0 < x < n as real
    ensures 1 <= Clamped(Round(x), n) <= n - 1 && Abs(Clamped(Round(x), n) as real - x) < 1.0
  {
    assert Abs(Round(x) as real - x) <= 0.5;
  }

  lemma {:induction false} ProperPortion(fraction: real, n: nat)
    requires 0.0 < fraction < 1.0 && n > 0
    ensures 0.0 < Portion(fraction, n) < n as real
  {
    var w := n as real;
    ProductSign(fraction, w);
    ProductSign(1.0 - fraction, w);
    assert (1.0 - fraction) * w == w - fraction * w;
  }

  // No leakage --------------------------------------------------------------------------------

  /** The observations behind a list of ids. */
  function Select<T>(obs: map<int, T>, ids: seq<int>): seq<T>
    requires forall k :: 0 <= k < |ids| ==> ids[k] in obs
  {
    if ids == [] then [] else Select(obs, ids[..|ids| - 1]) + [obs[ids[|ids| - 1]]]
  }

  lemma {:induction false} SelectedAt<T>(obs: map<int, T>, ids: seq<int>, k: nat)
    requires (forall i :: 0 <= i < |ids| ==> ids[i] in obs) && k < |ids|
    ensures |Select(obs, ids)| == |ids| && Select(obs, ids)[k] == obs[ids[k]]
  {
    var n := |ids| - 1;
    if n > 0 { SelectedAt(obs, ids[..n], if k < n then k else 0); }
  }

  lemma {:induction false} SelectAgrees<T>(obs: map<int, T>, obs': map<int, T>, ids: seq<int>)
    requires forall k :: 0 <= k < |ids| ==> ids[k] in obs && ids[k] in obs' && obs[ids[k]] == obs'[ids[k]]
    ensures Select(obs, ids) == Select(obs', ids)
  {
    if ids != [] { SelectAgrees(obs, obs', ids[..|ids| - 1]); }
  }

  /** Whatever happens to the evaluation samples, the data the calibrator is fitted on is the same. */
  lemma {:induction false} EvaluationDoesNotLeak<T>(obs: map<int, T>, obs': map<int, T>, ids: seq<int>,
                                                    fraction: real, digest: int -> int)
    requires |ids| >= 2 && AllDifferent(ids) && forall i :: i in ids ==> i in obs && i in obs'
    requires forall i :: i in ids && i !in SplitIds(ids, fraction, digest).1 ==> obs[i] == obs'[i]
    ensures forall k :: 0 <= k < |SplitIds(ids, fraction, digest).0| ==>
              SplitIds(ids, fraction, digest).0[k] in obs && SplitIds(ids, fraction, digest).0[k] in obs'
    ensures Select(obs, SplitIds(ids, fraction, digest).0) == Select(obs', SplitIds(ids, fraction, digest).0)
  {
    SplitIsPartition(ids, fraction, digest);
    var (cal, ev) := SplitIds(ids, fraction, digest);
    PartIsWithin(cal, ev, ids);
    SelectAgrees(obs, obs', cal);
  }

  lemma {:induction false} PartIsWithin(a: seq<int>, b: seq<int>, whole: seq<int>)
    requires multiset(a) + multiset(b) == multiset(whole)
    ensures forall k :: 0 <= k < |a| ==> a[k] in whole
    ensures forall k :: 0 <= k < |a| ==> a[k] in a
  {
    forall k | 0 <= k < |a| ensures a[k] in whole {
      assert a[k] in multiset(a);
      assert a[k] in multiset(whole);
    }
  }
}
