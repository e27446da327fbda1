/** What the built-in `sorted` and the `bisect` module promise the calibration and benchmark code. */
module Sorting {

  ghost predicate TotalPreorder<T(!new)>(le: (T, T) -> bool) {
    && (forall x, y :: le(x, y) || le(y, x))
    && (forall x, y, z :: le(x, y) && le(y, z) ==> le(x, z))
  }

  ghost predicate SortedBy<T>(le: (T, T) -> bool, s: seq<T>) {
    forall i, j :: 0 <= i < j < |s| ==> le(s[i], s[j])
  }

  function Insert<T>(le: (T, T) -> bool, x: T, s: seq<T>): (r: seq<T>)
    ensures multiset(r) == multiset{x} + multiset(s)
  {
    if s == [] then [x]
    else if le(x, s[0]) then [x] + s
    else
      assert s == [s[0]] + s[1..];
      [s[0]] + Insert(le, x, s[1..])
  }

  lemma {:induction false} InsertSorts<T(!new)>(le: (T, T) -> bool, x: T, s: seq<T>)
    requires TotalPreorder(le) && SortedBy(le, s)
    ensures SortedBy(le, Insert(le, x, s))
  {
    if s != [] {
      var r := Insert(le, x, s);
      if le(x, s[0]) {
        assert forall j :: 0 <= j < |s| ==> le(s[0], s[j]);
      } else {
        var rest := Insert(le, x, s[1..]);
        InsertSorts(le, x, s[1..]);
        forall j | 0 <= j < |rest| ensures le(s[0], rest[j]) {
          assert rest[j] in multiset(rest);
          if rest[j] != x {
            assert rest[j] in s[1..];
          }
        }
      }
    }
  }

  /** A stable sort: an element goes in front of the later ones it ties with. */
  function Sort<T>(le: (T, T) -> bool, s: seq<T>): (r: seq<T>)
    ensures multiset(r) == multiset(s)
  {
    if s == [] then []
    else
      assert s == [s[0]] + s[1..];
      Insert(le, s[0], Sort(le, s[1..]))
  }

  lemma {:induction false} SortSorts<T(!new)>(le: (T, T) -> bool, s: seq<T>)
    requires TotalPreorder(le)
    ensures SortedBy(le, Sort(le, s))
  {
    if s != [] {
      SortSorts(le, s[1..]);
      InsertSorts(le, s[0], Sort(le, s[1..]));
    }
  }

  lemma {:induction false} SameMultisetSameLength<T>(a: seq<T>, b: seq<T>)
    requires multiset(a) == multiset(b)
    ensures |a| == |b| && forall x :: x in a <==> x in b
  {
    assert |a| == |multiset(a)| && |b| == |multiset(b)|;
    forall x ensures x in a <==> x in b {
      assert x in a <==> x in multiset(a);
      assert x in b <==> x in multiset(b);
    }
  }

  /** Where ties are impossible the sorted order does not depend on the order of the input. */
  lemma {:induction false} SortedIsUnique<T>(le: (T, T) -> bool, a: seq<T>, b: seq<T>)
    requires SortedBy(le, a) && SortedBy(le, b) && multiset(a) == multiset(b)
    requires forall x, y :: x in a && y in a && le(x, y) && le(y, x) ==> x == y
    ensures a == b
  {
    SameMultisetSameLength(a, b);
    if a != [] {
      SameHead(le, a, b);
      TailMultisets(a, b);
      forall x, y | x in a[1..] && y in a[1..] && le(x, y) && le(y, x) ensures x == y {
        assert x in a && y in a;
      }
      SortedIsUnique(le, a[1..], b[1..]);
      assert a == [a[0]] + a[1..] && b == [b[0]] + b[1..];
    }
  }

  lemma {:induction false} TailMultisets<T>(a: seq<T>, b: seq<T>)
    requires a != [] && b != [] && a[0] == b[0] && multiset(a) == multiset(b)
    ensures multiset(a[1..]) == multiset(b[1..])
  {
    assert a == [a[0]] + a[1..] && b == [b[0]] + b[1..];
    assert multiset(a[1..]) == multiset(a) - multiset{a[0]};
    assert multiset(b[1..]) == multiset(b) - multiset{b[0]};
  }

  lemma {:induction false} SameHead<T>(le: (T, T) -> bool, a: seq<T>, b: seq<T>)
    requires SortedBy(le, a) && SortedBy(le, b) && a != [] && b != []
    requires a[0] in b && b[0] in a
    requires forall x, y :: x in a && y in a && le(x, y) && le(y, x) ==> x == y
    ensures a[0] == b[0]
  {
    var i :| 0 <= i < |b| && b[i] == a[0];
    var j :| 0 <= j < |a| && a[j] == b[0];
    if i != 0 && j != 0 {
      assert le(b[0], b[i]) && le(a[0], a[j]);
    }
  }

  // Reals ------------------------------------------------------------------------------------

  predicate RealLe(x: real, y: real) { x <= y }

  ghost predicate NonDecreasing(s: seq<real>) {
    forall i, j :: 0 <= i < j < |s| ==> s[i] <= s[j]
  }

  ghost predicate Increasing(s: seq<real>) {
    forall i, j :: 0 <= i < j < |s| ==> s[i] < s[j]
  }

  lemma {:induction false} AnElement<T>(s: set<T>) returns (x: T)
    requires s != {}
    ensures x in s
  {
    x :| x in s;
  }

  lemma {:induction false} MinExists(s: set<real>)
    requires s != {}
    ensures exists m :: IsMin(s, m)
    decreases |s|
  {
    var x := AnElement(s);
    var others := s - {x};
    if others == {} {
      assert forall y :: y in s ==> y == x || y in others;
      assert IsMin(s, x);
    } else {
      MinExists(others);
      var m :| IsMin(others, m);
      assert forall y :: y in s ==> y == x || y in others;
      assert IsMin(s, if x <= m then x else m);
    }
  }

  predicate IsMin(s: set<real>, m: real) {
    m in s && forall y | y in s :: m <= y
  }

  /** `sorted` of a set of numbers. */
  function SortedSet(s: set<real>): (r: seq<real>)
    ensures Increasing(r) && |r| == |s|
    ensures forall x :: x in r <==> x in s
    decreases |s|
  {
    if s == {} then []
    else
      MinExists(s);
      var m: real :| IsMin(s, m);
      [m] + SortedSet(s - {m})
  }

  // Bisection --------------------------------------------------------------------------------

  function RightFrom(a: seq<real>, v: real, lo: nat, hi: nat): (r: nat)
    requires lo <= hi <= |a|
    ensures lo <= r <= hi
    ensures NonDecreasing(a) ==> forall i :: lo <= i < r ==> a[i] <= v
    ensures NonDecreasing(a) ==> forall i :: r <= i < hi ==> v < a[i]
    decreases hi - lo
  {
    if lo == hi then lo
    else
      var mid := (lo + hi) / 2;
      if v < a[mid] then RightFrom(a, v, lo, mid) else RightFrom(a, v, mid + 1, hi)
  }

  function LeftFrom(a: seq<real>, v: real, lo: nat, hi: nat): (r: nat)
    requires lo <= hi <= |a|
    ensures lo <= r <= hi
    ensures NonDecreasing(a) ==> forall i :: lo <= i < r ==> a[i] < v
    ensures NonDecreasing(a) ==> forall i :: r <= i < hi ==> v <= a[i]
    decreases hi - lo
  {
    if lo == hi then lo
    else
      var mid := (lo + hi) / 2;
      if a[mid] < v then LeftFrom(a, v, mid + 1, hi) else LeftFrom(a, v, lo, mid)
  }

  function BisectRight(a: seq<real>, v: real): nat { RightFrom(a, v, 0, |a|) }

  function BisectLeft(a: seq<real>, v: real): nat { LeftFrom(a, v, 0, |a|) }

  lemma {:induction false} LeftBeforeRight(a: seq<real>, v: real)
    requires NonDecreasing(a)
    ensures BisectLeft(a, v) <= BisectRight(a, v)
  {
    var hi := BisectRight(a, v);
    if hi < |a| { assert v < a[hi]; }
  }
}
