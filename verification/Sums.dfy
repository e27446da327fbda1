/** Finite sums of reals over a sequence (`math.fsum` and `sum`, taken as exact). */
module Sums {

  function Sum<T>(s: seq<T>, f: T -> real): real {
    if s == [] then 0.0 else Sum(s[..|s| - 1], f) + f(s[|s| - 1])
  }

  lemma {:induction false} SumAppend<T>(a: seq<T>, b: seq<T>, f: T -> real)
    ensures Sum(a + b, f) == Sum(a, f) + Sum(b, f)
  {
    if b == [] {
      assert a + b == a;
    } else {
      SumAppend(a, b[..|b| - 1], f);
      assert (a + b)[..|a + b| - 1] == a + b[..|b| - 1];
    }
  }

  lemma {:induction false} SumSplit<T>(s: seq<T>, f: T -> real, g: T -> real, h: T -> real)
    requires forall x :: x in s ==> f(x) == g(x) + h(x)
    ensures Sum(s, f) == Sum(s, g) + Sum(s, h)
  {
    if s != [] {
      assert s[|s| - 1] in s;
      assert forall x :: x in s[..|s| - 1] ==> x in s;
      SumSplit(s[..|s| - 1], f, g, h);
    }
  }

  lemma {:induction false} SumMono<T>(s: seq<T>, f: T -> real, g: T -> real)
    requires forall x :: x in s ==> f(x) <= g(x)
    ensures Sum(s, f) <= Sum(s, g)
  {
    if s != [] {
      assert s[|s| - 1] in s;
      assert forall x :: x in s[..|s| - 1] ==> x in s;
      SumMono(s[..|s| - 1], f, g);
    }
  }

  lemma {:induction false} SumCong<T>(s: seq<T>, f: T -> real, g: T -> real)
    requires forall x :: x in s ==> f(x) == g(x)
    ensures Sum(s, f) == Sum(s, g)
  {
    SumMono(s, f, g);
    SumMono(s, g, f);
  }

  lemma {:induction false} SumScale<T>(s: seq<T>, f: T -> real, c: real, g: T -> real)
    requires forall x :: x in s ==> g(x) == c * f(x)
    ensures Sum(s, g) == c * Sum(s, f)
  {
    if s != [] {
      assert s[|s| - 1] in s;
      assert forall x :: x in s[..|s| - 1] ==> x in s;
      SumScale(s[..|s| - 1], f, c, g);
      var t, last := Sum(s[..|s| - 1], f), f(s[|s| - 1]);
      assert c * (t + last) == c * t + c * last;
    }
  }

  lemma {:induction false} SumBelowScaled<T>(s: seq<T>, f: T -> real, c: real, g: T -> real)
    requires AllAtMostTimes(s, f, c, g)
    ensures AtMostTimes(Sum(s, f), c, Sum(s, g))
  {
    if s != [] {
      var t, last := Sum(s[..|s| - 1], g), g(s[|s| - 1]);
      assert AtMostTimes(f(s[|s| - 1]), c, last) by { assert s[|s| - 1] in s; }
      assert forall x :: x in s[..|s| - 1] ==> x in s;
      SumBelowScaled(s[..|s| - 1], f, c, g);
      AddAtMostTimes(Sum(s[..|s| - 1], f), f(s[|s| - 1]), c, t, last);
    }
  }

  lemma {:induction false} AddAtMostTimes(x: real, x': real, c: real, y: real, y': real)
    requires AtMostTimes(x, c, y) && AtMostTimes(x', c, y')
    ensures AtMostTimes(x + x', c, y + y')
  {
    assert c * (y + y') == c * y + c * y';
  }

  lemma {:induction false} SumConstant<T>(s: seq<T>, f: T -> real, c: real)
    requires forall x :: x in s ==> f(x) == c
    ensures Sum(s, f) == c * (|s| as real)
  {
    if s != [] {
      assert s[|s| - 1] in s;
      assert forall x :: x in s[..|s| - 1] ==> x in s;
      SumConstant(s[..|s| - 1], f, c);
      assert c * ((|s| - 1) as real + 1.0) == c * ((|s| - 1) as real) + c;
    }
  }

  /** A sum does not depend on the order of its terms. */
  lemma {:induction false} SumPermuted<T>(a: seq<T>, b: seq<T>, f: T -> real)
    requires multiset(a) == multiset(b)
    ensures Sum(a, f) == Sum(b, f)
    decreases |a|
  {
    assert |a| == |multiset(a)| && |b| == |multiset(b)|;
    if a != [] {
      var n := |a| - 1;
      var i := Matching(a, b);
      SumPermuted(a[..n], b[..i] + b[i + 1..], f);
      SumWithout(b, i, f);
    }
  }

  /** Where the last element of `a` is in `b`; without it the rests still agree. */
  lemma {:induction false} Matching<T>(a: seq<T>, b: seq<T>) returns (i: nat)
    requires a != [] && multiset(a) == multiset(b)
    ensures i < |b| && b[i] == a[|a| - 1]
    ensures multiset(a[..|a| - 1]) == multiset(b[..i] + b[i + 1..])
  {
    var n := |a| - 1;
    assert a == a[..n] + [a[n]];
    assert a[n] in multiset(b);
    i :| 0 <= i < |b| && b[i] == a[n];
    var rest := b[..i] + b[i + 1..];
    assert b == b[..i] + [a[n]] + b[i + 1..];
    assert multiset(b) == multiset(rest) + multiset{a[n]};
    assert multiset(rest) == multiset(b) - multiset{a[n]};
    assert multiset(a[..n]) == multiset(a) - multiset{a[n]};
  }

  lemma {:induction false} SumWithout<T>(s: seq<T>, i: nat, f: T -> real)
    requires i < |s|
    ensures Sum(s, f) == Sum(s[..i] + s[i + 1..], f) + f(s[i])
  {
    var init, rest := s[..i], s[i + 1..];
    var upTo := init + [s[i]];
    assert s == upTo + rest && upTo[..i] == init;
    SumAppend(init, rest, f);
    SumAppend(upTo, rest, f);
  }

  function Abs(x: real): real { if x < 0.0 then -x else x }

  function Product(x: real, y: real): real { x * y }

  // Products by name, so that a proof that only passes them on need not multiply.

  ghost predicate Times(c: real, x: real, y: real) { c * x == y }

  ghost predicate AtMostTimes(x: real, c: real, y: real) { x <= c * y }

  ghost predicate AllAtMostTimes<T>(s: seq<T>, f: T -> real, c: real, g: T -> real) {
    forall x :: x in s ==> AtMostTimes(f(x), c, g(x))
  }

  function Square(x: real): real { Product(x, x) }

  // Products and quotients ----------------------------------------------------------------------

  lemma {:induction false} NonNegProduct(x: real, y: real)
    requires x >= 0.0 && y >= 0.0
    ensures x * y >= 0.0
  {
  }

  lemma {:induction false} ProductSign(x: real, y: real)
    requires y > 0.0
    ensures x * y > 0.0 <==> x > 0.0
  {
    if x <= 0.0 {
      assert (-x) * y >= 0.0;
    }
  }

  lemma {:induction false} PositiveProduct(x: real, y: real)
    requires x > 0.0 && y > 0.0
    ensures Product(x, y) > 0.0
  {
    ProductSign(x, y);
  }

  lemma {:induction false} SquareIsPositive(d: real)
    ensures Square(d) >= 0.0 && (Square(d) == 0.0 ==> d == 0.0)
  {
    if d > 0.0 {
      PositiveProduct(d, d);
    } else if d < 0.0 {
      PositiveProduct(-d, -d);
      assert Product(-d, -d) == Product(d, d);
    }
  }

  lemma {:induction false} DivideMono(a: real, b: real, w: real)
    requires a <= b && w > 0.0
    ensures a / w <= b / w
  {
  }

  lemma {:induction false} CancelDivide(h: real, w: real)
    requires w > 0.0
    ensures h * w / w == h && w / w == 1.0 && 0.0 / w == 0.0
  {
  }

  lemma {:induction false} DivBounds(a: nat, n: nat)
    requires n > 0
    ensures a / n * n <= a < a / n * n + n
  {
  }

  lemma {:induction false} MulMono(a: int, b: int, c: nat)
    requires a <= b
    ensures a * c <= b * c
  {
  }
}
