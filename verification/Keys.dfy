/** Unit keys: readable text that identifies one trial of a benchmark, whatever the grids are called. */
module Keys {
  import opened Sorting

  // Order on text -------------------------------------------------------------------------------

  /** Lexicographic order by code point. */
  predicate TextLe(a: string, b: string) {
    a == [] || (b != [] && (a[0] < b[0] || (a[0] == b[0] && TextLe(a[1..], b[1..]))))
  }

  lemma {:induction false} TextTotal(a: string, b: string)
    ensures TextLe(a, b) || TextLe(b, a)
  {
    if a != [] && b != [] { TextTotal(a[1..], b[1..]); }
  }

  lemma {:induction false} TextTransitive(a: string, b: string, c: string)
    requires TextLe(a, b) && TextLe(b, c)
    ensures TextLe(a, c)
  {
    if a != [] && a[0] == b[0] && b[0] == c[0] { TextTransitive(a[1..], b[1..], c[1..]); }
  }

  lemma {:induction false} TextAntisymmetric(a: string, b: string)
    requires TextLe(a, b) && TextLe(b, a)
    ensures a == b
  {
    if a != [] {
      TextAntisymmetric(a[1..], b[1..]);
      assert a == [a[0]] + a[1..] && b == [b[0]] + b[1..];
    }
  }

  /** A text comes first if it is a prefix of the other or has the smaller character where they part. */
  lemma {:induction false} TextLeIff(a: string, b: string)
    ensures TextLe(a, b) <==> a <= b || exists k :: 0 <= k < |a| && k < |b| && a[..k] == b[..k] && a[k] < b[k]
  {
    if a != [] && b != [] && a[0] == b[0] {
      TextLeIff(a[1..], b[1..]);
      forall k | 0 <= k < |a| - 1 && k < |b| - 1 ensures a[1..][..k] == b[1..][..k] <==> a[..k + 1] == b[..k + 1] {
        assert a[..k + 1] == [a[0]] + a[1..][..k] && b[..k + 1] == [b[0]] + b[1..][..k];
      }
      assert a == [a[0]] + a[1..] && b == [b[0]] + b[1..];
      if k :| 0 <= k < |a[1..]| && k < |b[1..]| && a[1..][..k] == b[1..][..k] && a[1..][k] < b[1..][k] {
        assert a[..k + 1] == b[..k + 1] && a[k + 1] < b[k + 1];
      }
      if k :| 0 <= k < |a| && k < |b| && a[..k] == b[..k] && a[k] < b[k] {
        assert a[1..][..k - 1] == b[1..][..k - 1] && a[1..][k - 1] < b[1..][k - 1];
      }
    } else if a != [] && b != [] {
      assert a[..0] == b[..0];
      if k :| 0 < k < |a| && k < |b| && a[..k] == b[..k] { assert a[..k][0] == b[..k][0]; }
    }
  }

  // Decimal numbers -----------------------------------------------------------------------------

  const DIGITS := "0123456789"

  function Decimal(n: nat): string {
    if n < 10 then [DIGITS[n]] else Decimal(n / 10) + [DIGITS[n % 10]]
  }

  lemma {:induction false} DecimalShape(n: nat)
    ensures |Decimal(n)| >= 1 && ':' !in Decimal(n)
    ensures |Decimal(n)| == 1 <==> n < 10
  {
    if n >= 10 { DecimalShape(n / 10); }
  }

  /** The number a row of digits denotes. */
  function NumberOf(digits: string): int {
    if digits == [] then 0
    else NumberOf(digits[..|digits| - 1]) * 10 + (digits[|digits| - 1] as int - '0' as int)
  }

  lemma {:induction false} DecimalDenotes(n: nat)
    ensures NumberOf(Decimal(n)) == n && (n > 0 ==> Decimal(n)[0] != '0')
  {
    var s := Decimal(n);
    var init := s[..|s| - 1];
    if n >= 10 {
      DecimalDenotes(n / 10);
      assert init == Decimal(n / 10);
      assert NumberOf(s) == n / 10 * 10 + n % 10;
    } else {
      assert init == [];
      assert NumberOf(s) == n;
    }
  }

  lemma {:induction false} DecimalInjective(a: nat, b: nat)
    requires Decimal(a) == Decimal(b)
    ensures a == b
  {
    DecimalShape(a);
    DecimalShape(b);
    if a >= 10 {
      var s := Decimal(a);
      assert s[|s| - 1] == DIGITS[a % 10] && s[|s| - 1] == DIGITS[b % 10];
      assert Decimal(a / 10) == s[..|s| - 1] && Decimal(b / 10) == s[..|s| - 1];
      DecimalInjective(a / 10, b / 10);
    }
  }

  // Keys ----------------------------------------------------------------------------------------

  /** What a unit is: the baseline, a grid point under a seed, or a compound cell under a seed. */
  datatype Label =
    | Baseline
    | FaultTrial(grid: string, point: nat, seed: nat)
    | InteractionTrial(pair: string, reversed: bool, seed: nat)

  function Cell(reversed: bool): string { if reversed then "BA" else "AB" }

  function Colon(a: string, b: string): string { a + ":" + b }

  function KeyText(l: Label): string {
    match l
    case Baseline => "baseline"
    case FaultTrial(grid, i, seed) => Colon(Colon("fault:" + grid, Decimal(i)), Decimal(seed))
    case InteractionTrial(pair, reversed, seed) => Colon(Colon("interaction:" + pair, Cell(reversed)), Decimal(seed))
  }

  lemma {:induction false} NoColonAfter(a: string, x: string)
    requires ':' !in x
    ensures Colon(a, x)[|a|] == ':' && forall k :: |a| < k < |Colon(a, x)| ==> Colon(a, x)[k] != ':'
  {
    forall k | |a| < k < |Colon(a, x)| ensures Colon(a, x)[k] != ':' {
      assert Colon(a, x)[k] == x[k - |a| - 1];
    }
  }

  /** The last colon splits a key unambiguously, whatever comes before it. */
  lemma {:induction false} LastColon(a: string, x: string, b: string, y: string)
    requires Colon(a, x) == Colon(b, y) && ':' !in x && ':' !in y
    ensures a == b && x == y
  {
    var s := Colon(a, x);
    NoColonAfter(a, x);
    NoColonAfter(b, y);
    assert a == s[..|a|] && x == s[|a| + 1..];
    assert b == s[..|b|] && y == s[|b| + 1..];
  }

  lemma {:induction false} SamePrefix(p: string, a: string, b: string)
    requires p + a == p + b
    ensures a == b
  {
    assert a == (p + a)[|p|..] && b == (p + b)[|p|..];
  }

  lemma {:induction false} FirstLetter(l: Label)
    ensures |KeyText(l)| > 0
    ensures KeyText(l)[0] == if l.Baseline? then 'b' else if l.FaultTrial? then 'f' else 'i'
  {
  }

  /** Different units have different keys, even if grid names contain ':' or '+'. */
  lemma {:induction false} KeysAreInjective(l: Label, m: Label)
    requires KeyText(l) == KeyText(m)
    ensures l == m
  {
    FirstLetter(l);
    FirstLetter(m);
    match l
    case Baseline =>
    case FaultTrial(grid, i, seed) =>
      DecimalShape(i); DecimalShape(seed); DecimalShape(m.point); DecimalShape(m.seed);
      LastColon(Colon("fault:" + grid, Decimal(i)), Decimal(seed), Colon("fault:" + m.grid, Decimal(m.point)), Decimal(m.seed));
      LastColon("fault:" + grid, Decimal(i), "fault:" + m.grid, Decimal(m.point));
      SamePrefix("fault:", grid, m.grid);
      DecimalInjective(i, m.point);
      DecimalInjective(seed, m.seed);
    case InteractionTrial(pair, r, seed) =>
      DecimalShape(seed); DecimalShape(m.seed);
      LastColon(Colon("interaction:" + pair, Cell(r)), Decimal(seed), Colon("interaction:" + m.pair, Cell(m.reversed)), Decimal(m.seed));
      LastColon("interaction:" + pair, Cell(r), "interaction:" + m.pair, Cell(m.reversed));
      SamePrefix("interaction:", pair, m.pair);
      assert Cell(r)[0] == Cell(m.reversed)[0];
      DecimalInjective(seed, m.seed);
  }
}
