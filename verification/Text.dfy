/** Facts about strings used to show that formatted keys and signatures can be read back. */
module Text {

  /** What follows the first `c` in `s` (nothing when there is no `c`). */
  function AfterFirst(s: string, c: char): string {
    if s == [] then [] else if s[0] == c then s[1..] else AfterFirst(s[1..], c)
  }

  lemma {:induction false} AfterFirstSplits(a: string, c: char, b: string)
    requires c !in a
    ensures AfterFirst(a + [c] + b, c) == b
  {
    if a == [] {
      assert (a + [c] + b)[1..] == b;
    } else {
      assert (a + [c] + b)[1..] == a[1..] + [c] + b;
      AfterFirstSplits(a[1..], c, b);
    }
  }

  /** Two splits at the first `c` agree piece by piece. */
  lemma {:induction false} SplitFirstUnique(a: string, b: string, a': string, b': string, c: char)
    requires c !in a && c !in a'
    requires a + [c] + b == a' + [c] + b'
    ensures a == a' && b == b'
  {
    AfterFirstSplits(a, c, b);
    AfterFirstSplits(a', c, b');
    assert (a + [c] + b)[..|a|] == a;
    assert (a' + [c] + b')[..|a'|] == a';
  }

  /** Two splits at the last `c` agree piece by piece. */
  lemma SplitLastUnique(a: string, b: string, a': string, b': string, c: char)
    requires c !in b && c !in b'
    requires a + [c] + b == a' + [c] + b'
    ensures a == a' && b == b'
  {
    var s := a + [c] + b;
    assert s == a' + [c] + b' && s[|a|] == c && s[|a'|] == c;
    assert forall i | |a| < i < |s| :: s[i] == b[i - |a| - 1];
    assert forall i | |a'| < i < |s| :: s[i] == b'[i - |a'| - 1];
    assert s[..|a|] == a && s[..|a'|] == a';
    assert s[|a| + 1..] == b && s[|a'| + 1..] == b';
  }

  const DIGITS := "0123456789"

  /** Decimal rendering of a natural number, as `{}` prints it. */
  function Decimal(n: nat): (s: string)
    ensures s != [] && forall c | c in s :: c in DIGITS
  {
    if n < 10 then [DIGITS[n]] else Decimal(n / 10) + [DIGITS[n % 10]]
  }

  lemma {:induction false} DecimalInjective(m: nat, n: nat)
    requires Decimal(m) == Decimal(n)
    ensures m == n
  {
    if m < 10 || n < 10 {
      assert |Decimal(m)| == |Decimal(n)|;
      assert Decimal(m)[0] == Decimal(n)[0];
    } else {
      var a, b := Decimal(m), Decimal(n);
      assert a[..|a| - 1] == Decimal(m / 10) && b[..|b| - 1] == Decimal(n / 10);
      assert a[|a| - 1] == DIGITS[m % 10] && b[|b| - 1] == DIGITS[n % 10];
      DecimalInjective(m / 10, n / 10);
    }
  }

  /** `{:02}`: at least two digits. */
  function Pad2(n: nat): (s: string)
    ensures s != [] && forall c | c in s :: c in DIGITS
  {
    if n < 10 then "0" + Decimal(n) else Decimal(n)
  }

  lemma DecimalHead(n: nat)
    requires n >= 10
    ensures |Decimal(n)| >= 2 && Decimal(n)[0] != '0'
  {
  }

  lemma Pad2Injective(m: nat, n: nat)
    requires Pad2(m) == Pad2(n)
    ensures m == n
  {
    if m >= 10 {
      DecimalHead(m);
    }
    if n >= 10 {
      DecimalHead(n);
    }
    assert m < 10 ==> Pad2(m)[0] == '0' && Pad2(m)[1..] == Decimal(m);
    assert n < 10 ==> Pad2(n)[0] == '0' && Pad2(n)[1..] == Decimal(n);
    DecimalInjective(m, n);
  }
}
