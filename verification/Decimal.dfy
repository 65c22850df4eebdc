/** `str` of a natural number, and the order strings are compared in. */
module Decimal {

  const DIGITS := "0123456789"

  function Str(n: nat): (s: string)
    ensures |s| >= 1 && forall i :: 0 <= i < |s| ==> s[i] in DIGITS
  {
    if n < 10 then [DIGITS[n]] else Str(n / 10) + [DIGITS[n % 10]]
  }

  function Digit(c: char): nat {
    if '0' <= c <= '9' then (c - '0') as nat else 0
  }

  function Value(s: string): nat {
    if s == "" then 0 else 10 * Value(s[..|s| - 1]) + Digit(s[|s| - 1])
  }

  lemma DigitOfPrinted(d: nat)
    requires d < 10
    ensures Digit(DIGITS[d]) == d
  {
    assert DIGITS == ['0', '1', '2', '3', '4', '5', '6', '7', '8', '9'];
  }

  /** Reading a printed number back gives the number, so different numbers print differently. */
  lemma {:induction false} ValueOfStr(n: nat)
    ensures Value(Str(n)) == n
  {
    DigitOfPrinted(n % 10);
    if n < 10 {
      assert Str(n) == [DIGITS[n]] && Str(n)[..0] == "";
    } else {
      ValueOfStr(n / 10);
      assert Str(n)[..|Str(n)| - 1] == Str(n / 10);
    }
  }

  lemma StrIsInjective(m: nat, n: nat)
    requires Str(m) == Str(n)
    ensures m == n
  {
    ValueOfStr(m);
    ValueOfStr(n);
  }

  /** Byte-wise lexicographic order. */
  predicate Precedes(a: string, b: string) {
    if b == "" then false
    else if a == "" then true
    else a[0] < b[0] || (a[0] == b[0] && Precedes(a[1..], b[1..]))
  }

  /** A proper prefix, or smaller at the first difference. */
  ghost predicate ComesFirst(a: string, b: string) {
    exists k :: 0 <= k <= |a| && k < |b| && a[..k] == b[..k] && (k == |a| || a[k] < b[k])
  }

  lemma {:induction false} PrecedesMeaning(a: string, b: string)
    ensures Precedes(a, b) <==> ComesFirst(a, b)
    decreases |a|
  {
    if a != "" && b != "" {
      var c, d := a[1..], b[1..];
      PrecedesMeaning(c, d);
      if a[0] == b[0] && ComesFirst(c, d) {
        var k :| 0 <= k <= |c| && k < |d| && c[..k] == d[..k] && (k == |c| || c[k] < d[k]);
        assert a[..k + 1] == [a[0]] + c[..k] && b[..k + 1] == [b[0]] + d[..k];
        assert ComesFirst(a, b);
      }
      if a[0] < b[0] {
        assert a[..0] == b[..0];
        assert ComesFirst(a, b);
      }
      if ComesFirst(a, b) && !(a[0] < b[0]) {
        var k :| 0 <= k <= |a| && k < |b| && a[..k] == b[..k] && (k == |a| || a[k] < b[k]);
        assert k > 0;
        assert a[..k][0] == b[..k][0];
        assert c[..k - 1] == a[..k][1..] && d[..k - 1] == b[..k][1..];
        assert ComesFirst(c, d);
      }
    } else if a == "" && b != "" {
      assert a[..0] == b[..0];
      assert ComesFirst(a, b);
    }
  }

  lemma {:induction false} PrecedesIsIrreflexive(a: string)
    ensures !Precedes(a, a)
  {
    if a != "" {
      PrecedesIsIrreflexive(a[1..]);
    }
  }

  lemma {:induction false} PrecedesIsTotal(a: string, b: string)
    ensures Precedes(a, b) || Precedes(b, a) || a == b
    ensures !(Precedes(a, b) && Precedes(b, a))
    decreases |a|
  {
    if a != "" && b != "" {
      PrecedesIsTotal(a[1..], b[1..]);
      assert a == [a[0]] + a[1..] && b == [b[0]] + b[1..];
    }
  }

  lemma {:induction false} PrecedesIsTransitive(a: string, b: string, c: string)
    requires Precedes(a, b) && Precedes(b, c)
    ensures Precedes(a, c)
    decreases |a|
  {
    if a != "" && a[0] == b[0] == c[0] {
      PrecedesIsTransitive(a[1..], b[1..], c[1..]);
    }
  }
}
