/** Decimal numerals, as they appear in ids and paths. */
module Decimals {
  import opened Basics

  predicate IsDigit(c: char)
  {
    '0' <= c <= '9'
  }

  function Digit(n: nat): char
    requires n < 10
  {
    '0' + n as char
  }

  function Decimal(n: nat): (s: string)
    ensures s != [] && forall i :: 0 <= i < |s| ==> IsDigit(s[i])
  {
    if n < 10 then [Digit(n)] else Decimal(n / 10) + [Digit(n % 10)]
  }

  function ValueOf(s: string): int
  {
    if s == [] then 0 else 10 * ValueOf(Init(s)) + (Last(s) as int - '0' as int)
  }

  lemma {:induction false} DecimalReadsBack(n: nat)
    ensures ValueOf(Decimal(n)) == n
  {
    if n < 10 {
      assert ValueOf([Digit(n)]) == 10 * ValueOf([]) + n;
    } else {
      DecimalReadsBack(n / 10);
      assert Init(Decimal(n)) == Decimal(n / 10);
    }
  }

  function LeadingDigits(t: string): nat
  {
    if t == [] || !IsDigit(t[0]) then 0 else 1 + LeadingDigits(t[1..])
  }

  lemma {:induction false} DigitsLead(a: string, x: string)
    requires forall i :: 0 <= i < |a| ==> IsDigit(a[i])
    requires x == [] || !IsDigit(x[0])
    ensures LeadingDigits(a + x) == |a|
  {
    if a == [] {
      assert a + x == x;
    } else {
      DigitsLead(a[1..], x);
      assert (a + x)[0] == a[0] && (a + x)[1..] == a[1..] + x;
    }
  }

  /** The digits before a non-digit are determined by the text that contains them. */
  lemma NumeralsAgree(a: string, x: string, b: string, y: string)
    requires a + x == b + y
    requires forall i :: 0 <= i < |a| ==> IsDigit(a[i])
    requires forall i :: 0 <= i < |b| ==> IsDigit(b[i])
    requires (x == [] || !IsDigit(x[0])) && (y == [] || !IsDigit(y[0]))
    ensures a == b && x == y
  {
    var t := a + x;
    DigitsLead(a, x);
    DigitsLead(b, y);
    assert a == t[..|a|] && b == t[..|b|] && x == t[|a|..] && y == t[|b|..];
  }
}
