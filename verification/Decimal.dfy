/** Decimal notation over character codes: the printer behind `String(n)` and `str(n)`, and its parser. */
module Decimal {

  predicate IsDigit(c: int) { '0' as int <= c <= '9' as int }

  predicate AllDigits(s: seq<int>) { forall i :: 0 <= i < |s| ==> IsDigit(s[i]) }

  function Digit(d: int): (c: int)
    requires 0 <= d < 10
    ensures IsDigit(c)
  {
    '0' as int + d
  }

  /** The shortest decimal spelling: no leading zero, except for zero itself. */
  function Print(n: nat): (s: seq<int>)
    ensures s != [] && AllDigits(s)
  {
    if n < 10 then [Digit(n)] else Print(n / 10) + [Digit(n % 10)]
  }

  /** The number a run of digits spells; leading zeros are allowed, the empty run is zero. */
  function Value(s: seq<int>): nat
    requires AllDigits(s)
  {
    if s == [] then 0 else 10 * Value(s[..|s| - 1]) + (s[|s| - 1] - '0' as int)
  }

  lemma {:induction false} ValueOfPrint(n: nat)
    ensures Value(Print(n)) == n
  {
    if n >= 10 {
      var s := Print(n);
      assert s[..|s| - 1] == Print(n / 10);
      ValueOfPrint(n / 10);
    }
  }

  lemma {:induction false} NoLeadingZero(n: nat)
    ensures n > 0 ==> Print(n)[0] != '0' as int
    ensures n == 0 ==> Print(n) == ['0' as int]
  {
    if n >= 10 { NoLeadingZero(n / 10); }
  }

  lemma PrintInjective(m: nat, n: nat)
    requires Print(m) == Print(n)
    ensures m == n
  {
    ValueOfPrint(m);
    ValueOfPrint(n);
  }

  function Pow10(k: nat): (p: nat)
    ensures p >= 1
  {
    if k == 0 then 1 else 10 * Pow10(k - 1)
  }

  lemma {:induction false} ValueConcat(a: seq<int>, b: seq<int>)
    requires AllDigits(a) && AllDigits(b)
    ensures AllDigits(a + b)
    ensures Value(a + b) == Value(a) * Pow10(|b|) + Value(b)
  {
    if b == [] {
      assert a + b == a;
    } else {
      var b' := b[..|b| - 1];
      assert (a + b)[..|a + b| - 1] == a + b';
      ValueConcat(a, b');
      TenTimes(Value(a), Pow10(|b'|));
    }
  }

  lemma TenTimes(v: nat, p: nat)
    ensures v * (10 * p) == 10 * (v * p)
  {
  }

  /** Length of the leading run of digits. */
  function Run(s: seq<int>): (k: nat)
    ensures k <= |s| && AllDigits(s[..k])
    ensures k < |s| ==> !IsDigit(s[k])
  {
    if s == [] || !IsDigit(s[0]) then 0
    else
      var k := Run(s[1..]);
      assert s[..1 + k] == [s[0]] + s[1..][..k];
      1 + k
  }

  /** A run of digits followed by a non-digit is found exactly. */
  lemma {:induction false} RunOfConcat(a: seq<int>, b: seq<int>)
    requires AllDigits(a) && (b == [] || !IsDigit(b[0]))
    ensures Run(a + b) == |a|
  {
    if a == [] {
      assert a + b == b;
    } else {
      assert (a + b)[1..] == a[1..] + b;
      RunOfConcat(a[1..], b);
    }
  }
}
