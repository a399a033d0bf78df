/** Small facts about strings that the printer, the parser and the URL reader share. */
module Text {

  predicate Has(s: string, c: char) {
    exists i | 0 <= i < |s| :: s[i] == c
  }

  /** The index of the first `c`, or the length of the string. */
  function Find(s: string, c: char): (n: nat)
    ensures n <= |s|
    ensures n < |s| ==> s[n] == c
    ensures forall i | 0 <= i < n :: s[i] != c
  {
    if s == "" || s[0] == c then 0 else 1 + Find(s[1..], c)
  }

  lemma FindFirst(a: string, c: char, b: string)
    requires !Has(a, c)
    ensures Find(a + [c] + b, c) == |a|
  {
    var s := a + [c] + b;
    assert s[|a|] == c && forall i | 0 <= i < |a| :: s[i] == a[i];
  }

  lemma FindNone(a: string, c: char)
    requires !Has(a, c)
    ensures Find(a, c) == |a|
  {}

  lemma HasConcat(a: string, b: string, c: char)
    ensures Has(a + b, c) <==> Has(a, c) || Has(b, c)
  {
    if i :| 0 <= i < |a| && a[i] == c {
      assert (a + b)[i] == c;
    }
    if i :| 0 <= i < |b| && b[i] == c {
      assert (a + b)[|a| + i] == c;
    }
  }

  // ---------------------------------------------------------------- quotients

  lemma Monotone(p: nat, x: nat, y: nat)
    ensures x <= y ==> p * x <= p * y
  {}

  lemma QuotientOf(n: nat, p: nat, q: nat, r: nat)
    requires r < p && n == p * q + r
    ensures n / p == q
  {
    Monotone(p, n / p + 1, q);
    Monotone(p, q + 1, n / p);
  }

  lemma Remainder(v: nat, a: nat)
    requires a > 0
    ensures v == a * (v / a) + v % a && v % a < a
  {}

  lemma Regrouped(a: nat, p: nat, q: nat, r: nat, rest: nat)
    requires r < p && rest < a
    ensures a * (p * q + r) + rest == (a * p) * q + (a * r + rest)
    ensures a * r + rest < a * p
  {
    Monotone(a, r + 1, p);
  }

  /** Dividing by one number and then by another is dividing by their product. */
  lemma QuotientTwice(v: nat, a: nat, p: nat)
    requires a > 0 && p > 0
    ensures v / a / p == v / (a * p)
  {
    Remainder(v, a);
    Remainder(v / a, p);
    Split(v, a, p, v / a / p, v / a % p, v % a);
  }

  lemma Split(v: nat, a: nat, p: nat, q: nat, r: nat, rest: nat)
    requires r < p && rest < a && v == a * (p * q + r) + rest
    ensures a * p > 0 && v / (a * p) == q
  {
    Regrouped(a, p, q, r, rest);
    QuotientOf(v, a * p, q, a * r + rest);
  }

  // ---------------------------------------------------------------- decimal numbers

  predicate Digit(c: char) {
    '0' <= c <= '9'
  }

  predicate Digits(s: string) {
    forall i | 0 <= i < |s| :: Digit(s[i])
  }

  function DigitChar(d: nat): (c: char)
    requires d < 10
    ensures Digit(c) && c as int - '0' as int == d
  {
    ('0' as int + d) as char
  }

  /** %d of a number that is not negative. */
  function NatText(n: nat): (s: string)
    ensures s != "" && Digits(s)
    ensures s[0] == '0' ==> n == 0 && s == "0"
  {
    if n < 10 then [DigitChar(n)] else NatText(n / 10) + [DigitChar(n % 10)]
  }

  function NatOf(s: string): nat
    requires Digits(s)
  {
    if s == "" then 0 else 10 * NatOf(s[..|s| - 1]) + (s[|s| - 1] as int - '0' as int)
  }

  lemma {:induction false} NatTextRoundTrip(n: nat)
    ensures NatOf(NatText(n)) == n
  {
    if n < 10 {
      var s := NatText(n);
      assert s[..0] == "";
      assert NatOf(s) == 10 * NatOf("") + n;
    } else {
      NatTextRoundTrip(n / 10);
      var s := NatText(n);
      assert s[..|s| - 1] == NatText(n / 10);
    }
  }

  /** `width` decimal digits, with leading zeros. */
  function Padded(n: nat, width: nat): (s: string)
    ensures |s| == width && Digits(s)
  {
    if width == 0 then "" else Padded(n / 10, width - 1) + [DigitChar(n % 10)]
  }

  function Pow10(k: nat): (p: nat)
    ensures p > 0
  {
    if k == 0 then 1 else 10 * Pow10(k - 1)
  }

  lemma {:induction false} PaddedDigit(n: nat, width: nat, k: nat)
    requires k < width
    ensures Padded(n, width)[width - 1 - k] == DigitChar(n / Pow10(k) % 10)
  {
    if k > 0 {
      PaddedDigit(n / 10, width - 1, k - 1);
      QuotientTwice(n, 10, Pow10(k - 1));
    }
  }

  lemma {:induction false} PaddedRoundTrip(n: nat, width: nat)
    requires n < Pow10(width)
    ensures NatOf(Padded(n, width)) == n
  {
    if width != 0 {
      PaddedRoundTrip(n / 10, width - 1);
      var s := Padded(n, width);
      assert s[..|s| - 1] == Padded(n / 10, width - 1);
    }
  }

  // ---------------------------------------------------------------- hexadecimal numbers

  predicate HexDigit(c: char) {
    '0' <= c <= '9' || 'a' <= c <= 'f'
  }

  function HexChar(d: nat): (c: char)
    requires d < 16
    ensures HexDigit(c) && HexValue(c) == d
  {
    if d < 10 then ('0' as int + d) as char else ('a' as int + d - 10) as char
  }

  function HexValue(c: char): (d: nat)
    requires HexDigit(c)
    ensures d < 16
  {
    if c <= '9' then c as int - '0' as int else c as int - 'a' as int + 10
  }

  function HexText(n: nat, width: nat): (s: string)
    ensures |s| == width
    ensures forall i | 0 <= i < |s| :: HexDigit(s[i])
  {
    if width == 0 then "" else HexText(n / 16, width - 1) + [HexChar(n % 16)]
  }

  function HexOf(s: string): nat
    requires forall i | 0 <= i < |s| :: HexDigit(s[i])
  {
    if s == "" then 0 else 16 * HexOf(s[..|s| - 1]) + HexValue(s[|s| - 1])
  }

  function Pow16(k: nat): nat {
    if k == 0 then 1 else 16 * Pow16(k - 1)
  }

  lemma {:induction false} HexRoundTrip(n: nat, width: nat)
    requires n < Pow16(width)
    ensures HexOf(HexText(n, width)) == n
  {
    if width != 0 {
      HexRoundTrip(n / 16, width - 1);
      var s := HexText(n, width);
      assert s[..|s| - 1] == HexText(n / 16, width - 1);
    }
  }
}
