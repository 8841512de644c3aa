/**
 * Decimal text of non-negative integers (what JavaScript's `String(n)` and
 * `parseInt` do for them) and the lexicographic order that JavaScript's `<`
 * applies to strings.
 */
module Decimal {

  function Pow10(n: nat): (p: nat)
    ensures p >= 1
  {
    if n == 0 then 1 else 10 * Pow10(n - 1)
  }

  predicate IsDigit(c: char) {
    '0' <= c <= '9'
  }

  predicate AllDigits(s: string) {
    forall i :: 0 <= i < |s| ==> IsDigit(s[i])
  }

  function DigitValue(c: char): int {
    c as int - '0' as int
  }

  function DigitChar(d: nat): (c: char)
    requires d < 10
    ensures IsDigit(c) && DigitValue(c) == d
  {
    (d + '0' as int) as char
  }

  /** The `n` decimal digits of `x`, most significant first, zero-padded on the left. */
  function Digits(x: nat, n: nat): (s: string)
    requires x < Pow10(n)
    ensures |s| == n
    decreases n
  {
    if n == 0 then "" else Digits(x / 10, n - 1) + [DigitChar(x % 10)]
  }

  lemma {:induction false} DigitsAreDigits(x: nat, n: nat)
    requires x < Pow10(n)
    ensures AllDigits(Digits(x, n))
    decreases n
  {
    if n > 0 {
      DigitsAreDigits(x / 10, n - 1);
    }
  }

  /** The number of decimal digits `String(n)` prints for `n`. */
  function Width(n: nat): (w: nat)
    ensures w >= 1 && n < Pow10(w)
  {
    if n < 10 then 1 else 1 + Width(n / 10)
  }

  /** `String(n)` for a non-negative integer: its decimal digits without leading zeros. */
  function NatText(n: nat): (s: string)
    ensures |s| >= 1
  {
    Digits(n, Width(n))
  }

  lemma NatTextDigits(n: nat)
    ensures AllDigits(NatText(n))
  {
    DigitsAreDigits(n, Width(n));
  }

  /** `parseInt` on a string made only of decimal digits: each digit shifts the value one place left. */
  function ParseDigits(s: string): int
    decreases |s|
  {
    if s == "" then 0 else 10 * ParseDigits(s[..|s| - 1]) + DigitValue(s[|s| - 1])
  }

  lemma {:induction false} ParseDigitsOfDigits(x: nat, n: nat)
    requires x < Pow10(n)
    ensures ParseDigits(Digits(x, n)) == x
    decreases n
  {
    if n > 0 {
      var s := Digits(x, n);
      assert s[..n - 1] == Digits(x / 10, n - 1);
      ParseDigitsOfDigits(x / 10, n - 1);
    }
  }

  /** Reading back the text of a number gives the number. */
  lemma NatTextRoundTrip(n: nat)
    ensures ParseDigits(NatText(n)) == n
  {
    ParseDigitsOfDigits(n, Width(n));
  }

  lemma NatTextInjective(a: nat, b: nat)
    ensures NatText(a) == NatText(b) <==> a == b
  {
    NatTextRoundTrip(a);
    NatTextRoundTrip(b);
  }

  /** JavaScript's `a < b` on strings: the first differing code unit decides, and a proper prefix comes first. */
  predicate LexLess(a: string, b: string)
    decreases |a|
  {
    |b| > 0 && (|a| == 0 || a[0] < b[0] || (a[0] == b[0] && LexLess(a[1..], b[1..])))
  }

  lemma {:induction false} LexIrreflexive(a: string)
    ensures !LexLess(a, a)
    decreases |a|
  {
    if |a| > 0 {
      LexIrreflexive(a[1..]);
    }
  }

  lemma {:induction false} LexAsymmetric(a: string, b: string)
    requires LexLess(a, b)
    ensures !LexLess(b, a)
    decreases |a|
  {
    if |a| > 0 && a[0] == b[0] {
      LexAsymmetric(a[1..], b[1..]);
    }
  }

  /** Comparing two strings that start with prefixes of equal length: the prefixes decide unless they are equal. */
  lemma {:induction false} LexAppend(p: string, q: string, s: string, t: string)
    requires |p| == |q|
    ensures LexLess(p + s, q + t) <==> LexLess(p, q) || (p == q && LexLess(s, t))
    decreases |p|
  {
    if |p| == 0 {
      assert p + s == s && q + t == t;
    } else {
      assert (p + s)[1..] == p[1..] + s;
      assert (q + t)[1..] == q[1..] + t;
      LexAppend(p[1..], q[1..], s, t);
      if p[0] == q[0] && p[1..] == q[1..] {
        assert p == q;
      }
    }
  }

  /** On zero-padded decimal texts of equal width, string order is numeric order. */
  lemma {:induction false} LexDigits(x: nat, y: nat, n: nat)
    requires x < Pow10(n) && y < Pow10(n)
    ensures LexLess(Digits(x, n), Digits(y, n)) <==> x < y
    decreases n
  {
    if n > 0 {
      var tx, ty := Digits(x / 10, n - 1), Digits(y / 10, n - 1);
      var cx, cy := DigitChar(x % 10), DigitChar(y % 10);
      LexAppend(tx, ty, [cx], [cy]);
      LexDigits(x / 10, y / 10, n - 1);
      DigitsInjective(x / 10, y / 10, n - 1);
      assert LexLess([cx], [cy]) <==> x % 10 < y % 10;
    }
  }

  /** Zero-padded texts of equal width are equal exactly when the numbers are. */
  lemma DigitsInjective(x: nat, y: nat, n: nat)
    requires x < Pow10(n) && y < Pow10(n)
    ensures Digits(x, n) == Digits(y, n) <==> x == y
  {
    ParseDigitsOfDigits(x, n);
    ParseDigitsOfDigits(y, n);
  }
}
