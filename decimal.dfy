/**
 * Decimal text of natural numbers: what a template literal `${n}` or
 * `n.toFixed(0)` prints for a non-negative integer, a left pad in the manner
 * of `padStart`, and `parseInt(s, 10)` on a string of digits.
 */
module Decimal {

  function Max(a: nat, b: nat): nat { if a < b then b else a }

  function Pow10(k: nat): (p: nat)
    ensures p >= 1
  {
    if k == 0 then 1 else 10 * Pow10(k - 1)
  }

  lemma {:induction false} Pow10Monotone(i: nat, j: nat)
    requires i <= j
    ensures Pow10(i) <= Pow10(j)
  {
    if i < j {
      Pow10Monotone(i, j - 1);
    }
  }

  predicate IsDigit(c: char) { '0' <= c <= '9' }

  predicate AllDigits(s: string) { forall i :: 0 <= i < |s| ==> IsDigit(s[i]) }

  function DigitValue(c: char): (d: nat)
    requires IsDigit(c)
    ensures d < 10
  {
    c as int - '0' as int
  }

  function DigitChar(d: nat): (c: char)
    requires d < 10
    ensures IsDigit(c) && DigitValue(c) == d
  {
    ('0' as int + d) as char
  }

  /** `parseInt(s, 10)` on a string made only of digits, read left to right. */
  function Parse(s: string): nat
    requires AllDigits(s)
  {
    if s == [] then 0 else Parse(s[..|s| - 1]) * 10 + DigitValue(s[|s| - 1])
  }

  /** The decimal text of `n`, as `${n}` prints a non-negative integer. */
  function Show(n: nat): string {
    if n < 10 then [DigitChar(n)] else Show(n / 10) + [DigitChar(n % 10)]
  }

  /** `Show(n)` is a non-empty string of digits that parses back to `n`. */
  lemma {:induction false} ShowDigits(n: nat)
    ensures 1 <= |Show(n)| && AllDigits(Show(n))
    ensures Parse(Show(n)) == n
  {
    if n >= 10 {
      ShowDigits(n / 10);
      var s := Show(n);
      assert s[..|s| - 1] == Show(n / 10);
    }
  }

  /** `Show(n)` has exactly as many digits as the magnitude of `n` needs. */
  lemma {:induction false} ShowLength(n: nat)
    ensures n < Pow10(|Show(n)|)
    ensures 1 < |Show(n)| ==> Pow10(|Show(n)| - 1) <= n
  {
    if n >= 10 {
      ShowLength(n / 10);
    }
  }

  function Repeat(c: char, k: nat): (s: string)
    ensures |s| == k && forall i :: 0 <= i < k ==> s[i] == c
  {
    if k == 0 then [] else Repeat(c, k - 1) + [c]
  }

  /** Left-pads `s` with `fill` up to `width` characters; a longer `s` is kept as is. */
  function PadStart(s: string, width: nat, fill: char): (r: string)
    ensures |r| == Max(width, |s|)
    ensures r[|r| - |s|..] == s
    ensures forall i :: 0 <= i < |r| - |s| ==> r[i] == fill
  {
    if |s| >= width then s else Repeat(fill, width - |s|) + s
  }

  lemma {:induction false} ParseAppend(a: string, b: string)
    requires AllDigits(a) && AllDigits(b)
    ensures AllDigits(a + b)
    ensures Parse(a + b) == Parse(a) * Pow10(|b|) + Parse(b)
  {
    if b == [] {
      assert a + b == a;
    } else {
      var b' := b[..|b| - 1];
      var d := DigitValue(b[|b| - 1]);
      assert (a + b)[..|a + b| - 1] == a + b';
      ParseAppend(a, b');
      var x, y, q := Parse(a), Parse(b'), Pow10(|b'|);
      assert Parse(a + b) == (x * q + y) * 10 + d;
      assert Pow10(|b|) == 10 * q;
      ShiftByTen(x, q, y, d);
    }
  }

  lemma ShiftByTen(x: nat, q: nat, y: nat, d: nat)
    ensures (x * q + y) * 10 + d == x * (10 * q) + (y * 10 + d)
  {
  }

  lemma {:induction false} ParseZeros(k: nat)
    ensures AllDigits(Repeat('0', k)) && Parse(Repeat('0', k)) == 0
  {
    if k > 0 {
      ParseZeros(k - 1);
      var z := Repeat('0', k);
      assert z[..k - 1] == Repeat('0', k - 1);
      assert DigitValue(z[k - 1]) == 0;
    }
  }

  /** Leading zeros added by a pad do not change the parsed value. */
  lemma PadStartParse(s: string, width: nat)
    requires AllDigits(s)
    ensures AllDigits(PadStart(s, width, '0'))
    ensures Parse(PadStart(s, width, '0')) == Parse(s)
  {
    if |s| < width {
      ParseZeros(width - |s|);
      ParseAppend(Repeat('0', width - |s|), s);
    }
  }
}
