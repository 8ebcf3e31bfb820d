/**
 * Decimal text of natural numbers and integers: the digits that `%d`, `%05d`
 * and `strconv` read and write, and the proofs that formatting and reading
 * are inverse to each other.
 */
module Decimal {

  predicate IsDigit(c: char) {
    '0' <= c <= '9'
  }

  predicate AllDigits(s: string) {
    forall i :: 0 <= i < |s| ==> IsDigit(s[i])
  }

  /** A non-empty digit string without superfluous leading zeros. */
  predicate Canonical(s: string) {
    |s| >= 1 && AllDigits(s) && (s[0] == '0' ==> |s| == 1)
  }

  function DigitChar(d: nat): (c: char)
    requires d < 10
    ensures IsDigit(c)
  {
    (d + '0' as int) as char
  }

  function DigitValue(c: char): (d: nat)
    requires IsDigit(c)
    ensures d < 10 && DigitChar(d) == c
  {
    c as int - '0' as int
  }

  function Pow10(k: nat): (p: nat)
    ensures p >= 1
  {
    if k == 0 then 1 else 10 * Pow10(k - 1)
  }

  /** The shortest decimal text of `n`. */
  function Digits(n: nat): (s: string)
    ensures Canonical(s)
    ensures (s == "0") == (n == 0)
    decreases n
  {
    if n < 10 then [DigitChar(n)] else Digits(n / 10) + [DigitChar(n % 10)]
  }

  /** The number a digit string denotes; leading zeros contribute nothing. */
  function Value(s: string): nat
    requires AllDigits(s)
    decreases |s|
  {
    if s == [] then 0 else Value(s[..|s| - 1]) * 10 + DigitValue(s[|s| - 1])
  }

  /** `k` zero characters, the padding of `%0Nd`. */
  function Zeros(k: nat): (z: string)
    ensures |z| == k && AllDigits(z)
  {
    seq(k, i => '0')
  }

  /** `s` padded on the left with zeros to at least `width` characters. */
  function ZeroPad(s: string, width: nat): (p: string)
    ensures |p| == if |s| >= width then |s| else width
    decreases width
  {
    if |s| >= width then s else "0" + ZeroPad(s, width - 1)
  }

  lemma {:induction false} ZeroPadIsZeros(s: string, width: nat)
    ensures |s| < width ==> ZeroPad(s, width) == Zeros(width - |s|) + s
    ensures |s| >= width ==> ZeroPad(s, width) == s
    decreases width
  {
    if |s| < width {
      ZeroPadIsZeros(s, width - 1);
      assert "0" + Zeros(width - 1 - |s|) == Zeros(width - |s|);
    }
  }

  /** Reading back the digits of `n` yields `n`. */
  lemma {:induction false} ValueOfDigits(n: nat)
    ensures Value(Digits(n)) == n
    decreases n
  {
    if n >= 10 {
      var s := Digits(n);
      assert s[..|s| - 1] == Digits(n / 10);
      ValueOfDigits(n / 10);
    } else {
      assert Digits(n)[..0] == [];
    }
  }

  lemma {:induction false} PositiveValue(s: string)
    requires AllDigits(s) && |s| >= 1 && s[0] != '0'
    ensures Value(s) >= 1
    decreases |s|
  {
    if |s| > 1 {
      PositiveValue(s[..|s| - 1]);
    } else {
      assert s[..0] == [];
    }
  }

  /** Every canonical digit string is the text of the number it denotes. */
  lemma {:induction false} DigitsOfValue(s: string)
    requires Canonical(s)
    ensures Digits(Value(s)) == s
    decreases |s|
  {
    if |s| == 1 {
      assert s[..0] == [];
      assert s == [s[0]];
    } else {
      var p := s[..|s| - 1];
      assert Canonical(p);
      DigitsOfValue(p);
      PositiveValue(p);
      var v := Value(s);
      assert v / 10 == Value(p) && v % 10 == DigitValue(s[|s| - 1]);
      assert s == p + [s[|s| - 1]];
    }
  }

  /** Two numbers with the same text are equal. */
  lemma DigitsInjective(m: nat, n: nat)
    requires Digits(m) == Digits(n)
    ensures m == n
  {
    ValueOfDigits(m);
    ValueOfDigits(n);
  }

  lemma {:induction false} ValueOfZeros(k: nat)
    ensures Value(Zeros(k)) == 0
    decreases k
  {
    if k > 0 {
      assert Zeros(k)[..k - 1] == Zeros(k - 1);
      ValueOfZeros(k - 1);
    }
  }

  /** Zero padding on the left does not change the number a digit string denotes. */
  lemma {:induction false} ValueIgnoresLeadingZeros(k: nat, s: string)
    requires AllDigits(s)
    ensures AllDigits(Zeros(k) + s) && Value(Zeros(k) + s) == Value(s)
    decreases |s|
  {
    var t := Zeros(k) + s;
    if s == [] {
      assert t == Zeros(k);
      ValueOfZeros(k);
    } else {
      assert t[..|t| - 1] == Zeros(k) + s[..|s| - 1];
      ValueIgnoresLeadingZeros(k, s[..|s| - 1]);
    }
  }

  /** A number below 10^k has at most k digits. */
  lemma {:induction false} DigitsLength(n: nat, k: nat)
    requires 1 <= k && n < Pow10(k)
    ensures |Digits(n)| <= k
    decreases n
  {
    if n >= 10 {
      assert n / 10 < Pow10(k - 1);
      DigitsLength(n / 10, k - 1);
    }
  }

  /** The decimal text of an integer: a minus sign before the digits of a negative one. */
  function FormatInt(x: int): (s: string)
    ensures |s| >= 1
    ensures (s[0] == '-') == (x < 0)
    ensures x >= 0 ==> IsDigit(s[0])
  {
    if x < 0 then "-" + Digits(-x) else Digits(x)
  }

  /** The length of the longest all-digit prefix of `s`. */
  function DigitRun(s: string): (k: nat)
    ensures k <= |s| && AllDigits(s[..k])
    ensures k < |s| ==> !IsDigit(s[k])
    decreases |s|
  {
    if s == [] || !IsDigit(s[0]) then 0 else 1 + DigitRun(s[1..])
  }

  /** A digit string followed by a non-digit is exactly the digit run. */
  lemma {:induction false} DigitRunOf(d: string, rest: string)
    requires AllDigits(d)
    requires rest == [] || !IsDigit(rest[0])
    ensures DigitRun(d + rest) == |d|
    decreases |d|
  {
    if d != [] {
      assert (d + rest)[1..] == d[1..] + rest;
      DigitRunOf(d[1..], rest);
    } else {
      assert d + rest == rest;
    }
  }
}
