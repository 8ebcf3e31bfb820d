/**
 * The token layer of the stand-in for `encoding/json`: quoted strings with
 * `\"` and `\\` escapes, integers without superfluous leading zeros, and
 * literal separators. Each reader is proved to invert its writer and to
 * accept nothing else.
 */
module JsonCodec {
  import opened Wrappers
  import opened Decimal

  function EscapeChar(c: char): string {
    if c == '"' || c == '\\' then ['\\', c] else [c]
  }

  function Escape(s: string): string
    decreases |s|
  {
    if s == [] then [] else EscapeChar(s[0]) + Escape(s[1..])
  }

  /** A JSON string literal holding `s`. */
  function EncodeString(s: string): (t: string)
    ensures |t| >= 2 && t[0] == '"'
  {
    "\"" + Escape(s) + "\""
  }

  /** Reads an escaped string body up to its closing quote; returns the body and what follows the quote. */
  function ReadStringBody(s: string): Option<(string, string)>
    decreases |s|
  {
    if s == [] then None
    else if s[0] == '"' then Some(([], s[1..]))
    else if s[0] == '\\' then
      if |s| >= 2 && (s[1] == '"' || s[1] == '\\') then
        match ReadStringBody(s[2..])
        case None => None
        case Some(p) => Some(([s[1]] + p.0, p.1))
      else None
    else
      match ReadStringBody(s[1..])
      case None => None
      case Some(p) => Some(([s[0]] + p.0, p.1))
  }

  /** Reads a string literal at the front of `s`. */
  function DecodeString(s: string): Option<(string, string)> {
    if s != [] && s[0] == '"' then ReadStringBody(s[1..]) else None
  }

  lemma {:induction false} ReadEscaped(x: string, rest: string)
    ensures ReadStringBody(Escape(x) + ("\"" + rest)) == Some((x, rest))
    decreases |x|
  {
    var s := Escape(x) + ("\"" + rest);
    if x == [] {
      assert s == "\"" + rest;
      assert s[1..] == rest;
    } else {
      var c := x[0];
      ReadEscaped(x[1..], rest);
      assert s == EscapeChar(c) + (Escape(x[1..]) + ("\"" + rest));
      assert x == [c] + x[1..];
      if c == '"' || c == '\\' {
        assert s[2..] == Escape(x[1..]) + ("\"" + rest);
      } else {
        assert s[1..] == Escape(x[1..]) + ("\"" + rest);
      }
    }
  }

  /** Reading a written string literal gives back the string and leaves what follows it. */
  lemma DecodeEncodeString(x: string, rest: string)
    ensures DecodeString(EncodeString(x) + rest) == Some((x, rest))
  {
    var s := EncodeString(x) + rest;
    assert s[1..] == Escape(x) + ("\"" + rest);
    ReadEscaped(x, rest);
  }

  lemma {:induction false} ReadBodyIsEscaped(s: string)
    requires ReadStringBody(s).Some?
    ensures s == Escape(ReadStringBody(s).value.0) + ("\"" + ReadStringBody(s).value.1)
    decreases |s|
  {
    var body := ReadStringBody(s).value.0;
    var rest := ReadStringBody(s).value.1;
    if s[0] == '"' {
      assert body == [];
      assert s == "\"" + rest;
    } else if s[0] == '\\' {
      var p := ReadStringBody(s[2..]).value;
      ReadBodyIsEscaped(s[2..]);
      assert body == [s[1]] + p.0;
      assert body[1..] == p.0;
      assert s == [s[0], s[1]] + s[2..];
    } else {
      var p := ReadStringBody(s[1..]).value;
      ReadBodyIsEscaped(s[1..]);
      assert body == [s[0]] + p.0;
      assert body[1..] == p.0;
      assert s == [s[0]] + s[1..];
    }
  }

  /** Whatever the string reader accepts is a written string literal followed by the rest. */
  lemma DecodedStringIsEncoded(s: string)
    requires DecodeString(s).Some?
    ensures s == EncodeString(DecodeString(s).value.0) + DecodeString(s).value.1
  {
    ReadBodyIsEscaped(s[1..]);
    assert s == "\"" + s[1..];
  }

  /** Reads a maximal run of digits at the front of `s`, without superfluous leading zeros. */
  function DecodeNat(s: string): Option<(nat, string)> {
    var k := DigitRun(s);
    if Canonical(s[..k]) then Some((Value(s[..k]), s[k..])) else None
  }

  /**
   * Reads an integer at the front of `s`: an optional minus sign and a
   * natural number, without "-0".
   */
  function DecodeInt(s: string): Option<(int, string)> {
    if s != [] && s[0] == '-' then
      match DecodeNat(s[1..])
      case None => None
      case Some(p) => if p.0 == 0 then None else Some((-(p.0 as int), p.1))
    else
      match DecodeNat(s)
      case None => None
      case Some(p) => Some((p.0 as int, p.1))
  }

  /** Reading the digits of `m` gives back `m` when no digit follows them. */
  lemma DecodeDigits(m: nat, rest: string)
    requires rest == [] || !IsDigit(rest[0])
    ensures DecodeNat(Digits(m) + rest) == Some((m, rest))
  {
    var body := Digits(m) + rest;
    DigitRunOf(Digits(m), rest);
    ValueOfDigits(m);
    assert body[..|Digits(m)|] == Digits(m) && body[|Digits(m)|..] == rest;
  }

  lemma DecodeNegative(m: nat, rest: string)
    requires m > 0
    requires rest == [] || !IsDigit(rest[0])
    ensures DecodeInt("-" + (Digits(m) + rest)) == Some((-(m as int), rest))
  {
    DecodeDigits(m, rest);
    assert ("-" + (Digits(m) + rest))[1..] == Digits(m) + rest;
  }

  lemma DecodeNonNegative(m: nat, rest: string)
    requires rest == [] || !IsDigit(rest[0])
    ensures DecodeInt(Digits(m) + rest) == Some((m as int, rest))
  {
    DecodeDigits(m, rest);
    assert (Digits(m) + rest)[0] == Digits(m)[0];
  }

  /** Reading a written integer gives it back when no digit follows it. */
  lemma DecodeFormatInt(x: int, rest: string)
    requires rest == [] || !IsDigit(rest[0])
    ensures DecodeInt(FormatInt(x) + rest) == Some((x, rest))
  {
    if x < 0 {
      DecodeNegative(-x, rest);
      assert FormatInt(x) + rest == "-" + (Digits(-x) + rest);
    } else {
      DecodeNonNegative(x, rest);
    }
  }

  /** Whatever the natural reader accepts is the digits of the number followed by a non-digit or nothing. */
  lemma DecodedNatIsDigits(s: string)
    requires DecodeNat(s).Some?
    ensures s == Digits(DecodeNat(s).value.0) + DecodeNat(s).value.1
    ensures DecodeNat(s).value.1 == [] || !IsDigit(DecodeNat(s).value.1[0])
  {
    var k := DigitRun(s);
    DigitsOfValue(s[..k]);
    assert s == s[..k] + s[k..];
  }

  /** Whatever the integer reader accepts is a written integer followed by a non-digit or nothing. */
  lemma DecodedIntIsFormatted(s: string)
    requires DecodeInt(s).Some?
    ensures s == FormatInt(DecodeInt(s).value.0) + DecodeInt(s).value.1
    ensures DecodeInt(s).value.1 == [] || !IsDigit(DecodeInt(s).value.1[0])
  {
    if s != [] && s[0] == '-' {
      DecodedNatIsDigits(s[1..]);
      assert s == "-" + s[1..];
    } else {
      DecodedNatIsDigits(s);
    }
  }

  /** The rest of `s` after the literal `p`, if `s` starts with it. */
  function StripPrefix(p: string, s: string): (r: Option<string>)
    ensures r.Some? <==> p <= s
    ensures r.Some? ==> s == p + r.value
  {
    if p <= s then Some(s[|p|..]) else None
  }

  lemma StripWritten(p: string, x: string)
    ensures StripPrefix(p, p + x) == Some(x)
  {
    assert (p + x)[|p|..] == x;
  }
}
