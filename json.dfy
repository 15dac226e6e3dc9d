/**
  The JSON literal encoding that `formatArgPair` applies to each argument
  value (`JSON.stringify`), restricted to the literals a query argument
  holds here: null, booleans, integers and strings.  A reading side (a
  lexer for one literal at the front of a text) is the partner of the
  encoder: every encoded literal reads back as itself.
 */
module Json {
  import opened Errors

  datatype Lit = Null | Bool(b: bool) | Int(i: int) | Str(s: string)

  // ---------------------------------------------------------------- digits

  predicate IsDigit(c: char) { '0' <= c <= '9' }

  function Digit(d: nat): (c: char)
    requires d < 10
    ensures IsDigit(c) && c as int - '0' as int == d
  {
    "0123456789"[d]
  }

  /** Decimal numeral of `n`: digits only, no leading zero except for 0 itself. */
  function NatToString(n: nat): (r: string)
    ensures |r| > 0
    ensures forall k :: 0 <= k < |r| ==> IsDigit(r[k])
    ensures r[0] == '0' ==> n == 0 && r == "0"
    decreases n
  {
    if n < 10 then [Digit(n)] else NatToString(n / 10) + [Digit(n % 10)]
  }

  /** The number a string of decimal digits denotes. */
  function DigitsValue(ds: string): nat
    requires forall k :: 0 <= k < |ds| ==> IsDigit(ds[k])
  {
    if ds == [] then 0
    else
      var last := ds[|ds| - 1];
      assert IsDigit(last);
      DigitsValue(ds[..|ds| - 1]) * 10 + (last as int - '0' as int)
  }

  lemma {:induction false} NatToStringValue(n: nat)
    ensures DigitsValue(NatToString(n)) == n
    decreases n
  {
    if n >= 10 {
      var r := NatToString(n);
      assert r[..|r| - 1] == NatToString(n / 10);
      NatToStringValue(n / 10);
    }
  }

  /** `Number.prototype.toString` on an integer value, which JSON.stringify uses. */
  function IntToString(i: int): string
  {
    if i < 0 then "-" + NatToString(-i) else NatToString(i)
  }

  // ---------------------------------------------------------------- strings

  function HexDigit(d: nat): char
    requires d < 16
  {
    "0123456789abcdef"[d]
  }

  /**
    How JSON.stringify writes one character inside a string literal: the
    quote and the backslash are escaped, the five control characters with a
    short escape use it, every other control character becomes `\u00xx`
    with lower-case hex digits, and everything else is written as it is.
   */
  function EscapeChar(c: char): (r: string)
    ensures |r| > 0
    ensures r[0] == '\\' <==> c == '"' || c == '\\' || c as int < 0x20
  {
    if c == '"' then ['\\', '"']
    else if c == '\\' then ['\\', '\\']
    else if c as int == 0x08 then ['\\', 'b']
    else if c as int == 0x09 then ['\\', 't']
    else if c as int == 0x0A then ['\\', 'n']
    else if c as int == 0x0C then ['\\', 'f']
    else if c as int == 0x0D then ['\\', 'r']
    else if c as int < 0x20 then ['\\', 'u', '0', '0', HexDigit(c as int / 16), HexDigit(c as int % 16)]
    else [c]
  }

  function Escape(s: string): string
  {
    if s == [] then [] else EscapeChar(s[0]) + Escape(s[1..])
  }

  function Quote(s: string): (r: string)
    ensures |r| >= 2 && r[0] == '"' && r[|r| - 1] == '"'
  {
    "\"" + Escape(s) + "\""
  }

  /** JSON.stringify of a literal. */
  function Encode(v: Lit): (r: string)
    ensures |r| > 0
    ensures v.Null? <==> r[0] == 'n'
    ensures v.Bool? <==> r[0] == 't' || r[0] == 'f'
    ensures v.Int? <==> r[0] == '-' || IsDigit(r[0])
    ensures v.Str? <==> r[0] == '"'
  {
    match v
    case Null => "null"
    case Bool(b) => if b then "true" else "false"
    case Int(i) => IntToString(i)
    case Str(s) => Quote(s)
  }

  // ---------------------------------------------------------------- reading

  predicate StartsWith(s: string, prefix: string)
  {
    |prefix| <= |s| && s[..|prefix|] == prefix
  }

  function HexValue(c: char): Option<nat>
  {
    if '0' <= c <= '9' then Some(c as int - '0' as int)
    else if 'a' <= c <= 'f' then Some(c as int - 'a' as int + 10)
    else if 'A' <= c <= 'F' then Some(c as int - 'A' as int + 10)
    else None
  }

  /** The longest prefix of decimal digits and what follows it. */
  function SplitDigits(s: string): (r: (string, string))
    ensures r.0 + r.1 == s
    ensures forall k :: 0 <= k < |r.0| ==> IsDigit(r.0[k])
    ensures r.1 == [] || !IsDigit(r.1[0])
  {
    if s == [] || !IsDigit(s[0]) then ([], s)
    else var t := SplitDigits(s[1..]); ([s[0]] + t.0, t.1)
  }

  /**
    One escape sequence, given the text after its backslash: the character
    it stands for and the remainder.  A `\u` escape naming a surrogate code
    unit is not read.
   */
  function ReadEscape(s: string): (r: Option<(char, string)>)
    ensures r.Some? ==> |r.value.1| < |s|
  {
    if s == [] then None
    else if s[0] == '"' || s[0] == '\\' || s[0] == '/' then Some((s[0], s[1..]))
    else if s[0] == 'b' then Some((0x08 as char, s[1..]))
    else if s[0] == 't' then Some((0x09 as char, s[1..]))
    else if s[0] == 'n' then Some((0x0A as char, s[1..]))
    else if s[0] == 'f' then Some((0x0C as char, s[1..]))
    else if s[0] == 'r' then Some((0x0D as char, s[1..]))
    else if s[0] == 'u' && |s| >= 5 then
      match (HexValue(s[1]), HexValue(s[2]), HexValue(s[3]), HexValue(s[4]))
      case (Some(a), Some(b), Some(c), Some(d)) =>
        var code := ((a * 16 + b) * 16 + c) * 16 + d;
        if 0xD800 <= code <= 0xDFFF then None else Some((code as char, s[5..]))
      case _ => None
    else None
  }

  /** The body of a string literal up to its closing quote, unescaped, and the remainder after that quote. */
  function ReadStringBody(s: string): (r: Option<(string, string)>)
    ensures r.Some? ==> |r.value.1| < |s|
    decreases |s|
  {
    if s == [] then None
    else if s[0] == '"' then Some(([], s[1..]))
    else if s[0] as int < 0x20 then None
    else if s[0] == '\\' then
      match ReadEscape(s[1..])
      case None => None
      case Some((c, rest)) =>
        match ReadStringBody(rest)
        case None => None
        case Some((t, after)) => Some(([c] + t, after))
    else
      match ReadStringBody(s[1..])
      case None => None
      case Some((t, after)) => Some(([s[0]] + t, after))
  }

  /** An optionally negative decimal integer without a superfluous leading zero. */
  function ReadInt(s: string): (r: Option<(int, string)>)
    ensures r.Some? ==> |r.value.1| < |s|
  {
    var negative := s != [] && s[0] == '-';
    var (ds, rest) := SplitDigits(if negative then s[1..] else s);
    if ds == [] || (|ds| > 1 && ds[0] == '0') then None
    else
      var value: int := DigitsValue(ds);
      Some((if negative then -value else value, rest))
  }

  /** One JSON literal at the front of `s`, and the text after it. */
  function ReadLit(s: string): (r: Option<(Lit, string)>)
    ensures r.Some? ==> |r.value.1| < |s|
  {
    if StartsWith(s, "null") then Some((Null, s[4..]))
    else if StartsWith(s, "true") then Some((Bool(true), s[4..]))
    else if StartsWith(s, "false") then Some((Bool(false), s[5..]))
    else if s != [] && s[0] == '"' then
      match ReadStringBody(s[1..])
      case None => None
      case Some((t, rest)) => Some((Str(t), rest))
    else
      match ReadInt(s)
      case None => None
      case Some((i, rest)) => Some((Int(i), rest))
  }

  /** A whole text that is exactly one literal. */
  function Decode(s: string): Option<Lit>
  {
    match ReadLit(s)
    case Some((v, rest)) => if rest == [] then Some(v) else None
    case None => None
  }

  // ---------------------------------------------------------------- round trip

  lemma {:induction false} SplitDigitsOfNumeral(ds: string, rest: string)
    requires forall k :: 0 <= k < |ds| ==> IsDigit(ds[k])
    requires rest == [] || !IsDigit(rest[0])
    ensures SplitDigits(ds + rest) == (ds, rest)
    decreases |ds|
  {
    if ds != [] {
      assert (ds + rest)[0] == ds[0] && (ds + rest)[1..] == ds[1..] + rest;
      SplitDigitsOfNumeral(ds[1..], rest);
      assert [ds[0]] + ds[1..] == ds;
    } else {
      assert ds + rest == rest;
    }
  }

  lemma ReadIntOfEncoded(i: int, rest: string)
    requires rest == [] || !IsDigit(rest[0])
    ensures ReadInt(IntToString(i) + rest) == Some((i, rest))
  {
    var n: nat := if i < 0 then -i else i;
    var ds := NatToString(n);
    NatToStringValue(n);
    SplitDigitsOfNumeral(ds, rest);
    if i < 0 {
      assert ("-" + ds + rest)[1..] == ds + rest;
    }
  }

  lemma {:induction false} ReadEscapedBody(s: string, rest: string)
    ensures ReadStringBody(Escape(s) + "\"" + rest) == Some((s, rest))
    decreases |s|
  {
    if s == [] {
      assert Escape(s) + "\"" + rest == "\"" + rest;
    } else {
      var c, e := s[0], EscapeChar(s[0]);
      var tail := Escape(s[1..]) + "\"" + rest;
      assert Escape(s) + "\"" + rest == e + tail;
      ReadEscapedBody(s[1..], rest);
      assert [c] + s[1..] == s;
      if e[0] == '\\' {
        ReadEscapedChar(c, tail);
        assert (e + tail)[1..] == e[1..] + tail;
      } else {
        assert e == [c];
        assert (e + tail)[1..] == tail;
      }
    }
  }

  /** The escape sequence written for `c`, read back after its backslash, gives `c`. */
  lemma ReadEscapedChar(c: char, tail: string)
    requires c == '"' || c == '\\' || c as int < 0x20
    ensures ReadEscape(EscapeChar(c)[1..] + tail) == Some((c, tail))
  {
    var e := EscapeChar(c)[1..] + tail;
    if c != '"' && c != '\\' && c as int != 0x08 && c as int != 0x09 && c as int != 0x0A
      && c as int != 0x0C && c as int != 0x0D
    {
      var hi, lo := c as int / 16, c as int % 16;
      assert e[..5] == ['u', '0', '0', HexDigit(hi), HexDigit(lo)];
      assert HexValue(HexDigit(hi)) == Some(hi);
      assert HexValue(HexDigit(lo)) == Some(lo);
      assert e[5..] == tail;
    }
  }

  lemma ReadEncodedInt(i: int, rest: string)
    requires rest == [] || !IsDigit(rest[0])
    ensures ReadLit(IntToString(i) + rest) == Some((Int(i), rest))
  {
    var s := IntToString(i) + rest;
    ReadIntOfEncoded(i, rest);
    assert s[0] == '-' || IsDigit(s[0]);
    assert !StartsWith(s, "null") && !StartsWith(s, "true") && !StartsWith(s, "false") by {
      assert s[0] != 'n' && s[0] != 't' && s[0] != 'f';
    }
  }

  lemma ReadEncodedStr(t: string, rest: string)
    ensures ReadLit(Quote(t) + rest) == Some((Str(t), rest))
  {
    var s := Quote(t) + rest;
    assert s[0] == '"' && s[1..] == Escape(t) + "\"" + rest;
    ReadEscapedBody(t, rest);
  }

  /** Every literal reads back as itself from the front of any text that does not continue it with a digit. */
  lemma ReadEncoded(v: Lit, rest: string)
    requires rest == [] || !IsDigit(rest[0])
    ensures ReadLit(Encode(v) + rest) == Some((v, rest))
  {
    var s := Encode(v) + rest;
    match v
    case Null =>
      assert s[..4] == "null";
    case Bool(b) =>
      if b { assert s[..4] == "true"; } else { assert s[..5] == "false"; assert s[0] == 'f'; }
    case Int(i) =>
      ReadEncodedInt(i, rest);
    case Str(t) =>
      ReadEncodedStr(t, rest);
  }

  /** JSON.stringify loses nothing: decoding an encoded literal gives it back, so distinct literals encode differently. */
  lemma DecodeEncode(v: Lit)
    ensures Decode(Encode(v)) == Some(v)
  {
    ReadEncoded(v, []);
    assert Encode(v) + [] == Encode(v);
  }

  lemma EncodeInjective(v: Lit, w: Lit)
    requires Encode(v) == Encode(w)
    ensures v == w
  {
    DecodeEncode(v);
    DecodeEncode(w);
  }
}
