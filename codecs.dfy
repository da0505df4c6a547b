/** Byte-level encodings the remote client puts on the wire: String.getBytes() with a
    UTF-8 default charset, java.util.Base64's basic encoder (RFC 4648 section 4),
    URLEncoder.encode(s, "utf-8") (the application/x-www-form-urlencoded form), and
    the escaping of JSON string contents. Each encoder comes with a decoder and a
    round-trip lemma. */
module Codecs {
  import opened Wrappers

  type Byte = b: int | 0 <= b < 256

  // ---------------------------------------------------------------------------
  // UTF-8

  function Utf8Char(c: char): (bs: seq<Byte>)
    ensures 1 <= |bs| <= 4
  {
    var v := c as int;
    if v < 0x80 then [v]
    else if v < 0x800 then [0xC0 + v / 64, 0x80 + v % 64]
    else if v < 0x1_0000 then [0xE0 + v / 4096, 0x80 + (v / 64) % 64, 0x80 + v % 64]
    else [0xF0 + v / 262144, 0x80 + (v / 4096) % 64, 0x80 + (v / 64) % 64, 0x80 + v % 64]
  }

  /** The UTF-8 encoding of a string. */
  function Utf8(s: string): seq<Byte>
    decreases |s|
  {
    if s == [] then [] else Utf8Char(s[0]) + Utf8(s[1..])
  }

  lemma {:induction false} Utf8Append(a: string, b: string)
    ensures Utf8(a + b) == Utf8(a) + Utf8(b)
    decreases |a|
  {
    if a != [] {
      assert (a + b)[0] == a[0];
      assert (a + b)[1..] == a[1..] + b;
      Utf8Append(a[1..], b);
      calc {
        Utf8(a + b);
        Utf8Char(a[0]) + Utf8(a[1..] + b);
        Utf8Char(a[0]) + (Utf8(a[1..]) + Utf8(b));
        (Utf8Char(a[0]) + Utf8(a[1..])) + Utf8(b);
        Utf8(a) + Utf8(b);
      }
    } else {
      assert a + b == b;
    }
  }

  predicate IsContinuation(b: Byte) {
    0x80 <= b < 0xC0
  }

  predicate IsScalar(v: int) {
    (0 <= v < 0xD800) || (0xE000 <= v < 0x11_0000)
  }

  /** Decodes one character from the front of `bs`: the character and the number of
      bytes it took, or None for an ill-formed sequence. */
  function Utf8DecodeChar(bs: seq<Byte>): Option<(char, nat)> {
    if bs == [] then None
    else
      var b0: int := bs[0];
      if b0 < 0x80 then Some((b0 as char, 1))
      else if 0xC0 <= b0 < 0xE0 && |bs| >= 2 && IsContinuation(bs[1]) then
        var v := (b0 - 0xC0) * 64 + (bs[1] as int - 0x80);
        if 0x80 <= v then Some((v as char, 2)) else None
      else if 0xE0 <= b0 < 0xF0 && |bs| >= 3 && IsContinuation(bs[1]) && IsContinuation(bs[2]) then
        var v := (b0 - 0xE0) * 4096 + (bs[1] as int - 0x80) * 64 + (bs[2] as int - 0x80);
        if 0x800 <= v && IsScalar(v) then Some((v as char, 3)) else None
      else if 0xF0 <= b0 < 0xF8 && |bs| >= 4 && IsContinuation(bs[1]) && IsContinuation(bs[2]) && IsContinuation(bs[3]) then
        var v := (b0 - 0xF0) * 262144 + (bs[1] as int - 0x80) * 4096 + (bs[2] as int - 0x80) * 64 + (bs[3] as int - 0x80);
        if 0x1_0000 <= v < 0x11_0000 then Some((v as char, 4)) else None
      else None
  }

  function Utf8Decode(bs: seq<Byte>): Option<string>
    decreases |bs|
  {
    if bs == [] then Some("")
    else match Utf8DecodeChar(bs)
      case None => None
      case Some((c, n)) =>
        if n == 0 || n > |bs| then None
        else match Utf8Decode(bs[n..])
          case None => None
          case Some(rest) => Some([c] + rest)
  }

  lemma Utf8DecodeTwo(c: char, rest: seq<Byte>)
    requires 0x80 <= c as int < 0x800
    ensures Utf8DecodeChar(Utf8Char(c) + rest) == Some((c, 2))
  {
    var v := c as int;
    assert Utf8Char(c) == [0xC0 + v / 64, 0x80 + v % 64];
    assert (v / 64) * 64 + v % 64 == v;
  }

  lemma Utf8DecodeThree(c: char, rest: seq<Byte>)
    requires 0x800 <= c as int < 0x1_0000
    ensures Utf8DecodeChar(Utf8Char(c) + rest) == Some((c, 3))
  {
    var v := c as int;
    var a := v / 64;
    assert Utf8Char(c) == [0xE0 + v / 4096, 0x80 + a % 64, 0x80 + v % 64];
    assert a * 64 + v % 64 == v;
    assert (a / 64) * 64 + a % 64 == a;
    assert v / 4096 == a / 64;
  }

  lemma Utf8DecodeFour(c: char, rest: seq<Byte>)
    requires 0x1_0000 <= c as int
    ensures Utf8DecodeChar(Utf8Char(c) + rest) == Some((c, 4))
  {
    var v := c as int;
    var a := v / 64;
    var b := a / 64;
    assert Utf8Char(c) == [0xF0 + v / 262144, 0x80 + (v / 4096) % 64, 0x80 + a % 64, 0x80 + v % 64];
    assert a * 64 + v % 64 == v;
    assert b * 64 + a % 64 == a;
    assert (b / 64) * 64 + b % 64 == b;
    assert v / 4096 == b;
    assert v / 262144 == b / 64;
  }

  lemma Utf8DecodeCharOf(c: char, rest: seq<Byte>)
    ensures Utf8DecodeChar(Utf8Char(c) + rest) == Some((c, |Utf8Char(c)|))
  {
    var v := c as int;
    if v < 0x80 {
    } else if v < 0x800 {
      Utf8DecodeTwo(c, rest);
    } else if v < 0x1_0000 {
      Utf8DecodeThree(c, rest);
    } else {
      Utf8DecodeFour(c, rest);
    }
  }

  /** UTF-8 decoding inverts UTF-8 encoding. */
  lemma {:induction false} Utf8RoundTrip(s: string)
    ensures Utf8Decode(Utf8(s)) == Some(s)
    decreases |s|
  {
    if s != [] {
      var e := Utf8Char(s[0]);
      var u := Utf8(s);
      assert u == e + Utf8(s[1..]);
      Utf8DecodeCharOf(s[0], Utf8(s[1..]));
      assert u[|e|..] == Utf8(s[1..]);
      Utf8RoundTrip(s[1..]);
      assert [s[0]] + s[1..] == s;
    }
  }

  // ---------------------------------------------------------------------------
  // Base64, RFC 4648 section 4 (standard alphabet, with padding)

  /** The character RFC 4648 Table 1 assigns to a 6-bit value. */
  function Base64Char(v: nat): char
    requires v < 64
  {
    if v < 26 then ('A' as int + v) as char
    else if v < 52 then ('a' as int + v - 26) as char
    else if v < 62 then ('0' as int + v - 52) as char
    else if v == 62 then '+'
    else '/'
  }

  function Base64Value(c: char): Option<nat> {
    if 'A' <= c <= 'Z' then Some(c as int - 'A' as int)
    else if 'a' <= c <= 'z' then Some(c as int - 'a' as int + 26)
    else if '0' <= c <= '9' then Some(c as int - '0' as int + 52)
    else if c == '+' then Some(62)
    else if c == '/' then Some(63)
    else None
  }

  function EncodeGroup(b0: Byte, b1: Byte, b2: Byte): string {
    [Base64Char(b0 / 4), Base64Char((b0 % 4) * 16 + b1 / 16),
     Base64Char((b1 % 16) * 4 + b2 / 64), Base64Char(b2 % 64)]
  }

  function EncodeTail1(b0: Byte): string {
    [Base64Char(b0 / 4), Base64Char((b0 % 4) * 16), '=', '=']
  }

  function EncodeTail2(b0: Byte, b1: Byte): string {
    [Base64Char(b0 / 4), Base64Char((b0 % 4) * 16 + b1 / 16), Base64Char((b1 % 16) * 4), '=']
  }

  /** Groups of three bytes (24 bits) become four characters of 6 bits each, most
      significant bits first; a final group of one or two bytes is filled with zero
      bits and padded with '=' (RFC 4648 section 4). */
  function Base64Encode(bs: seq<Byte>): string
    decreases |bs|
  {
    if |bs| == 0 then ""
    else if |bs| == 1 then EncodeTail1(bs[0])
    else if |bs| == 2 then EncodeTail2(bs[0], bs[1])
    else
      EncodeGroup(bs[0], bs[1], bs[2]) + Base64Encode(bs[3..])
  }

  /** Four characters without padding: three bytes. */
  function DecodeFull(q: string): Option<seq<Byte>>
    requires |q| == 4
  {
    var c0, c1, c2, c3 := Base64Value(q[0]), Base64Value(q[1]), Base64Value(q[2]), Base64Value(q[3]);
    if c0.None? || c1.None? || c2.None? || c3.None? then None
    else Some([c0.value * 4 + c1.value / 16, (c1.value % 16) * 16 + c2.value / 4, (c2.value % 4) * 64 + c3.value])
  }

  /** The final four characters, which may end in one or two '=': one to three bytes.
      Padded forms must have zero filler bits. */
  function DecodeLast(q: string): Option<seq<Byte>>
    requires |q| == 4
  {
    var c0, c1, c2 := Base64Value(q[0]), Base64Value(q[1]), Base64Value(q[2]);
    if q[2] == '=' && q[3] == '=' then
      if c0.None? || c1.None? || c1.value % 16 != 0 then None
      else Some([c0.value * 4 + c1.value / 16])
    else if q[3] == '=' then
      if c0.None? || c1.None? || c2.None? || c2.value % 4 != 0 then None
      else Some([c0.value * 4 + c1.value / 16, (c1.value % 16) * 16 + c2.value / 4])
    else DecodeFull(q)
  }

  function Base64Decode(s: string): Option<seq<Byte>>
    decreases |s|
  {
    if s == [] then Some([])
    else if |s| < 4 then None
    else if |s| == 4 then DecodeLast(s)
    else match DecodeFull(s[..4])
      case None => None
      case Some(group) =>
        match Base64Decode(s[4..])
        case None => None
        case Some(rest) => Some(group + rest)
  }

  lemma Base64ValueOfChar(v: nat)
    requires v < 64
    ensures Base64Value(Base64Char(v)) == Some(v) && Base64Char(v) != '='
  {
  }

  lemma Base64Bits(b0: Byte, b1: Byte, b2: Byte)
    ensures var c1 := (b0 % 4) * 16 + b1 / 16;
      var c2 := (b1 % 16) * 4 + b2 / 64;
      c1 < 64 && c2 < 64
      && (b0 / 4) * 4 + c1 / 16 == b0
      && (c1 % 16) * 16 + c2 / 4 == b1
      && (c2 % 4) * 64 + b2 % 64 == b2
  {
  }

  lemma DecodeGroup(b0: Byte, b1: Byte, b2: Byte)
    ensures DecodeFull(EncodeGroup(b0, b1, b2)) == Some([b0, b1, b2])
    ensures DecodeLast(EncodeGroup(b0, b1, b2)) == Some([b0, b1, b2])
  {
    var c0, c1, c2, c3 := b0 / 4, (b0 % 4) * 16 + b1 / 16, (b1 % 16) * 4 + b2 / 64, b2 % 64;
    Base64Bits(b0, b1, b2);
    var q := EncodeGroup(b0, b1, b2);
    assert q == [Base64Char(c0), Base64Char(c1), Base64Char(c2), Base64Char(c3)];
    Base64ValueOfChar(c0);
    Base64ValueOfChar(c1);
    Base64ValueOfChar(c2);
    Base64ValueOfChar(c3);
    assert DecodeFull(q) == Some([c0 * 4 + c1 / 16, (c1 % 16) * 16 + c2 / 4, (c2 % 4) * 64 + c3]);
    assert q[3] != '=';
  }

  lemma DecodeTail1(b0: Byte)
    ensures DecodeLast(EncodeTail1(b0)) == Some([b0])
  {
    Base64Bits(b0, 0, 0);
    Base64ValueOfChar(b0 / 4);
    Base64ValueOfChar((b0 % 4) * 16);
  }

  lemma DecodeTail2(b0: Byte, b1: Byte)
    ensures DecodeLast(EncodeTail2(b0, b1)) == Some([b0, b1])
  {
    Base64Bits(b0, b1, 0);
    Base64ValueOfChar(b0 / 4);
    Base64ValueOfChar((b0 % 4) * 16 + b1 / 16);
    Base64ValueOfChar((b1 % 16) * 4);
  }

  /** Base64 decoding inverts Base64 encoding. */
  lemma {:induction false} Base64RoundTrip(bs: seq<Byte>)
    ensures Base64Decode(Base64Encode(bs)) == Some(bs)
    decreases |bs|
  {
    if |bs| == 1 {
      DecodeTail1(bs[0]);
      assert bs == [bs[0]];
    } else if |bs| == 2 {
      DecodeTail2(bs[0], bs[1]);
      assert bs == [bs[0], bs[1]];
    } else if |bs| >= 3 {
      var e := Base64Encode(bs);
      var g := EncodeGroup(bs[0], bs[1], bs[2]);
      DecodeGroup(bs[0], bs[1], bs[2]);
      assert bs == [bs[0], bs[1], bs[2]] + bs[3..];
      if |bs| == 3 {
        assert Base64Encode(bs[3..]) == "";
        assert e == g + "" == g;
        assert bs == [bs[0], bs[1], bs[2]];
      } else {
        Base64RoundTrip(bs[3..]);
        assert e[..4] == g && e[4..] == Base64Encode(bs[3..]);
      }
    }
  }

  // ---------------------------------------------------------------------------
  // URLEncoder.encode(s, "utf-8")

  /** The characters URLEncoder leaves as they are. */
  predicate IsUnreserved(c: char) {
    ('a' <= c <= 'z') || ('A' <= c <= 'Z') || ('0' <= c <= '9') || c == '.' || c == '-' || c == '*' || c == '_'
  }

  function HexDigit(d: nat): char
    requires d < 16
  {
    if d < 10 then ('0' as int + d) as char else ('A' as int + d - 10) as char
  }

  function HexValue(c: char): Option<nat> {
    if '0' <= c <= '9' then Some(c as int - '0' as int)
    else if 'A' <= c <= 'F' then Some(c as int - 'A' as int + 10)
    else if 'a' <= c <= 'f' then Some(c as int - 'a' as int + 10)
    else None
  }

  lemma HexValueOfDigit(d: nat)
    requires d < 16
    ensures HexValue(HexDigit(d)) == Some(d)
  {
  }

  function PercentEncode(bs: seq<Byte>): string
    decreases |bs|
  {
    if bs == [] then "" else ['%', HexDigit(bs[0] / 16), HexDigit(bs[0] % 16)] + PercentEncode(bs[1..])
  }

  function FormEncodeChar(c: char): string {
    if IsUnreserved(c) then [c]
    else if c == ' ' then "+"
    else PercentEncode(Utf8Char(c))
  }

  /** URLEncoder.encode(s, "utf-8"): unreserved characters kept, space as '+', every
      other character as %XX escapes of its UTF-8 bytes, hex digits upper-case. */
  function FormEncode(s: string): string
    decreases |s|
  {
    if s == [] then "" else FormEncodeChar(s[0]) + FormEncode(s[1..])
  }

  /** URLDecoder at the byte level: the bytes a form-encoded string stands for. */
  function FormDecode(e: string): Option<seq<Byte>>
    decreases |e|
  {
    if e == [] then Some([])
    else
      var first: Option<(seq<Byte>, nat)> :=
        if e[0] == '%' then
          if |e| >= 3 && HexValue(e[1]).Some? && HexValue(e[2]).Some?
          then Some(([HexValue(e[1]).value * 16 + HexValue(e[2]).value], 3))
          else None
        else if e[0] == '+' then Some(([0x20], 1))
        else Some((Utf8Char(e[0]), 1));
      match first
      case None => None
      case Some((bs, n)) =>
        match FormDecode(e[n..])
        case None => None
        case Some(rest) => Some(bs + rest)
  }

  lemma {:induction false} FormDecodePercent(bs: seq<Byte>, rest: string)
    requires FormDecode(rest).Some?
    ensures FormDecode(PercentEncode(bs) + rest) == Some(bs + FormDecode(rest).value)
    decreases |bs|
  {
    if bs != [] {
      var e := PercentEncode(bs) + rest;
      assert e[3..] == PercentEncode(bs[1..]) + rest;
      HexValueOfDigit(bs[0] / 16);
      HexValueOfDigit(bs[0] % 16);
      assert e[0] == '%' && e[1] == HexDigit(bs[0] / 16) && e[2] == HexDigit(bs[0] % 16);
      assert (bs[0] / 16) * 16 + bs[0] % 16 == bs[0];
      FormDecodePercent(bs[1..], rest);
      assert bs + FormDecode(rest).value == [bs[0]] + (bs[1..] + FormDecode(rest).value);
    } else {
      assert PercentEncode(bs) + rest == rest;
      assert bs + FormDecode(rest).value == FormDecode(rest).value;
    }
  }

  lemma FormDecodeChar(c: char, rest: string)
    requires FormDecode(rest).Some?
    ensures FormDecode(FormEncodeChar(c) + rest) == Some(Utf8Char(c) + FormDecode(rest).value)
  {
    var e := FormEncodeChar(c) + rest;
    if IsUnreserved(c) || c == ' ' {
      assert e[1..] == rest;
    } else {
      FormDecodePercent(Utf8Char(c), rest);
    }
  }

  /** Decoding the form encoding gives back the UTF-8 bytes of the original text. */
  lemma {:induction false} FormRoundTrip(s: string)
    ensures FormDecode(FormEncode(s)) == Some(Utf8(s))
    decreases |s|
  {
    if s != [] {
      FormRoundTrip(s[1..]);
      FormDecodeChar(s[0], FormEncode(s[1..]));
    }
  }

  // ---------------------------------------------------------------------------
  // JSON string contents

  function JsonEscapeChar(c: char): string {
    if c == '\\' then "\\\\"
    else if c == '"' then "\\\""
    else if c == '\U{0008}' then "\\b"
    else if c == '\U{000C}' then "\\f"
    else if c == '\n' then "\\n"
    else if c == '\r' then "\\r"
    else if c == '\t' then "\\t"
    else [c]
  }

  /** The contents of a JSON string literal for `s`: backslash, double quote and the
      control characters \b \f \n \r \t written as two-character escapes. */
  function JsonEscape(s: string): string
    decreases |s|
  {
    if s == [] then "" else JsonEscapeChar(s[0]) + JsonEscape(s[1..])
  }

  function UnescapeChar(c: char): Option<char> {
    if c == '\\' then Some('\\')
    else if c == '"' then Some('"')
    else if c == 'b' then Some('\U{0008}')
    else if c == 'f' then Some('\U{000C}')
    else if c == 'n' then Some('\n')
    else if c == 'r' then Some('\r')
    else if c == 't' then Some('\t')
    else None
  }

  /** Reads the rest of a JSON string literal whose opening quote is already consumed:
      the decoded contents and what follows the closing quote. */
  function ReadJsonString(s: string): (r: Option<(string, string)>)
    ensures r.Some? ==> |r.value.1| < |s|
    decreases |s|
  {
    if s == [] then None
    else if s[0] == '"' then Some(("", s[1..]))
    else if s[0] == '\\' then
      if |s| < 2 || UnescapeChar(s[1]).None? then None
      else match ReadJsonString(s[2..])
        case None => None
        case Some((x, rest)) => Some(([UnescapeChar(s[1]).value] + x, rest))
    else match ReadJsonString(s[1..])
      case None => None
      case Some((x, rest)) => Some(([s[0]] + x, rest))
  }

  /** A two-character escape in front of a readable string literal is read back. */
  lemma ReadEscapePair(k: char, c: char, t: string)
    requires UnescapeChar(k) == Some(c) && ReadJsonString(t).Some?
    ensures ReadJsonString(['\\', k] + t) == Some(([c] + ReadJsonString(t).value.0, ReadJsonString(t).value.1))
  {
    assert (['\\', k] + t)[2..] == t;
  }

  /** A character written as itself in front of a readable string literal is read back. */
  lemma ReadPlainChar(c: char, t: string)
    requires c != '"' && c != '\\' && ReadJsonString(t).Some?
    ensures ReadJsonString([c] + t) == Some(([c] + ReadJsonString(t).value.0, ReadJsonString(t).value.1))
  {
    assert ([c] + t)[1..] == t;
  }

  /** One escaped character in front of a readable string literal is read back. */
  lemma ReadJsonStringStep(c: char, t: string)
    requires ReadJsonString(t).Some?
    ensures ReadJsonString(JsonEscapeChar(c) + t)
      == Some(([c] + ReadJsonString(t).value.0, ReadJsonString(t).value.1))
  {
    if c == '\\' {
      ReadEscapePair('\\', c, t);
    } else if c == '"' {
      ReadEscapePair('"', c, t);
    } else if c == '\U{0008}' {
      ReadEscapePair('b', c, t);
    } else if c == '\U{000C}' {
      ReadEscapePair('f', c, t);
    } else if c == '\n' {
      ReadEscapePair('n', c, t);
    } else if c == '\r' {
      ReadEscapePair('r', c, t);
    } else if c == '\t' {
      ReadEscapePair('t', c, t);
    } else {
      ReadPlainChar(c, t);
    }
  }

  /** Reading an escaped string up to its closing quote recovers the string and leaves
      exactly what followed. */
  lemma {:induction false} ReadJsonStringOfEscape(x: string, rest: string)
    ensures ReadJsonString(JsonEscape(x) + "\"" + rest) == Some((x, rest))
    decreases |x|
  {
    if x == [] {
      assert JsonEscape(x) + "\"" + rest == "\"" + rest;
    } else {
      var t := JsonEscape(x[1..]) + "\"" + rest;
      assert JsonEscape(x) + "\"" + rest == JsonEscapeChar(x[0]) + t;
      ReadJsonStringOfEscape(x[1..], rest);
      ReadJsonStringStep(x[0], t);
      assert x == [x[0]] + x[1..];
    }
  }
}
