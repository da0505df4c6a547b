/** The java.lang.String and java.lang.Integer behaviour the modelled code relies on:
    prefix tests, ASCII case mapping, String.split with a one-character separator,
    trim, and decimal printing and parsing of 32-bit integers. */
module JavaText {
  import opened Wrappers

  const Int32Min: int := -0x8000_0000
  const Int32Max: int := 0x7FFF_FFFF

  /** A Java `int`. */
  type Int32 = n: int | Int32Min <= n <= Int32Max

  predicate StartsWith(s: string, prefix: string) {
    |prefix| <= |s| && s[..|prefix|] == prefix
  }

  // ---------------------------------------------------------------------------
  // Case mapping (ASCII letters only)

  function UpperChar(c: char): char {
    if 'a' <= c <= 'z' then (c as int - 32) as char else c
  }

  function LowerChar(c: char): char {
    if 'A' <= c <= 'Z' then (c as int + 32) as char else c
  }

  /** String.toUpperCase */
  function ToUpper(s: string): string {
    seq(|s|, i requires 0 <= i < |s| => UpperChar(s[i]))
  }

  /** String.toLowerCase */
  function ToLower(s: string): string {
    seq(|s|, i requires 0 <= i < |s| => LowerChar(s[i]))
  }

  /** A string that lower-casing leaves as it is: it has no upper-case letter. */
  predicate IsLowerCase(s: string) {
    forall i | 0 <= i < |s| :: !('A' <= s[i] <= 'Z')
  }

  /** Lower-casing an upper-cased label gives the label back exactly when the
      label had no upper-case letter to begin with. */
  lemma LowerOfUpper(s: string)
    ensures ToLower(ToUpper(s)) == s <==> IsLowerCase(s)
  {
    if ToLower(ToUpper(s)) == s {
      forall i | 0 <= i < |s| ensures !('A' <= s[i] <= 'Z') {
        assert ToLower(ToUpper(s))[i] == s[i];
      }
    }
  }

  // ---------------------------------------------------------------------------
  // Splitting and joining

  /** The pieces of `s` between occurrences of `sep`, every empty piece kept:
      always exactly one more piece than there are separators. */
  function SplitAll(s: string, sep: char): (pieces: seq<string>)
    ensures |pieces| >= 1
    decreases |s|
  {
    if s == [] then [""]
    else if s[0] == sep then [""] + SplitAll(s[1..], sep)
    else
      var rest := SplitAll(s[1..], sep);
      [[s[0]] + rest[0]] + rest[1..]
  }

  function DropTrailingEmpty(pieces: seq<string>): seq<string>
    decreases |pieces|
  {
    if pieces == [] then []
    else if pieces[|pieces| - 1] == "" then DropTrailingEmpty(pieces[..|pieces| - 1])
    else pieces
  }

  /** s.split(String.valueOf(sep)) with limit 0: a string without the separator is
      returned whole (so "" splits to [""]); otherwise the trailing empty pieces are
      removed (so "," splits to []). Leading and inner empty pieces are kept. */
  function Split(s: string, sep: char): seq<string> {
    if sep !in s then [s] else DropTrailingEmpty(SplitAll(s, sep))
  }

  function Join(pieces: seq<string>, sep: string): string
    decreases |pieces|
  {
    if pieces == [] then ""
    else if |pieces| == 1 then pieces[0]
    else pieces[0] + sep + Join(pieces[1..], sep)
  }

  lemma {:induction false} JoinFirst(x: string, pieces: seq<string>, sep: string)
    requires pieces != []
    ensures Join([x + pieces[0]] + pieces[1..], sep) == x + Join(pieces, sep)
  {
    var q := [x + pieces[0]] + pieces[1..];
    assert q[1..] == pieces[1..];
  }

  /** Joining the pieces with the separator gives the original string back. */
  lemma {:induction false} JoinSplitAll(s: string, sep: char)
    ensures Join(SplitAll(s, sep), [sep]) == s
    decreases |s|
  {
    if s == [] {
    } else if s[0] == sep {
      JoinSplitAll(s[1..], sep);
      var rest := SplitAll(s[1..], sep);
      var q := [""] + rest;
      assert q[1..] == rest;
      assert s == [sep] + s[1..];
    } else {
      JoinSplitAll(s[1..], sep);
      JoinFirst([s[0]], SplitAll(s[1..], sep), [sep]);
      assert s == [s[0]] + s[1..];
    }
  }

  /** No piece contains the separator. */
  lemma {:induction false} SplitAllPiecesHaveNoSeparator(s: string, sep: char)
    ensures forall p | p in SplitAll(s, sep) :: sep !in p
    decreases |s|
  {
    if s != [] {
      SplitAllPiecesHaveNoSeparator(s[1..], sep);
      var rest := SplitAll(s[1..], sep);
      if s[0] != sep {
        forall p | p in [[s[0]] + rest[0]] + rest[1..] ensures sep !in p {
          if p != [s[0]] + rest[0] {
            assert p in rest;
          } else {
            assert rest[0] in rest;
          }
        }
      }
    }
  }

  lemma {:induction false} DropTrailingEmptyIsPrefix(pieces: seq<string>)
    ensures var d := DropTrailingEmpty(pieces);
      |d| <= |pieces| && d == pieces[..|d|] && (d == [] || d[|d| - 1] != "")
    decreases |pieces|
  {
    if pieces != [] && pieces[|pieces| - 1] == "" {
      DropTrailingEmptyIsPrefix(pieces[..|pieces| - 1]);
    }
  }

  /** Only empty pieces are dropped from the end. */
  lemma {:induction false} DropTrailingEmptyDropsEmpty(pieces: seq<string>)
    ensures var d := DropTrailingEmpty(pieces);
      |d| <= |pieces| && forall i | |d| <= i < |pieces| :: pieces[i] == ""
    decreases |pieces|
  {
    if pieces != [] && pieces[|pieces| - 1] == "" {
      DropTrailingEmptyDropsEmpty(pieces[..|pieces| - 1]);
    }
  }

  /** Java's split: the labels are pieces of the input between separators, none of
      them contains the separator, and when the input contains the separator the
      last label kept is not empty. */
  lemma SplitProperties(s: string, sep: char)
    ensures forall p | p in Split(s, sep) :: sep !in p
    ensures sep !in s ==> Split(s, sep) == [s]
    ensures sep in s ==> Split(s, sep) == [] || Split(s, sep)[|Split(s, sep)| - 1] != ""
    ensures sep in s ==> |Split(s, sep)| <= |SplitAll(s, sep)| && Split(s, sep) == SplitAll(s, sep)[..|Split(s, sep)|]
    ensures sep in s ==> forall i | |Split(s, sep)| <= i < |SplitAll(s, sep)| :: SplitAll(s, sep)[i] == ""
  {
    SplitAllPiecesHaveNoSeparator(s, sep);
    DropTrailingEmptyIsPrefix(SplitAll(s, sep));
    DropTrailingEmptyDropsEmpty(SplitAll(s, sep));
    var d := Split(s, sep);
    if sep in s {
      forall p | p in d ensures sep !in p {
        var i :| 0 <= i < |d| && d[i] == p;
        assert p in SplitAll(s, sep);
      }
    }
  }

  // ---------------------------------------------------------------------------
  // String.trim

  function TrimStart(s: string): string
    decreases |s|
  {
    if s != [] && s[0] <= ' ' then TrimStart(s[1..]) else s
  }

  function TrimEnd(s: string): string
    decreases |s|
  {
    if s != [] && s[|s| - 1] <= ' ' then TrimEnd(s[..|s| - 1]) else s
  }

  /** String.trim: leading and trailing characters up to U+0020 removed. */
  function Trim(s: string): string {
    TrimEnd(TrimStart(s))
  }

  // ---------------------------------------------------------------------------
  // Decimal digits

  predicate IsDigit(c: char) {
    '0' <= c <= '9'
  }

  predicate AllDigits(s: string) {
    forall i | 0 <= i < |s| :: IsDigit(s[i])
  }

  function DigitValue(c: char): nat
    requires IsDigit(c)
  {
    c as int - '0' as int
  }

  function DigitChar(d: nat): char
    requires d < 10
  {
    ('0' as int + d) as char
  }

  /** The number a string of decimal digits denotes. */
  function DigitsValue(s: string): nat
    requires AllDigits(s)
    decreases |s|
  {
    if s == [] then 0 else DigitsValue(s[..|s| - 1]) * 10 + DigitValue(s[|s| - 1])
  }

  function NatToString(n: nat): string
    decreases n
  {
    if n < 10 then [DigitChar(n)] else NatToString(n / 10) + [DigitChar(n % 10)]
  }

  /** Integer.toString / String.valueOf(int): decimal, with a leading '-' when negative. */
  function IntToString(n: int): string {
    if n < 0 then "-" + NatToString(-n) else NatToString(n)
  }

  /** Integer.parseInt(s) for ASCII digits: an optional sign and at least one digit,
      within the range of a Java int; None stands for NumberFormatException. */
  function ParseInt(s: string): Option<Int32> {
    if s == [] then None
    else
      var digits := if s[0] == '-' || s[0] == '+' then s[1..] else s;
      if digits == [] || !AllDigits(digits) then None
      else
        var m: int := DigitsValue(digits);
        var v := if s[0] == '-' then -m else m;
        if Int32Min <= v <= Int32Max then Some(v) else None
  }

  lemma {:induction false} NatToStringDigits(n: nat)
    ensures var d := NatToString(n);
      d != [] && AllDigits(d) && DigitsValue(d) == n
    decreases n
  {
    if n >= 10 {
      NatToStringDigits(n / 10);
      var d := NatToString(n);
      assert d[..|d| - 1] == NatToString(n / 10);
    }
  }

  /** Integer.parseInt inverts Integer.toString on every Java int. */
  lemma ParseIntToString(n: Int32)
    ensures ParseInt(IntToString(n)) == Some(n)
  {
    var m: nat := if n < 0 then 0 - n as int else n as int;
    NatToStringDigits(m);
    if n < 0 {
      assert IntToString(n)[1..] == NatToString(m);
    }
  }

  /** Printed integers are made of digits and at most a leading minus sign. */
  lemma IntToStringChars(n: int)
    ensures var t := IntToString(n);
      t != [] && IsDigit(t[|t| - 1]) && (t[0] == '-' || IsDigit(t[0]))
      && forall i | 0 <= i < |t| :: t[i] == '-' || IsDigit(t[i])
  {
    NatToStringDigits(if n < 0 then -n else n);
  }

  lemma TrimIntToString(n: int)
    ensures Trim(IntToString(n)) == IntToString(n)
  {
    IntToStringChars(n);
  }

  // ---------------------------------------------------------------------------
  // (int) Double.parseDouble(s), for decimal literals

  function LeadingDigits(s: string): (d: string)
    ensures |d| <= |s| && d == s[..|d|] && AllDigits(d)
    ensures |d| < |s| ==> !IsDigit(s[|d|])
    decreases |s|
  {
    if s != [] && IsDigit(s[0]) then [s[0]] + LeadingDigits(s[1..]) else ""
  }

  /** The Java int cast of a double that holds an integral value: values beyond the
      int range saturate at its bounds. */
  function SaturateInt32(v: int): Int32 {
    if v < Int32Min then Int32Min else if v > Int32Max then Int32Max else v
  }

  /** `(int) Double.parseDouble(s)` for `s` that, once trimmed, is a decimal literal:
      an optional sign, digits, and optionally a '.' followed by digits, with at least
      one digit in all. The cast drops the fractional part (rounding toward zero) and
      saturates. None stands for NumberFormatException. */
  function DecimalIntValue(s: string): Option<Int32> {
    var t := Trim(s);
    if t == [] then None
    else
      var body := if t[0] == '-' || t[0] == '+' then t[1..] else t;
      var whole := LeadingDigits(body);
      var rest := body[|whole|..];
      var fraction := if rest != [] && rest[0] == '.' then rest[1..] else rest;
      if (rest != [] && rest[0] != '.') || !AllDigits(fraction) || |whole| + |fraction| == 0 then None
      else
        var m: int := DigitsValue(whole);
        Some(SaturateInt32(if t[0] == '-' then -m else m))
  }

  lemma {:induction false} LeadingDigitsOfDigits(s: string)
    requires AllDigits(s)
    ensures LeadingDigits(s) == s
    decreases |s|
  {
    if s != [] {
      LeadingDigitsOfDigits(s[1..]);
    }
  }

  /** A printed Java int reads back as the same int through parseDouble and intValue. */
  lemma DecimalIntValueOfDigits(t: string, d: string)
    requires Trim(t) == t && d != [] && AllDigits(d)
    requires t == d || t == "-" + d
    ensures var m: int := DigitsValue(d);
      DecimalIntValue(t) == Some(SaturateInt32(if t == d then m else -m))
  {
    LeadingDigitsOfDigits(d);
    assert IsDigit(d[0]);
    var body := if t[0] == '-' || t[0] == '+' then t[1..] else t;
    assert body == d;
    assert body[|d|..] == [];
  }

  /** A printed Java int reads back as the same int through parseDouble and intValue. */
  lemma DecimalIntValueOfIntToString(n: Int32)
    ensures DecimalIntValue(IntToString(n)) == Some(n)
  {
    TrimIntToString(n);
    var m: nat := if n < 0 then 0 - n as int else n as int;
    NatToStringDigits(m);
    DecimalIntValueOfDigits(IntToString(n), NatToString(m));
  }

  // ---------------------------------------------------------------------------
  // Locating a character

  /** The part of `s` before the first `c` (all of `s` when there is none). */
  function Before(s: string, c: char): (p: string)
    ensures |p| <= |s| && p == s[..|p|] && c !in p
    ensures |p| < |s| ==> s[|p|] == c
    decreases |s|
  {
    if s == [] || s[0] == c then "" else [s[0]] + Before(s[1..], c)
  }

  /** The part of `s` after the last `c` (all of `s` when there is none). */
  function AfterLast(s: string, c: char): (p: string)
    ensures |p| <= |s| && p == s[|s| - |p|..] && c !in p
    ensures |p| < |s| ==> s[|s| - |p| - 1] == c
    decreases |s|
  {
    if s == [] || s[|s| - 1] == c then "" else AfterLast(s[..|s| - 1], c) + [s[|s| - 1]]
  }

  lemma {:induction false} BeforeFirst(p: string, c: char, q: string)
    requires c !in p
    ensures Before(p + [c] + q, c) == p
    decreases |p|
  {
    if p != [] {
      assert (p + [c] + q)[1..] == p[1..] + [c] + q;
      BeforeFirst(p[1..], c, q);
    }
  }

  lemma {:induction false} AfterLastOf(p: string, c: char, q: string)
    requires c !in q
    ensures AfterLast(p + [c] + q, c) == q
    decreases |q|
  {
    var s := p + [c] + q;
    if q != [] {
      var q' := q[..|q| - 1];
      assert s[..|s| - 1] == p + [c] + q';
      AfterLastOf(p, c, q');
    }
  }
}
