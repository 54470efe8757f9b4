/** Texts as sequences of UTF-16 code units, and strings quoted as section 7 of RFC 8259 has it. */
module JsonText {
  import opened Wrappers

  type CodeUnit = n: int | 0 <= n < 0x10000

  type Text = seq<CodeUnit>

  const QUOTE: CodeUnit := 0x22
  const BACKSLASH: CodeUnit := 0x5C

  predicate High(c: CodeUnit) {
    0xD800 <= c < 0xDC00
  }

  predicate Low(c: CodeUnit) {
    0xDC00 <= c < 0xE000
  }

  // Hexadecimal digits.

  function HexDigit(n: int): (c: CodeUnit)
    requires 0 <= n < 16
    ensures 0x30 <= c <= 0x39 || 0x61 <= c <= 0x66
  {
    if n < 10 then 0x30 + n else 0x61 + n - 10
  }

  function HexValue(c: CodeUnit): (n: Option<int>)
    ensures n.Some? ==> 0 <= n.value < 16
  {
    if 0x30 <= c <= 0x39 then Some(c - 0x30)
    else if 0x61 <= c <= 0x66 then Some(c - 0x61 + 10)
    else if 0x41 <= c <= 0x46 then Some(c - 0x41 + 10)
    else None
  }

  function UnicodeEscape(c: CodeUnit): Text {
    [BACKSLASH, 0x75, HexDigit(c / 0x1000), HexDigit(c / 0x100 % 16), HexDigit(c / 16 % 16), HexDigit(c % 16)]
  }

  // Writing.

  function Short(c: CodeUnit): Option<CodeUnit> {
    if c == 8 then Some(0x62)
    else if c == 9 then Some(0x74)
    else if c == 10 then Some(0x6E)
    else if c == 12 then Some(0x66)
    else if c == 13 then Some(0x72)
    else if c == QUOTE then Some(QUOTE)
    else if c == BACKSLASH then Some(BACKSLASH)
    else None
  }

  /** One code unit that is not part of a surrogate pair. */
  function Escape(c: CodeUnit): Text {
    if Short(c).Some? then [BACKSLASH, Short(c).value]
    else if c < 0x20 || High(c) || Low(c) then UnicodeEscape(c)
    else [c]
  }

  function Escaped(s: Text): Text {
    if s == [] then []
    else if |s| >= 2 && High(s[0]) && Low(s[1]) then s[..2] + Escaped(s[2..])
    else Escape(s[0]) + Escaped(s[1..])
  }

  function Quote(s: Text): Text {
    [QUOTE] + Escaped(s) + [QUOTE]
  }

  // Reading, by the grammar of the standard.

  function Unshort(c: CodeUnit): Option<CodeUnit> {
    if c == 0x62 then Some(8)
    else if c == 0x74 then Some(9)
    else if c == 0x6E then Some(10)
    else if c == 0x66 then Some(12)
    else if c == 0x72 then Some(13)
    else if c == QUOTE || c == BACKSLASH || c == 0x2F then Some(c)
    else None
  }

  /** One possibly escaped code unit, and what follows it. */
  function ReadUnit(t: Text): (r: Option<(CodeUnit, Text)>)
    requires t != []
    ensures r.Some? ==> |r.value.1| < |t|
  {
    if t[0] != BACKSLASH then (if t[0] < 0x20 || t[0] == QUOTE then None else Some((t[0], t[1..])))
    else if |t| < 2 then None
    else if t[1] != 0x75 then (if Unshort(t[1]).Some? then Some((Unshort(t[1]).value, t[2..])) else None)
    else if |t| < 6 then None
    else
      var a, b, c, d := HexValue(t[2]), HexValue(t[3]), HexValue(t[4]), HexValue(t[5]);
      if a.None? || b.None? || c.None? || d.None? then None
      else Some((a.value * 0x1000 + b.value * 0x100 + c.value * 16 + d.value, t[6..]))
  }

  /** The characters up to the closing quote, and what follows it. */
  function ReadRest(t: Text): Option<(Text, Text)>
    decreases |t|
  {
    if t == [] then None
    else if t[0] == QUOTE then Some(([], t[1..]))
    else
      var first := ReadUnit(t);
      if first.None? then None
      else
        var others := ReadRest(first.value.1);
        if others.None? then None else Some(([first.value.0] + others.value.0, others.value.1))
  }

  function Unquote(t: Text): Option<(Text, Text)> {
    if t == [] || t[0] != QUOTE then None else ReadRest(t[1..])
  }

  // Reading undoes writing.

  lemma HexDigits(c: CodeUnit)
    ensures var a, b, x, d := c / 0x1000, c / 0x100 % 16, c / 16 % 16, c % 16;
      0 <= a < 16 && a * 0x1000 + b * 0x100 + x * 16 + d == c
  {
  }

  lemma HexRoundTrip(n: int)
    requires 0 <= n < 16
    ensures HexValue(HexDigit(n)) == Some(n)
  {
  }

  lemma ReadEscape(c: CodeUnit, rest: Text)
    ensures Escape(c) != [] && Escape(c)[0] != QUOTE
    ensures ReadUnit(Escape(c) + rest) == Some((c, rest))
  {
    var t := Escape(c) + rest;
    if Short(c).Some? {
      assert t[2..] == rest;
    } else if c < 0x20 || High(c) || Low(c) {
      ReadUnicode(c, rest);
    } else {
      assert t[1..] == rest;
    }
  }

  lemma ReadUnicode(c: CodeUnit, rest: Text)
    ensures ReadUnit(UnicodeEscape(c) + rest) == Some((c, rest))
  {
    hide HexValue, HexDigit;
    var t := UnicodeEscape(c) + rest;
    HexDigits(c);
    HexRoundTrip(c / 0x1000);
    HexRoundTrip(c / 0x100 % 16);
    HexRoundTrip(c / 16 % 16);
    HexRoundTrip(c % 16);
    assert t[6..] == rest;
  }

  lemma {:induction false} ReadEscaped(s: Text, rest: Text)
    ensures ReadRest(Escaped(s) + [QUOTE] + rest) == Some((s, rest))
    decreases |s|
  {
    hide Escape, ReadUnit;
    var t := Escaped(s) + [QUOTE] + rest;
    if s == [] {
      assert t == [QUOTE] + rest;
    } else if |s| >= 2 && High(s[0]) && Low(s[1]) {
      var after := Escaped(s[2..]) + [QUOTE] + rest;
      ReadEscaped(s[2..], rest);
      assert t == [s[0]] + ([s[1]] + after);
      ReadRaw(s[0], [s[1]] + after);
      ReadRaw(s[1], after);
      assert s == [s[0]] + ([s[1]] + s[2..]);
    } else {
      var after := Escaped(s[1..]) + [QUOTE] + rest;
      ReadEscaped(s[1..], rest);
      assert t == Escape(s[0]) + after;
      ReadEscape(s[0], after);
      assert s == [s[0]] + s[1..];
    }
  }

  lemma ReadRaw(c: CodeUnit, rest: Text)
    requires High(c) || Low(c)
    ensures ReadUnit([c] + rest) == Some((c, rest))
  {
    assert ([c] + rest)[1..] == rest;
  }

  /** A quoted string reads back as it was, wherever it stands. */
  lemma QuoteRoundTrip(s: Text, rest: Text)
    ensures Unquote(Quote(s) + rest) == Some((s, rest))
  {
    ReadEscaped(s, rest);
    assert (Quote(s) + rest)[1..] == Escaped(s) + [QUOTE] + rest;
  }

  /** So no quoted string is the beginning of another. */
  lemma QuotePrefixFree(s: Text, t: Text, afterS: Text, afterT: Text)
    requires Quote(s) + afterS == Quote(t) + afterT
    ensures s == t && afterS == afterT
  {
    QuoteRoundTrip(s, afterS);
    QuoteRoundTrip(t, afterT);
  }

  // What is escaped, and what is not.

  /** Every high surrogate is followed by a low one, and no low one stands otherwise. */
  predicate Paired(t: Text) {
    if t == [] then true
    else if 0xD800 <= t[0] <= 0xDBFF then |t| >= 2 && 0xDC00 <= t[1] <= 0xDFFF && Paired(t[2..])
    else !(0xDC00 <= t[0] <= 0xDFFF) && Paired(t[1..])
  }

  /** Needs no escape on its own. */
  predicate Plain(c: CodeUnit) {
    0x20 <= c && c != 0x22 && c != 0x5C
  }

  lemma EscapeIsNoSurrogate(c: CodeUnit)
    ensures forall i :: 0 <= i < |Escape(c)| ==> !(0xD800 <= Escape(c)[i] <= 0xDFFF)
  {
  }

  lemma {:induction false} EscapedIsPaired(s: Text, rest: Text)
    requires Paired(rest)
    ensures Paired(Escaped(s) + rest)
    decreases |s|
  {
    if s == [] {
      assert Escaped(s) + rest == rest;
    } else {
      hide Escape, Escaped, Paired;
      var n := if |s| >= 2 && High(s[0]) && Low(s[1]) then 2 else 1;
      EscapedIsPaired(s[n..], rest);
      HeadIsPaired(s, rest);
    }
  }

  /** What the first unit, or the first pair, is escaped to keeps pairs together. */
  lemma HeadIsPaired(s: Text, rest: Text)
    requires s != []
    requires var n := if |s| >= 2 && High(s[0]) && Low(s[1]) then 2 else 1; Paired(Escaped(s[n..]) + rest)
    ensures Paired(Escaped(s) + rest)
  {
    hide Escape, Paired;
    if |s| >= 2 && High(s[0]) && Low(s[1]) {
      var after := Escaped(s[2..]) + rest;
      assert Escaped(s) + rest == [s[0], s[1]] + after;
      PairIsPaired(s[0], s[1], after);
    } else {
      var after := Escaped(s[1..]) + rest;
      assert Escaped(s) + rest == Escape(s[0]) + after;
      EscapeIsNoSurrogate(s[0]);
      PrefixIsPaired(Escape(s[0]), after);
    }
  }

  lemma PairIsPaired(high: CodeUnit, low: CodeUnit, rest: Text)
    requires High(high) && Low(low) && Paired(rest)
    ensures Paired([high, low] + rest)
  {
    assert ([high, low] + rest)[2..] == rest;
  }

  lemma {:induction false} PrefixIsPaired(t: Text, rest: Text)
    requires Paired(rest) && forall i :: 0 <= i < |t| ==> !(0xD800 <= t[i] <= 0xDFFF)
    ensures Paired(t + rest)
  {
    if t == [] {
      assert t + rest == rest;
    } else {
      PrefixIsPaired(t[1..], rest);
      assert (t + rest)[1..] == t[1..] + rest;
    }
  }

  /** A quoted string is well-formed text whatever was quoted: lone surrogates do not get through. */
  lemma QuoteIsPaired(s: Text)
    ensures Paired(Quote(s))
  {
    assert [QUOTE][1..] == [];
    EscapedIsPaired(s, [QUOTE]);
    assert Quote(s) == [QUOTE] + (Escaped(s) + [QUOTE]);
    assert Quote(s)[1..] == Escaped(s) + [QUOTE];
  }

  /** Escapes are as few and as short as can be: well-formed text without controls, quotes and backslashes stands for
      itself, and of the others seven have a letter or themselves after the backslash. */
  lemma {:induction false} PlainStandsForItself(s: Text)
    requires Paired(s) && forall i :: 0 <= i < |s| ==> Plain(s[i])
    ensures Escaped(s) == s
    decreases |s|
  {
    if s != [] {
      if 0xD800 <= s[0] <= 0xDBFF {
        PlainStandsForItself(s[2..]);
        assert s == s[..2] + s[2..];
      } else {
        PlainStandsForItself(s[1..]);
        assert s == [s[0]] + s[1..];
      }
    }
  }

  lemma EscapeLength(c: CodeUnit)
    ensures |Escape(c)| == if c in {8, 9, 10, 12, 13, 0x22, 0x5C} then 2
      else if Plain(c) && !(0xD800 <= c <= 0xDFFF) then 1 else 6
  {
  }

}
