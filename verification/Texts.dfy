/** The identifiers and texts the plans accept. */
module Texts {

  predicate LowerLetter(c: char) {
    'a' <= c <= 'z'
  }

  predicate UpperLetter(c: char) {
    'A' <= c <= 'Z'
  }

  predicate Numeral(c: char) {
    '0' <= c <= '9'
  }

  /** A lower-case letter or digit, then also dots, underscores and hyphens. */
  predicate SafeId(s: string, maximum: nat) {
    && 0 < |s| <= maximum
    && (LowerLetter(s[0]) || Numeral(s[0]))
    && forall c :: c in s ==> LowerLetter(c) || Numeral(c) || c in {'.', '_', '-'}
  }

  /** White space and line ends. */
  predicate Blank(c: char) {
    || '\t' <= c <= '\r' || c == ' '
    || c in {'\U{A0}', '\U{1680}', '\U{2028}', '\U{2029}', '\U{202F}', '\U{205F}', '\U{3000}', '\U{FEFF}'}
    || '\U{2000}' <= c <= '\U{200A}'
  }

  predicate Control(c: char) {
    c < ' ' || c == '\U{7F}'
  }

  /** Something to read, not too long, and no control characters. */
  predicate SafeText(s: string, maximum: nat) {
    && |s| <= maximum
    && (exists c :: c in s && !Blank(c))
    && forall c :: c in s ==> !Control(c)
  }

  // What framing plans accept.

  predicate Alphanumeric(c: char) {
    LowerLetter(c) || UpperLetter(c) || Numeral(c)
  }

  /** A letter or digit, then also dots, underscores, colons and hyphens. */
  predicate Identifier(s: string) {
    && 0 < |s| <= 256 && Alphanumeric(s[0])
    && forall c :: c in s ==> Alphanumeric(c) || c in {'.', '_', ':', '-'}
  }

  predicate Hexadecimal(s: string) {
    forall c :: c in s ==> Numeral(c) || 'a' <= c <= 'f'
  }

  predicate IsHash(s: string) {
    |s| == 64 && Hexadecimal(s)
  }

  function TrimStart(s: string): string {
    if s != "" && Blank(s[0]) then TrimStart(s[1..]) else s
  }

  function TrimEnd(s: string): string {
    if s != "" && Blank(s[|s| - 1]) then TrimEnd(s[..|s| - 1]) else s
  }

  function Trim(s: string): string {
    TrimEnd(TrimStart(s))
  }

  /** Something to read, and not too long. */
  predicate TextOk(s: string, maximum: nat) {
    Trim(s) != "" && |s| <= maximum
  }

  predicate AllBlank(s: string) {
    forall c :: c in s ==> Blank(c)
  }

  lemma {:induction false} StartTrimmed(s: string) returns (front: string)
    ensures s == front + TrimStart(s) && AllBlank(front)
    ensures TrimStart(s) != "" ==> !Blank(TrimStart(s)[0])
  {
    hide Blank;
    front := "";
    if s != "" && Blank(s[0]) {
      var rest := StartTrimmed(s[1..]);
      front := [s[0]] + rest;
      assert s == [s[0]] + s[1..];
    }
  }

  lemma {:induction false} EndTrimmed(s: string) returns (back: string)
    ensures s == TrimEnd(s) + back && AllBlank(back)
    ensures TrimEnd(s) != "" ==> !Blank(TrimEnd(s)[|TrimEnd(s)| - 1])
  {
    hide Blank;
    back := "";
    if s != "" && Blank(s[|s| - 1]) {
      var rest := EndTrimmed(s[..|s| - 1]);
      back := rest + [s[|s| - 1]];
      assert s == s[..|s| - 1] + [s[|s| - 1]];
    }
  }

  /** Trimming takes blanks off both ends and nothing else, and leaves none there. */
  lemma TrimTakesBlanks(s: string) returns (front: string, back: string)
    ensures s == front + Trim(s) + back && AllBlank(front) && AllBlank(back)
    ensures Trim(s) != "" ==> !Blank(Trim(s)[0]) && !Blank(Trim(s)[|Trim(s)| - 1])
  {
    hide Blank, AllBlank;
    front := StartTrimmed(s);
    back := EndTrimmed(TrimStart(s));
    var t := TrimStart(s);
    assert t == Trim(s) + back;
    if Trim(s) != "" {
      assert t[0] == Trim(s)[0];
    }
  }

  lemma NothingToTrim(s: string)
    requires s != "" && !Blank(s[0]) && !Blank(s[|s| - 1])
    ensures Trim(s) == s
  {
    hide Blank;
  }

  /** A text that ends visibly is not empty after trimming. */
  lemma {:induction false} SomethingLeft(s: string)
    requires s != "" && !Blank(s[|s| - 1])
    ensures Trim(s) != ""
  {
    hide Blank;
    if Blank(s[0]) {
      assert s[1..][|s[1..]| - 1] == s[|s| - 1];
      SomethingLeft(s[1..]);
    }
  }

  function Take(s: string, n: nat): string {
    if |s| <= n then s else s[..n]
  }

}
