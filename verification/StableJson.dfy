/** The canonical text behind the fingerprint: two JSON values print the same exactly when they differ in key order and
    undefined fields at most. */
module StableJson {
  import opened Wrappers
  import opened JsonText
  import opened Sorting
  import Decimal

  /** A value as it sits in memory; fields keep their order, and a field may hold `undefined`. A number that does not
      print as a plain integer is the numeral the language prints for it, with a point or an exponent. */
  datatype Json =
    | JsonNull
    | JsonBool(value: bool)
    | JsonNumber(number: int)
    | JsonFraction(numeral: Text)
    | JsonString(text: Text)
    | JsonArray(items: seq<Json>)
    | JsonObject(fields: seq<Field>)

  datatype Field = Field(key: Text, content: Option<Json>)

  /** What the value means: fields have no order, and an undefined one is not there. */
  datatype Meaning =
    | Null
    | Bool(value: bool)
    | Number(number: int)
    | Fraction(numeral: Text)
    | String(text: Text)
    | List(items: seq<Meaning>)
    | Record(fields: map<Text, Meaning>)

  function MeaningOf(v: Json): Meaning {
    match v
    case JsonNull => Null
    case JsonBool(b) => Bool(b)
    case JsonNumber(n) => Number(n)
    case JsonFraction(numeral) => Fraction(numeral)
    case JsonString(s) => String(s)
    case JsonArray(items) => List(MeaningsOf(items))
    case JsonObject(fields) => Record(RecordOf(fields))
  }

  function MeaningsOf(items: seq<Json>): (r: seq<Meaning>)
    ensures |r| == |items|
  {
    if items == [] then [] else [MeaningOf(items[0])] + MeaningsOf(items[1..])
  }

  function RecordOf(fields: seq<Field>): map<Text, Meaning> {
    if fields == [] then map[]
    else if fields[0].content.None? then RecordOf(fields[1..])
    else RecordOf(fields[1..])[fields[0].key := MeaningOf(fields[0].content.value)]
  }

  predicate Digit(c: CodeUnit) {
    0x30 <= c <= 0x39
  }

  predicate NumberChar(c: CodeUnit) {
    Digit(c) || c in {0x2B, 0x2D, 0x2E, 0x65}
  }

  predicate AllNumberChars(t: Text) {
    forall i :: 0 <= i < |t| ==> NumberChar(t[i])
  }

  /** A numeral with a point or an exponent. */
  predicate FractionNumeral(t: Text) {
    && AllNumberChars(t)
    && t != [] && (Digit(t[0]) || t[0] == 0x2D)
    && (0x2E in t || 0x65 in t)
  }

  /** No object has a key twice. */
  predicate WellFormed(v: Json) {
    match v
    case JsonFraction(numeral) => FractionNumeral(numeral)
    case JsonArray(items) => forall i :: 0 <= i < |items| ==> WellFormed(items[i])
    case JsonObject(fields) =>
      && (forall i, j :: 0 <= i < j < |fields| ==> fields[i].key != fields[j].key)
      && (forall i :: 0 <= i < |fields| && fields[i].content.Some? ==> WellFormed(fields[i].content.value))
    case _ => true
  }

  // Printing.

  function Ascii(s: string): (t: Text)
    requires forall i :: 0 <= i < |s| ==> s[i] as int < 0x80
    ensures |t| == |s|
  {
    seq(|s|, i requires 0 <= i < |s| => s[i] as int)
  }

  function NumberText(n: int): Text {
    if n < 0 then [0x2D] + Ascii(Decimal.Digits(-n)) else Ascii(Decimal.Digits(n))
  }

  function Join(parts: seq<Text>): Text {
    if parts == [] then []
    else if |parts| == 1 then parts[0]
    else parts[0] + [0x2C] + Join(parts[1..])
  }

  datatype Entry = Entry(key: Text, text: Text)

  type KeyOrder = (Text, Text) -> bool

  function Before(leq: KeyOrder): (Entry, Entry) -> bool {
    (a: Entry, b: Entry) => leq(a.key, b.key)
  }

  function Line(e: Entry): Text {
    Quote(e.key) + [0x3A] + e.text
  }

  function Lines(entries: seq<Entry>): (r: seq<Text>)
    ensures |r| == |entries|
  {
    seq(|entries|, i requires 0 <= i < |entries| => Line(entries[i]))
  }

  /** The comparison looks at keys only, so entries may be printed before they are sorted. */
  function Print(v: Json, leq: KeyOrder): Text {
    match v
    case JsonNull => Ascii("null")
    case JsonBool(b) => if b then Ascii("true") else Ascii("false")
    case JsonNumber(n) => NumberText(n)
    case JsonFraction(numeral) => numeral
    case JsonString(s) => Quote(s)
    case JsonArray(items) => [0x5B] + Join(PrintAll(items, leq)) + [0x5D]
    case JsonObject(fields) => [0x7B] + Join(Lines(SortBy(Entries(fields, leq), Before(leq)))) + [0x7D]
  }

  function PrintAll(items: seq<Json>, leq: KeyOrder): (r: seq<Text>)
    ensures |r| == |items|
  {
    if items == [] then [] else [Print(items[0], leq)] + PrintAll(items[1..], leq)
  }

  /** The defined fields, in order. */
  function Entries(fields: seq<Field>, leq: KeyOrder): seq<Entry> {
    if fields == [] then []
    else if fields[0].content.None? then Entries(fields[1..], leq)
    else [Entry(fields[0].key, Print(fields[0].content.value, leq))] + Entries(fields[1..], leq)
  }

  // Where a printed value ends.

  /** Nothing that could prolong a number follows. */
  predicate Stops(t: Text) {
    t == [] || !NumberChar(t[0])
  }

  /** A numeral that goes on beyond `x` goes on in what follows `x`. */
  lemma RunGoesOn(x: Text, y: Text, a: Text, b: Text)
    requires AllNumberChars(y) && x + a == y + b && |x| < |y|
    ensures a != [] && NumberChar(a[0])
  {
    assert (x + a)[|x|] == y[|x|];
  }

  lemma SameRun(x: Text, y: Text, a: Text, b: Text)
    requires AllNumberChars(x) && AllNumberChars(y) && Stops(a) && Stops(b) && x + a == y + b
    ensures x == y && a == b
  {
    if |x| < |y| {
      RunGoesOn(x, y, a, b);
      assert false;
    }
    if |y| < |x| {
      RunGoesOn(y, x, b, a);
      assert false;
    }
    assert x == (x + a)[..|x|] && y == (y + b)[..|y|];
    assert a == (x + a)[|x|..] && b == (y + b)[|y|..];
  }

  lemma AsciiInjective(s: string, t: string)
    requires forall i :: 0 <= i < |s| ==> s[i] as int < 0x80
    requires forall i :: 0 <= i < |t| ==> t[i] as int < 0x80
    requires Ascii(s) == Ascii(t)
    ensures s == t
  {
    forall i | 0 <= i < |s|
      ensures s[i] == t[i]
    {
      assert Ascii(s)[i] == Ascii(t)[i];
    }
  }

  lemma NaturalText(n: nat)
    ensures var t := Ascii(Decimal.Digits(n)); t != [] && forall i :: 0 <= i < |t| ==> Digit(t[i])
  {
  }

  /** An integer prints as its own numeral: a sign perhaps, then digits. */
  lemma NumberShape(n: int)
    ensures var t := NumberText(n);
      && t != [] && AllNumberChars(t)
      && (if n < 0 then t[0] == 0x2D else Digit(t[0]))
      && (forall i :: 0 < i < |t| ==> Digit(t[i]))
  {
    hide Ascii;
    NaturalText(if n < 0 then -n else n);
  }

  lemma NumberInjective(m: int, n: int)
    requires NumberText(m) == NumberText(n)
    ensures m == n
  {
    hide Ascii;
    NumberShape(m);
    NumberShape(n);
    if m < 0 {
      assert NumberText(m)[1..] == Ascii(Decimal.Digits(-m)) && NumberText(n)[1..] == Ascii(Decimal.Digits(-n));
      AsciiInjective(Decimal.Digits(-m), Decimal.Digits(-n));
      Decimal.DigitsInjective(-m, -n);
    } else {
      AsciiInjective(Decimal.Digits(m), Decimal.Digits(n));
      Decimal.DigitsInjective(m, n);
    }
  }

  predicate Numeric(v: Json) {
    v.JsonNumber? || v.JsonFraction?
  }

  lemma NumeralShape(v: Json, leq: KeyOrder)
    requires Numeric(v) && WellFormed(v)
    ensures var t := Print(v, leq);
      && t != [] && AllNumberChars(t) && (Digit(t[0]) || t[0] == 0x2D)
      && (v.JsonFraction? <==> 0x2E in t || 0x65 in t)
  {
    hide NumberText;
    if v.JsonNumber? {
      NumberShape(v.number);
    }
  }

  lemma NumbersDecide(v: Json, w: Json, leq: KeyOrder, a: Text, b: Text)
    requires Numeric(v) && Numeric(w) && WellFormed(v) && WellFormed(w) && Stops(a) && Stops(b)
    requires Print(v, leq) + a == Print(w, leq) + b
    ensures v == w && a == b
  {
    hide NumberText, Stops, AllNumberChars;
    NumeralShape(v, leq);
    NumeralShape(w, leq);
    SameRun(Print(v, leq), Print(w, leq), a, b);
    if v.JsonNumber? {
      NumberInjective(v.number, w.number);
    }
  }

  const NUMBER_LEAD: set<CodeUnit> := {0x2D, 0x30, 0x31, 0x32, 0x33, 0x34, 0x35, 0x36, 0x37, 0x38, 0x39}

  /** The first code unit tells the kind of value. */
  function Lead(v: Json): (r: set<CodeUnit>) {
    match v
    case JsonNull => {0x6E}
    case JsonBool(b) => if b then {0x74} else {0x66}
    case JsonNumber(_) => NUMBER_LEAD
    case JsonFraction(_) => NUMBER_LEAD
    case JsonString(_) => {0x22}
    case JsonArray(_) => {0x5B}
    case JsonObject(_) => {0x7B}
  }

  lemma Leads(v: Json, leq: KeyOrder)
    requires WellFormed(v)
    ensures Print(v, leq) != [] && Print(v, leq)[0] in Lead(v)
  {
    if Numeric(v) {
      NumeralShape(v, leq);
    }
  }

  // The same text, the same meaning.

  /** What follows the first part, up to the end of the text. */
  function After(parts: seq<Text>, close: CodeUnit, rest: Text): Text
    requires parts != []
  {
    if |parts| == 1 then [close] + rest else [0x2C] + (Join(parts[1..]) + [close] + rest)
  }

  lemma Regroup(x: Text, comma: Text, more: Text, close: Text, rest: Text)
    ensures x + comma + more + close + rest == x + (comma + (more + close + rest))
  {
    assert x + comma + more + close + rest == x + comma + (more + close + rest);
  }

  lemma JoinSplits(parts: seq<Text>, close: CodeUnit, rest: Text)
    requires parts != []
    ensures Join(parts) + [close] + rest == parts[0] + After(parts, close, rest)
    ensures After(parts, close, rest) != [] && After(parts, close, rest)[0] == if |parts| == 1 then close else 0x2C
  {
    if |parts| == 1 {
      assert parts[0] + [close] + rest == parts[0] + ([close] + rest);
    } else {
      Regroup(parts[0], [0x2C], Join(parts[1..]), [close], rest);
    }
  }

  lemma TailsDecide(xs: seq<Text>, ys: seq<Text>, close: CodeUnit, a: Text, b: Text)
    requires xs != [] && ys != [] && close != 0x2C && After(xs, close, a) == After(ys, close, b)
    ensures |xs| == 1 <==> |ys| == 1
    ensures |xs| == 1 ==> a == b
    ensures |xs| > 1 ==> Join(xs[1..]) + [close] + a == Join(ys[1..]) + [close] + b
  {
    hide Join;
    assert After(xs, close, a)[0] == After(ys, close, b)[0];
    if |xs| == 1 {
      assert a == ([close] + a)[1..] && b == ([close] + b)[1..];
    } else {
      assert ([0x2C] + (Join(xs[1..]) + [close] + a))[1..] == Join(xs[1..]) + [close] + a;
      assert ([0x2C] + (Join(ys[1..]) + [close] + b))[1..] == Join(ys[1..]) + [close] + b;
    }
  }

  lemma {:induction false} PrintDecides(v: Json, w: Json, leq: KeyOrder, a: Text, b: Text)
    requires WellFormed(v) && WellFormed(w) && Stops(a) && Stops(b)
    requires Print(v, leq) + a == Print(w, leq) + b
    ensures MeaningOf(v) == MeaningOf(w) && a == b
    decreases v
  {
    hide Stops, SortBy, Join, Ascii, Quote, NumberText, RecordOf, MeaningsOf, Entries, PrintAll;
    Leads(v, leq);
    Leads(w, leq);
    assert (Print(v, leq) + a)[0] == (Print(w, leq) + b)[0];
    match v
    case JsonNull =>
      SamePrefix(Print(v, leq), a, b);
    case JsonBool(_) =>
      SamePrefix(Print(v, leq), a, b);
    case JsonNumber(_) =>
      NumbersDecide(v, w, leq, a, b);
    case JsonFraction(_) =>
      NumbersDecide(v, w, leq, a, b);
    case JsonString(s) =>
      QuotePrefixFree(s, w.text, a, b);
    case JsonArray(items) =>
      Unwrap(0x5B, Join(PrintAll(items, leq)), 0x5D, a);
      Unwrap(0x5B, Join(PrintAll(w.items, leq)), 0x5D, b);
      ItemsDecide(items, w.items, leq, a, b);
    case JsonObject(fields) =>
      Unwrap(0x7B, Join(Lines(SortBy(Entries(fields, leq), Before(leq)))), 0x7D, a);
      Unwrap(0x7B, Join(Lines(SortBy(Entries(w.fields, leq), Before(leq)))), 0x7D, b);
      FieldsDecide(fields, w.fields, leq, a, b);
  }

  lemma SamePrefix(x: Text, a: Text, b: Text)
    requires x + a == x + b
    ensures a == b
  {
    assert (x + a)[|x|..] == a && (x + b)[|x|..] == b;
  }

  lemma Unwrap(open: CodeUnit, inner: Text, close: CodeUnit, rest: Text)
    ensures ([open] + inner + [close] + rest)[1..] == inner + [close] + rest
  {
  }

  lemma {:induction false} ItemsDecide(xs: seq<Json>, ys: seq<Json>, leq: KeyOrder, a: Text, b: Text)
    requires forall i :: 0 <= i < |xs| ==> WellFormed(xs[i])
    requires forall i :: 0 <= i < |ys| ==> WellFormed(ys[i])
    requires Join(PrintAll(xs, leq)) + [0x5D] + a == Join(PrintAll(ys, leq)) + [0x5D] + b
    ensures MeaningsOf(xs) == MeaningsOf(ys) && a == b
    decreases xs
  {
    hide After, WellFormed, Print, Lead;
    var px, py := PrintAll(xs, leq), PrintAll(ys, leq);
    if xs == [] || ys == [] {
      EmptyDecides(xs, ys, leq, a, b);
      assert a == ([0x5D] + a)[1..] && b == ([0x5D] + b)[1..];
    } else {
      JoinSplits(px, 0x5D, a);
      JoinSplits(py, 0x5D, b);
      PrintDecides(xs[0], ys[0], leq, After(px, 0x5D, a), After(py, 0x5D, b));
      TailsDecide(px, py, 0x5D, a, b);
      if |xs| > 1 {
        assert px[1..] == PrintAll(xs[1..], leq) && py[1..] == PrintAll(ys[1..], leq);
        ItemsDecide(xs[1..], ys[1..], leq, a, b);
      } else {
        assert xs[1..] == [] && ys[1..] == [];
      }
    }
  }

  lemma NoParts(close: CodeUnit, rest: Text)
    ensures Join([]) + [close] + rest == [close] + rest
  {
    assert Join([]) == [];
  }

  lemma ItemsLead(xs: seq<Json>, leq: KeyOrder, rest: Text)
    requires xs != [] && WellFormed(xs[0])
    ensures (Join(PrintAll(xs, leq)) + [0x5D] + rest)[0] != 0x5D
  {
    hide After, Print, Join;
    JoinSplits(PrintAll(xs, leq), 0x5D, rest);
    Leads(xs[0], leq);
  }

  lemma EmptyDecides(xs: seq<Json>, ys: seq<Json>, leq: KeyOrder, a: Text, b: Text)
    requires (xs == [] || ys == []) && (xs != [] ==> WellFormed(xs[0])) && (ys != [] ==> WellFormed(ys[0]))
    requires Join(PrintAll(xs, leq)) + [0x5D] + a == Join(PrintAll(ys, leq)) + [0x5D] + b
    ensures xs == [] && ys == []
    ensures [0x5D] + a == [0x5D] + b
  {
    hide Print, Join;
    NoParts(0x5D, a);
    NoParts(0x5D, b);
    if xs != [] {
      ItemsLead(xs, leq, a);
      assert false;
    }
    if ys != [] {
      ItemsLead(ys, leq, b);
      assert false;
    }
  }

  /** Every entry is some defined field, printed. */
  ghost predicate From(fields: seq<Field>, entries: seq<Entry>, leq: KeyOrder) {
    forall e :: e in entries ==> HasField(fields, e, leq)
  }

  ghost predicate HasField(fields: seq<Field>, e: Entry, leq: KeyOrder) {
    exists j :: 0 <= j < |fields| && Prints(fields[j], e, leq)
  }

  predicate Prints(f: Field, e: Entry, leq: KeyOrder) {
    f.content.Some? && f.key == e.key && Print(f.content.value, leq) == e.text
  }

  predicate FieldsWellFormed(fields: seq<Field>) {
    && (forall i, j :: 0 <= i < j < |fields| ==> fields[i].key != fields[j].key)
    && (forall i :: 0 <= i < |fields| && fields[i].content.Some? ==> WellFormed(fields[i].content.value))
  }

  lemma {:induction false} EntriesDecide(fs: seq<Field>, gs: seq<Field>, xs: seq<Entry>, ys: seq<Entry>, leq: KeyOrder,
        a: Text, b: Text)
    requires FieldsWellFormed(fs) && FieldsWellFormed(gs) && From(fs, xs, leq) && From(gs, ys, leq)
    requires Join(Lines(xs)) + [0x7D] + a == Join(Lines(ys)) + [0x7D] + b
    ensures xs == ys && a == b
    decreases fs, |xs|
  {
    hide After, WellFormed, Print, Quote, Join;
    if xs == [] || ys == [] {
      EmptyEntries(xs, ys, a, b);
      assert a == ([0x7D] + a)[1..] && b == ([0x7D] + b)[1..];
    } else {
      var px, py := Lines(xs), Lines(ys);
      JoinSplits(px, 0x7D, a);
      JoinSplits(py, 0x7D, b);
      assert HasField(fs, xs[0], leq) && HasField(gs, ys[0], leq);
      var i :| 0 <= i < |fs| && Prints(fs[i], xs[0], leq);
      var j :| 0 <= j < |gs| && Prints(gs[j], ys[0], leq);
      LineSplits(xs[0], After(px, 0x7D, a));
      LineSplits(ys[0], After(py, 0x7D, b));
      QuotePrefixFree(xs[0].key, ys[0].key, [0x3A] + (xs[0].text + After(px, 0x7D, a)),
        [0x3A] + (ys[0].text + After(py, 0x7D, b)));
      SamePrefix([0x3A], xs[0].text + After(px, 0x7D, a), ys[0].text + After(py, 0x7D, b));
      PrintDecides(fs[i].content.value, gs[j].content.value, leq, After(px, 0x7D, a), After(py, 0x7D, b));
      SameTexts(xs[0].text, ys[0].text, After(px, 0x7D, a));
      TailsDecide(px, py, 0x7D, a, b);
      if |xs| > 1 {
        assert px[1..] == Lines(xs[1..]) && py[1..] == Lines(ys[1..]);
        FromTail(fs, xs, leq);
        FromTail(gs, ys, leq);
        EntriesDecide(fs, gs, xs[1..], ys[1..], leq, a, b);
        assert xs == [xs[0]] + xs[1..] && ys == [ys[0]] + ys[1..];
      }
    }
  }

  lemma FromTail(fs: seq<Field>, xs: seq<Entry>, leq: KeyOrder)
    requires From(fs, xs, leq) && xs != []
    ensures From(fs, xs[1..], leq)
  {
    hide HasField;
  }

  lemma SameTexts(x: Text, y: Text, rest: Text)
    requires x + rest == y + rest
    ensures x == y
  {
    assert |x| == |y|;
    assert x == (x + rest)[..|x|] && y == (y + rest)[..|y|];
  }

  lemma LineSplits(e: Entry, rest: Text)
    ensures Line(e) + rest == Quote(e.key) + ([0x3A] + (e.text + rest))
    ensures Line(e) != [] && Line(e)[0] == QUOTE
  {
  }

  lemma EntriesLead(xs: seq<Entry>, rest: Text)
    requires xs != []
    ensures (Join(Lines(xs)) + [0x7D] + rest)[0] == QUOTE
  {
    hide After, Line, Join;
    JoinSplits(Lines(xs), 0x7D, rest);
    LineSplits(xs[0], []);
  }

  lemma EmptyEntries(xs: seq<Entry>, ys: seq<Entry>, a: Text, b: Text)
    requires xs == [] || ys == []
    requires Join(Lines(xs)) + [0x7D] + a == Join(Lines(ys)) + [0x7D] + b
    ensures xs == [] && ys == []
    ensures [0x7D] + a == [0x7D] + b
  {
    hide Join, Line;
    NoParts(0x7D, a);
    NoParts(0x7D, b);
    assert Lines([]) == [];
    if xs != [] {
      EntriesLead(xs, a);
      assert false;
    }
    if ys != [] {
      EntriesLead(ys, b);
      assert false;
    }
  }

  lemma {:induction false} EntryHasField(fields: seq<Field>, leq: KeyOrder, e: Entry)
    requires e in Entries(fields, leq)
    ensures HasField(fields, e, leq)
  {
    hide Print;
    if fields[0].content.Some? && e == Entry(fields[0].key, Print(fields[0].content.value, leq)) {
      assert Prints(fields[0], e, leq);
    } else {
      EntryHasField(fields[1..], leq, e);
      var j :| 0 <= j < |fields[1..]| && Prints(fields[1..][j], e, leq);
      assert Prints(fields[j + 1], e, leq);
    }
  }

  lemma {:induction false} FieldHasEntry(fields: seq<Field>, leq: KeyOrder, j: nat)
    requires j < |fields| && fields[j].content.Some?
    ensures Entry(fields[j].key, Print(fields[j].content.value, leq)) in Entries(fields, leq)
  {
    hide Print;
    if j > 0 {
      FieldHasEntry(fields[1..], leq, j - 1);
    }
  }

  lemma {:induction false} RecordHolds(fields: seq<Field>, j: nat)
    requires j < |fields| && fields[j].content.Some?
    requires forall i, k :: 0 <= i < k < |fields| ==> fields[i].key != fields[k].key
    ensures fields[j].key in RecordOf(fields) && RecordOf(fields)[fields[j].key] == MeaningOf(fields[j].content.value)
  {
    hide MeaningOf;
    if j > 0 {
      RecordHolds(fields[1..], j - 1);
      assert fields[0].key != fields[j].key;
    }
  }

  lemma {:induction false} RecordOnly(fields: seq<Field>, key: Text)
    requires key in RecordOf(fields)
    ensures exists j :: 0 <= j < |fields| && fields[j].content.Some? && fields[j].key == key
  {
    hide MeaningOf;
    if !(fields[0].content.Some? && fields[0].key == key) {
      RecordOnly(fields[1..], key);
      var j :| 0 <= j < |fields[1..]| && fields[1..][j].content.Some? && fields[1..][j].key == key;
      assert fields[j + 1].key == key;
    }
  }

  lemma SortedFrom(fields: seq<Field>, leq: KeyOrder)
    ensures From(fields, SortBy(Entries(fields, leq), Before(leq)), leq)
    ensures forall e :: e in SortBy(Entries(fields, leq), Before(leq)) <==> e in Entries(fields, leq)
  {
    hide HasField, Entries;
    var entries := Entries(fields, leq);
    var sorted := SortBy(entries, Before(leq));
    SameElements(sorted, entries);
    forall e | e in sorted
      ensures HasField(fields, e, leq)
    {
      EntryHasField(fields, leq, e);
    }
  }

  lemma {:induction false} FieldsDecide(fs: seq<Field>, gs: seq<Field>, leq: KeyOrder, a: Text, b: Text)
    requires FieldsWellFormed(fs) && FieldsWellFormed(gs)
    requires Join(Lines(SortBy(Entries(fs, leq), Before(leq)))) + [0x7D] + a ==
      Join(Lines(SortBy(Entries(gs, leq), Before(leq)))) + [0x7D] + b
    ensures RecordOf(fs) == RecordOf(gs) && a == b
    decreases fs, |Entries(fs, leq)| + 1
  {
    hide Join, Lines, SortBy, Entries, RecordOf, Print, WellFormed, MeaningOf, Prints, From;
    SortedFrom(fs, leq);
    SortedFrom(gs, leq);
    EntriesDecide(fs, gs, SortBy(Entries(fs, leq), Before(leq)), SortBy(Entries(gs, leq), Before(leq)), leq, a, b);
    forall key | key in RecordOf(fs)
      ensures key in RecordOf(gs) && RecordOf(fs)[key] == RecordOf(gs)[key]
    {
      RecordOnly(fs, key);
      var i :| 0 <= i < |fs| && fs[i].content.Some? && fs[i].key == key;
      var j := Counterpart(fs, gs, leq, i);
      PrintDecides(fs[i].content.value, gs[j].content.value, leq, [], []);
      RecordHolds(fs, i);
      RecordHolds(gs, j);
    }
    forall key | key in RecordOf(gs)
      ensures key in RecordOf(fs)
    {
      RecordOnly(gs, key);
      var j :| 0 <= j < |gs| && gs[j].content.Some? && gs[j].key == key;
      var i := Counterpart(gs, fs, leq, j);
      RecordHolds(fs, i);
    }
  }

  lemma Counterpart(fs: seq<Field>, gs: seq<Field>, leq: KeyOrder, i: nat) returns (j: nat)
    requires i < |fs| && fs[i].content.Some?
    requires forall e :: e in Entries(fs, leq) <==> e in Entries(gs, leq)
    ensures j < |gs| && gs[j].content.Some? && gs[j].key == fs[i].key
    ensures Print(gs[j].content.value, leq) == Print(fs[i].content.value, leq)
  {
    hide Entries, Print;
    FieldHasEntry(fs, leq, i);
    var e := Entry(fs[i].key, Print(fs[i].content.value, leq));
    EntryHasField(gs, leq, e);
    j :| 0 <= j < |gs| && Prints(gs[j], e, leq);
  }

  // The same meaning, the same text.

  ghost predicate Antisymmetric(leq: KeyOrder) {
    forall a, b :: leq(a, b) && leq(b, a) ==> a == b
  }

  predicate Distinct(entries: seq<Entry>) {
    forall i, j :: 0 <= i < j < |entries| ==> entries[i].key != entries[j].key
  }

  lemma {:induction false} EntriesDistinct(fields: seq<Field>, leq: KeyOrder)
    requires FieldsWellFormed(fields)
    ensures Distinct(Entries(fields, leq))
  {
    hide Print, WellFormed;
    if fields != [] {
      EntriesDistinct(fields[1..], leq);
      var rest := Entries(fields[1..], leq);
      forall i | 0 <= i < |rest|
        ensures rest[i].key != fields[0].key
      {
        EntryHasField(fields[1..], leq, rest[i]);
        var j :| 0 <= j < |fields[1..]| && Prints(fields[1..][j], rest[i], leq);
        assert fields[j + 1] == fields[1..][j];
      }
    }
  }

  lemma {:induction false} MeaningDecides(v: Json, w: Json, leq: KeyOrder)
    requires WellFormed(v) && WellFormed(w) && TotalPreorder(leq) && Antisymmetric(leq)
    requires MeaningOf(v) == MeaningOf(w)
    ensures Print(v, leq) == Print(w, leq)
    decreases v
  {
    hide SortBy, Join, Ascii, Quote, NumberText, RecordOf, MeaningsOf, Entries, PrintAll, Antisymmetric, TotalPreorder;
    match v
    case JsonArray(items) =>
      AllPrintTheSame(items, w.items, leq);
    case JsonObject(fields) =>
      SameEntries(fields, w.fields, leq);
    case _ =>
  }

  lemma {:induction false} AllPrintTheSame(xs: seq<Json>, ys: seq<Json>, leq: KeyOrder)
    requires forall i :: 0 <= i < |xs| ==> WellFormed(xs[i])
    requires forall i :: 0 <= i < |ys| ==> WellFormed(ys[i])
    requires TotalPreorder(leq) && Antisymmetric(leq) && MeaningsOf(xs) == MeaningsOf(ys)
    ensures PrintAll(xs, leq) == PrintAll(ys, leq)
    decreases xs
  {
    hide MeaningOf, Print, WellFormed, TotalPreorder, Antisymmetric;
    assert |xs| == |MeaningsOf(xs)| == |MeaningsOf(ys)| == |ys|;
    if xs != [] {
      assert MeaningsOf(xs)[0] == MeaningsOf(ys)[0];
      assert MeaningsOf(xs[1..]) == MeaningsOf(xs)[1..] == MeaningsOf(ys)[1..] == MeaningsOf(ys[1..]);
      MeaningDecides(xs[0], ys[0], leq);
      AllPrintTheSame(xs[1..], ys[1..], leq);
    }
  }

  lemma {:induction false} SameEntries(fs: seq<Field>, gs: seq<Field>, leq: KeyOrder)
    requires FieldsWellFormed(fs) && FieldsWellFormed(gs) && RecordOf(fs) == RecordOf(gs)
    requires TotalPreorder(leq) && Antisymmetric(leq)
    ensures SortBy(Entries(fs, leq), Before(leq)) == SortBy(Entries(gs, leq), Before(leq))
    decreases fs
  {
    hide MeaningOf, Print, WellFormed, Entries, RecordOf, SortBy, TotalPreorder, Antisymmetric, NoTies;
    var xs, ys := Entries(fs, leq), Entries(gs, leq);
    forall e
      ensures e in xs <==> e in ys
    {
      if e in xs {
        EntryHasField(fs, leq, e);
        var i :| 0 <= i < |fs| && Prints(fs[i], e, leq);
        var j := SameField(fs, gs, i);
        MeaningDecides(fs[i].content.value, gs[j].content.value, leq);
        FieldHasEntry(gs, leq, j);
      }
      if e in ys {
        EntryHasField(gs, leq, e);
        var j :| 0 <= j < |gs| && Prints(gs[j], e, leq);
        var i := SameField(gs, fs, j);
        MeaningDecides(fs[i].content.value, gs[j].content.value, leq);
        FieldHasEntry(fs, leq, i);
      }
    }
    EntriesDistinct(fs, leq);
    EntriesDistinct(gs, leq);
    SameMembersSameBag(xs, ys);
    BeforeOrders(xs, leq);
    SortOrderIrrelevant(xs, ys, Before(leq));
  }

  lemma SameField(fs: seq<Field>, gs: seq<Field>, i: nat) returns (j: nat)
    requires FieldsWellFormed(fs) && FieldsWellFormed(gs) && RecordOf(fs) == RecordOf(gs)
    requires i < |fs| && fs[i].content.Some?
    ensures j < |gs| && gs[j].content.Some? && gs[j].key == fs[i].key
    ensures MeaningOf(gs[j].content.value) == MeaningOf(fs[i].content.value)
  {
    hide MeaningOf, WellFormed, RecordOf;
    RecordHolds(fs, i);
    RecordOnly(gs, fs[i].key);
    j :| 0 <= j < |gs| && gs[j].content.Some? && gs[j].key == fs[i].key;
    RecordHolds(gs, j);
  }

  lemma BeforeOrders(entries: seq<Entry>, leq: KeyOrder)
    requires TotalPreorder(leq) && Antisymmetric(leq) && Distinct(entries)
    ensures TotalPreorder(Before(leq)) && NoTies(entries, Before(leq))
  {
    var before := Before(leq);
    forall a, b
      ensures before(a, b) == leq(a.key, b.key)
    {
    }
  }

  // Main results.

  /** Whatever the key comparison, equal texts mean equal values. */
  lemma TextDeterminesMeaning(v: Json, w: Json, leq: KeyOrder)
    requires WellFormed(v) && WellFormed(w) && Print(v, leq) == Print(w, leq)
    ensures MeaningOf(v) == MeaningOf(w)
  {
    assert Print(v, leq) + [] == Print(w, leq) + [];
    PrintDecides(v, w, leq, [], []);
  }

  lemma FieldsOf(fields: seq<Field>)
    requires WellFormed(JsonObject(fields))
    ensures FieldsWellFormed(fields)
  {
  }

  lemma BeforeIsPreorder(leq: KeyOrder)
    requires TotalPreorder(leq)
    ensures TotalPreorder(Before(leq))
  {
    var before := Before(leq);
    forall a, b
      ensures before(a, b) == leq(a.key, b.key)
    {
    }
  }

  lemma DistinctSorted(entries: seq<Entry>, lines: seq<Entry>)
    requires Distinct(entries) && multiset(lines) == multiset(entries)
    ensures Distinct(lines)
  {
    PermutedNoRepeats(entries, lines);
    SameElements(lines, entries);
    forall i, j | 0 <= i < j < |lines|
      ensures lines[i].key != lines[j].key
    {
      assert lines[i] in entries && lines[j] in entries;
    }
  }

  /** An object prints its defined fields, each once, between braces and separated by commas, in ascending order of the
      keys. */
  lemma ObjectText(fields: seq<Field>, leq: KeyOrder) returns (lines: seq<Entry>)
    requires WellFormed(JsonObject(fields)) && TotalPreorder(leq)
    ensures Print(JsonObject(fields), leq) == [0x7B] + Join(Lines(lines)) + [0x7D]
    ensures forall i, j :: 0 <= i < j < |lines| ==> leq(lines[i].key, lines[j].key) && lines[i].key != lines[j].key
    ensures forall e :: e in lines <==> exists i :: 0 <= i < |fields| && Prints(fields[i], e, leq)
  {
    hide WellFormed, TotalPreorder, SortBy, Entries, Join, Lines;
    FieldsOf(fields);
    var entries := Entries(fields, leq);
    lines := SortBy(entries, Before(leq));
    BeforeIsPreorder(leq);
    SortBySorted(entries, Before(leq));
    SameElements(lines, entries);
    EntriesDistinct(fields, leq);
    DistinctSorted(entries, lines);
    forall i, j | 0 <= i < j < |lines|
      ensures leq(lines[i].key, lines[j].key)
    {
      assert Before(leq)(lines[i], lines[j]);
    }
    forall e
      ensures e in lines <==> exists i :: 0 <= i < |fields| && Prints(fields[i], e, leq)
    {
      if e in lines {
        EntryHasField(fields, leq, e);
      }
      if i :| 0 <= i < |fields| && Prints(fields[i], e, leq) {
        FieldHasEntry(fields, leq, i);
      }
    }
  }

  ghost predicate Canonical(leq: KeyOrder) {
    forall v, w :: WellFormed(v) && WellFormed(w) ==> (Print(v, leq) == Print(w, leq) <==> MeaningOf(v) == MeaningOf(w))
  }

  /** With a total order on keys the text is canonical. */
  lemma PrintIsCanonical(v: Json, w: Json, leq: KeyOrder)
    requires WellFormed(v) && WellFormed(w) && TotalPreorder(leq) && Antisymmetric(leq)
    ensures Print(v, leq) == Print(w, leq) <==> MeaningOf(v) == MeaningOf(w)
  {
    hide Print, MeaningOf, WellFormed, TotalPreorder, Antisymmetric;
    if Print(v, leq) == Print(w, leq) {
      TextDeterminesMeaning(v, w, leq);
    }
    if MeaningOf(v) == MeaningOf(w) {
      MeaningDecides(v, w, leq);
    }
  }

  function Pair(a: Text, b: Text): Json {
    JsonObject([Field(a, Some(JsonNull)), Field(b, Some(JsonNull))])
  }

  lemma PairMeans(a: Text, b: Text)
    requires a != b
    ensures WellFormed(Pair(a, b))
    ensures MeaningOf(Pair(a, b)) == Record(map[a := Null, b := Null])
  {
    var f, g := Field(a, Some(JsonNull)), Field(b, Some(JsonNull));
    assert [f, g][1..] == [g] && [g][1..] == [];
    assert RecordOf([]) == map[];
    assert RecordOf([g]) == map[b := Null];
    assert RecordOf([f, g]) == map[a := Null, b := Null];
  }

  lemma PairText(a: Text, b: Text, leq: KeyOrder)
    requires a != b && leq(a, b)
    ensures var n := Print(JsonNull, leq);
      Print(Pair(a, b), leq)[1..] == Join(Lines([Entry(a, n), Entry(b, n)])) + [0x7D] + []
    ensures From(Pair(a, b).fields, [Entry(a, Print(JsonNull, leq)), Entry(b, Print(JsonNull, leq))], leq)
  {
    hide Entries, Join, Lines, SortBy;
    PairEntries(a, b, leq);
    SortedFrom(Pair(a, b).fields, leq);
    var n := Print(JsonNull, leq);
    Unwrap(0x7B, Join(Lines([Entry(a, n), Entry(b, n)])), 0x7D, []);
    PairIsObject(a, b);
  }

  lemma PairIsObject(a: Text, b: Text)
    requires a != b
    ensures Pair(a, b).JsonObject? && FieldsWellFormed(Pair(a, b).fields)
  {
  }

  /** Two keys the comparison does not tell apart keep the order they came in. */
  lemma TiedKeysKeepOrder(a: Text, b: Text, leq: KeyOrder)
    requires a != b && leq(a, b) && leq(b, a)
    ensures WellFormed(Pair(a, b)) && WellFormed(Pair(b, a)) && MeaningOf(Pair(a, b)) == MeaningOf(Pair(b, a))
    ensures Print(Pair(a, b), leq) != Print(Pair(b, a), leq)
  {
    hide Print, Join, Lines, Pair, FieldsWellFormed, From, MeaningOf, WellFormed;
    PairMeans(a, b);
    PairMeans(b, a);
    PairText(a, b, leq);
    PairText(b, a, leq);
    PairIsObject(a, b);
    PairIsObject(b, a);
    var n := Print(JsonNull, leq);
    var xs, ys := [Entry(a, n), Entry(b, n)], [Entry(b, n), Entry(a, n)];
    assert xs[0] != ys[0];
    if Print(Pair(a, b), leq) == Print(Pair(b, a), leq) {
      EntriesDecide(Pair(a, b).fields, Pair(b, a).fields, xs, ys, leq, [], []);
      assert false;
    }
  }

  lemma PairEntries(a: Text, b: Text, leq: KeyOrder)
    requires leq(a, b)
    ensures var n := Print(JsonNull, leq);
      && Entries(Pair(a, b).fields, leq) == [Entry(a, n), Entry(b, n)]
      && SortBy(Entries(Pair(a, b).fields, leq), Before(leq)) == [Entry(a, n), Entry(b, n)]
  {
    hide Print;
    var n := Print(JsonNull, leq);
    var f, g := Field(a, Some(JsonNull)), Field(b, Some(JsonNull));
    assert Pair(a, b).fields == [f, g] && [f, g][1..] == [g] && [g][1..] == [];
    assert Entries([g], leq) == [Entry(b, n)];
    var x, y := Entry(a, n), Entry(b, n);
    assert [x, y][1..] == [y] && [y][1..] == [];
    assert SortBy([y], Before(leq)) == [y];
  }

  /** The text is canonical exactly when the comparison tells all keys apart. */
  lemma CanonicalExactly(leq: KeyOrder)
    requires TotalPreorder(leq)
    ensures Canonical(leq) <==> Antisymmetric(leq)
  {
    hide Print, MeaningOf, WellFormed, TotalPreorder, Pair;
    if Antisymmetric(leq) {
      forall v, w | WellFormed(v) && WellFormed(w)
        ensures Print(v, leq) == Print(w, leq) <==> MeaningOf(v) == MeaningOf(w)
      {
        PrintIsCanonical(v, w, leq);
      }
    }
    if a, b :| leq(a, b) && leq(b, a) && a != b {
      TiedKeysKeepOrder(a, b, leq);
    }
  }

}
