/**
 * JSON values and their compact text, as `JSON.stringify` prints them, over UTF-16 code units.
 * Strings are escaped as section 7 of RFC 8259 requires, and lone surrogates as well.
 */
module JsonText {
  import opened Common

  type Unit = u: int | 0 <= u < 0x1_0000
  type Text = seq<Unit>

  const QUOTE: Unit := 34
  const COMMA: Unit := 44
  const COLON: Unit := 58
  const OPEN_BRACKET: Unit := 91
  const BACKSLASH: Unit := 92
  const CLOSE_BRACKET: Unit := 93
  const OPEN_BRACE: Unit := 123
  const CLOSE_BRACE: Unit := 125

  const NULL: Text := [110, 117, 108, 108]
  const TRUE: Text := [116, 114, 117, 101]
  const FALSE: Text := [102, 97, 108, 115, 101]

  /** The units of a text in the basic plane. */
  function Units(s: string): Text
    requires forall i :: 0 <= i < |s| ==> s[i] as int < 0x1_0000
  {
    seq(|s|, i requires 0 <= i < |s| => s[i] as int)
  }

  datatype Entry<+T> = Entry(key: Text, value: T)

  /** A number is the text JavaScript prints for it; an object lists its fields in its own order. */
  datatype Json =
    | Null
    | Bool(b: bool)
    | Num(lexeme: Text)
    | Str(s: Text)
    | Arr(items: seq<Json>)
    | Obj(fields: seq<Entry<Json>>)

  predicate IsDigit(u: Unit) {
    48 <= u <= 57
  }

  /** Digits, sign, point and exponent. */
  predicate InNumber(u: Unit) {
    IsDigit(u) || u == 43 || u == 45 || u == 46 || u == 69 || u == 101
  }

  predicate NumberLexeme(t: Text) {
    t != [] && (IsDigit(t[0]) || t[0] == 45) && forall i :: 0 <= i < |t| ==> InNumber(t[i])
  }

  /** Numbers are printed numbers. */
  predicate Printable(v: Json) {
    match v
    case Num(lexeme) => NumberLexeme(lexeme)
    case Arr(items) => forall i :: 0 <= i < |items| ==> Printable(items[i])
    case Obj(fields) => forall i :: 0 <= i < |fields| ==> Printable(fields[i].value)
    case _ => true
  }

  // ----- strings ---------------------------------------------------------------------------

  predicate HighSurrogate(u: Unit) { 0xD800 <= u <= 0xDBFF }

  predicate LowSurrogate(u: Unit) { 0xDC00 <= u <= 0xDFFF }

  function HexDigit(d: int): Unit
    requires 0 <= d < 16
  {
    if d < 10 then 48 + d else 87 + d
  }

  function Hex4(u: Unit): Text {
    [HexDigit(u / 16 / 16 / 16), HexDigit(u / 16 / 16 % 16), HexDigit(u / 16 % 16), HexDigit(u % 16)]
  }

  /** The letter of the two-unit escape of `u`, if it has one. */
  function ShortEscape(u: Unit): Option<Unit> {
    if u == QUOTE then Some(QUOTE)
    else if u == BACKSLASH then Some(BACKSLASH)
    else if u == 8 then Some(98)
    else if u == 9 then Some(116)
    else if u == 10 then Some(110)
    else if u == 12 then Some(102)
    else if u == 13 then Some(114)
    else None
  }

  function EscapeUnit(u: Unit): Text {
    if ShortEscape(u).Some? then [BACKSLASH, ShortEscape(u).value]
    else if u < 32 || HighSurrogate(u) || LowSurrogate(u) then [BACKSLASH, 117] + Hex4(u)
    else [u]
  }

  /** A surrogate pair is printed as it is; everything else unit by unit. */
  function Escape(s: Text): Text {
    if s == [] then []
    else if |s| >= 2 && HighSurrogate(s[0]) && LowSurrogate(s[1]) then [s[0]] + ([s[1]] + Escape(s[2..]))
    else EscapeUnit(s[0]) + Escape(s[1..])
  }

  function Quote(s: Text): Text {
    [QUOTE] + (Escape(s) + [QUOTE])
  }

  function HexValue(u: Unit): Option<int> {
    if IsDigit(u) then Some(u - 48) else if 97 <= u <= 102 then Some(u - 87) else None
  }

  function Hex4Value(t: Text): Option<Unit>
    requires |t| == 4
  {
    var a, b, c, d := HexValue(t[0]), HexValue(t[1]), HexValue(t[2]), HexValue(t[3]);
    if a.None? || b.None? || c.None? || d.None? then None
    else Some(a.value * 4096 + b.value * 256 + c.value * 16 + d.value)
  }

  function ShortUnescape(u: Unit): Option<Unit> {
    if u == QUOTE || u == BACKSLASH then Some(u)
    else if u == 98 then Some(8)
    else if u == 116 then Some(9)
    else if u == 110 then Some(10)
    else if u == 102 then Some(12)
    else if u == 114 then Some(13)
    else None
  }

  /** Reads a string's content up to its closing quote: the content and what follows the quote. */
  function Unescape(t: Text): (r: Option<(Text, Text)>)
    ensures r.Some? ==> |r.value.1| < |t|
  {
    if t == [] then None
    else if t[0] == QUOTE then Some(([], t[1..]))
    else if t[0] != BACKSLASH then Prepend(t[0], Unescape(t[1..]))
    else if |t| >= 6 && t[1] == 117 && Hex4Value(t[2..6]).Some? then Prepend(Hex4Value(t[2..6]).value, Unescape(t[6..]))
    else if |t| >= 2 && ShortUnescape(t[1]).Some? then Prepend(ShortUnescape(t[1]).value, Unescape(t[2..]))
    else None
  }

  function Prepend(u: Unit, r: Option<(Text, Text)>): Option<(Text, Text)> {
    if r.Some? then Some(([u] + r.value.0, r.value.1)) else None
  }

  lemma HexDigitRoundTrip(d: int)
    requires 0 <= d < 16
    ensures HexValue(HexDigit(d)) == Some(d)
  {
  }

  lemma Hex4RoundTrip(u: Unit)
    ensures Hex4Value(Hex4(u)) == Some(u)
  {
    var b := u / 16;
    var c := b / 16;
    HexDigitRoundTrip(c / 16);
    HexDigitRoundTrip(c % 16);
    HexDigitRoundTrip(b % 16);
    HexDigitRoundTrip(u % 16);
    assert u == 16 * b + u % 16 && b == 16 * c + b % 16 && c == 16 * (c / 16) + c % 16;
  }

  lemma UnescapeRaw(u: Unit, t: Text)
    requires u != QUOTE && u != BACKSLASH
    ensures Unescape([u] + t) == Prepend(u, Unescape(t))
  {
    Tail(u, t);
  }

  lemma UnescapeUnit(u: Unit, t: Text)
    ensures Unescape(EscapeUnit(u) + t) == Prepend(u, Unescape(t))
  {
    var e := EscapeUnit(u) + t;
    if ShortEscape(u).Some? {
      assert e[2..] == t;
    } else if u < 32 || HighSurrogate(u) || LowSurrogate(u) {
      Hex4RoundTrip(u);
      assert e[2..6] == Hex4(u) && e[6..] == t;
    } else {
      assert e[1..] == t;
    }
  }

  lemma PairRoundTrip(hi: Unit, lo: Unit, e: Text, t: Text, s: Text, rest: Text)
    requires HighSurrogate(hi) && LowSurrogate(lo) && Unescape(e + t) == Some((s, rest))
    ensures Unescape(([hi] + ([lo] + e)) + t) == Some(([hi] + ([lo] + s), rest))
  {
    Regroup([hi], [lo] + e, t);
    Regroup([lo], e, t);
    UnescapeRaw(lo, e + t);
    UnescapeRaw(hi, [lo] + (e + t));
  }

  /** What a string was printed as reads back as that string, whatever follows it. */
  lemma {:induction false} StringRoundTrip(s: Text, rest: Text)
    ensures Unescape(Escape(s) + ([QUOTE] + rest)) == Some((s, rest))
  {
    var t := [QUOTE] + rest;
    if s == [] {
      assert Escape(s) + t == t;
    } else if |s| >= 2 && HighSurrogate(s[0]) && LowSurrogate(s[1]) {
      StringRoundTrip(s[2..], rest);
      PairRoundTrip(s[0], s[1], Escape(s[2..]), t, s[2..], rest);
      assert s == [s[0]] + ([s[1]] + s[2..]);
    } else {
      StringRoundTrip(s[1..], rest);
      UnescapeUnit(s[0], Escape(s[1..]) + t);
      Regroup(EscapeUnit(s[0]), Escape(s[1..]), t);
      assert s == [s[0]] + s[1..];
    }
  }

  /** No surrogate stands alone. */
  predicate PairsUp(t: Text) {
    if t == [] then true
    else if 0xD800 <= t[0] < 0xDC00 then |t| >= 2 && 0xDC00 <= t[1] < 0xE000 && PairsUp(t[2..])
    else !(0xDC00 <= t[0] < 0xE000) && PairsUp(t[1..])
  }

  /** What JSON asks of a string's content: no control character, no quote, every surrogate in its pair. */
  predicate Needless(t: Text) {
    PairsUp(t) && forall i :: 0 <= i < |t| ==> t[i] >= 0x20 && t[i] != '"' as int && t[i] != '\\' as int
  }

  lemma {:induction false} PairsUpAfter(a: Text, b: Text)
    requires PairsUp(b) && forall i :: 0 <= i < |a| ==> !(0xD800 <= a[i] < 0xE000)
    ensures PairsUp(a + b)
  {
    if a == [] {
      assert a + b == b;
    } else {
      PairsUpAfter(a[1..], b);
      assert (a + b)[1..] == a[1..] + b && (a + b)[0] == a[0];
    }
  }

  lemma UnitIsClean(u: Unit)
    ensures forall i :: 0 <= i < |EscapeUnit(u)| ==> EscapeUnit(u)[i] >= 0x20 && !(0xD800 <= EscapeUnit(u)[i] < 0xE000)
  {
  }

  /** Any string is printed without control characters and lone surrogates. */
  lemma {:induction false} EscapeIsClean(s: Text)
    ensures PairsUp(Escape(s)) && forall i :: 0 <= i < |Escape(s)| ==> Escape(s)[i] >= 0x20
  {
    if |s| >= 2 && HighSurrogate(s[0]) && LowSurrogate(s[1]) {
      EscapeIsClean(s[2..]);
      var e := Escape(s[2..]);
      assert ([s[0]] + ([s[1]] + e))[2..] == e;
    } else if s != [] {
      EscapeIsClean(s[1..]);
      UnitIsClean(s[0]);
      PairsUpAfter(EscapeUnit(s[0]), Escape(s[1..]));
    }
  }

  /** And one that needs no escapes as it is. */
  lemma {:induction false} NoNeedlessEscape(s: Text)
    requires Needless(s)
    ensures Escape(s) == s
  {
    if |s| >= 2 && HighSurrogate(s[0]) && LowSurrogate(s[1]) {
      NoNeedlessEscape(s[2..]);
      assert s == [s[0]] + ([s[1]] + s[2..]);
    } else if s != [] {
      NoNeedlessEscape(s[1..]);
      assert s == [s[0]] + s[1..];
    }
  }

  lemma Regroup(a: Text, b: Text, c: Text)
    ensures (a + b) + c == a + (b + c)
  {
  }

  lemma Tail(u: Unit, t: Text)
    ensures ([u] + t)[1..] == t
  {
  }

  /** Equal texts with the same first unit have equal rests. */
  lemma Peel(u: Unit, a: Text, r: Text, b: Text, s: Text)
    requires ([u] + a) + r == ([u] + b) + s
    ensures a + r == b + s
  {
    Regroup([u], a, r);
    Regroup([u], b, s);
    Tail(u, a + r);
    Tail(u, b + s);
  }

  // ----- values ------------------------------------------------------------------------------

  function Stringify(v: Json): Text {
    match v
    case Null => NULL
    case Bool(b) => if b then TRUE else FALSE
    case Num(lexeme) => lexeme
    case Str(s) => Quote(s)
    case Arr(items) => [OPEN_BRACKET] + ItemsText(items, true)
    case Obj(fields) => [OPEN_BRACE] + FieldsText(fields, true)
  }

  /** The items separated by commas, and the closing bracket; `first` when none went before. */
  function ItemsText(items: seq<Json>, first: bool): Text
    decreases items, !first
  {
    if items == [] then [CLOSE_BRACKET]
    else if first then Stringify(items[0]) + ItemsText(items[1..], false)
    else [COMMA] + ItemsText(items, true)
  }

  function FieldsText(fields: seq<Entry<Json>>, first: bool): Text
    decreases fields, !first
  {
    if fields == [] then [CLOSE_BRACE]
    else if first then Quote(fields[0].key) + ([COLON] + (Stringify(fields[0].value) + FieldsText(fields[1..], false)))
    else [COMMA] + FieldsText(fields, true)
  }

  /** What can follow a value inside a text: nothing that could be read as part of it. */
  predicate Ends(t: Text) {
    t == [] || t[0] == COMMA || t[0] == CLOSE_BRACKET || t[0] == CLOSE_BRACE
  }

  lemma FirstUnit(v: Json)
    requires Printable(v)
    ensures Stringify(v) != []
    ensures var u := Stringify(v)[0];
            match v
            case Null => u == 110
            case Bool(b) => u == if b then 116 else 102
            case Num(_) => IsDigit(u) || u == 45
            case Str(_) => u == QUOTE
            case Arr(_) => u == OPEN_BRACKET
            case Obj(_) => u == OPEN_BRACE
  {
  }

  /** How many number units a text begins with. */
  function SpanLength(t: Text): nat {
    if t != [] && InNumber(t[0]) then 1 + SpanLength(t[1..]) else 0
  }

  lemma {:induction false} SpanOf(a: Text, r: Text)
    requires (forall i :: 0 <= i < |a| ==> InNumber(a[i])) && Ends(r)
    ensures SpanLength(a + r) == |a|
  {
    if a == [] {
      assert a + r == r;
    } else {
      SpanOf(a[1..], r);
      assert (a + r)[1..] == a[1..] + r;
    }
  }

  lemma NumberSpan(a: Text, b: Text, r: Text, s: Text)
    requires NumberLexeme(a) && NumberLexeme(b) && Ends(r) && Ends(s) && a + r == b + s
    ensures a == b && r == s
  {
    SpanOf(a, r);
    SpanOf(b, s);
    assert a == (a + r)[..|a|] && b == (b + s)[..|b|];
    Cancel(a, r, s);
  }

  lemma QuoteUnambiguous(a: Text, b: Text, r: Text, s: Text)
    requires Quote(a) + r == Quote(b) + s
    ensures a == b && r == s
  {
    Peel(QUOTE, Escape(a) + [QUOTE], r, Escape(b) + [QUOTE], s);
    Regroup(Escape(a), [QUOTE], r);
    Regroup(Escape(b), [QUOTE], s);
    StringRoundTrip(a, r);
    StringRoundTrip(b, s);
  }

  lemma Cancel(a: Text, r: Text, s: Text)
    requires a + r == a + s
    ensures r == s
  {
    assert r == (a + r)[|a|..] == (a + s)[|a|..] == s;
  }

  /**
   * The text of a value is unambiguous in any context it can stand in: equal texts followed by
   * anything are texts of the same value followed by the same thing.
   */
  lemma {:induction false} Unambiguous(v: Json, w: Json, r: Text, s: Text)
    requires Printable(v) && Printable(w) && Ends(r) && Ends(s)
    requires Stringify(v) + r == Stringify(w) + s
    ensures v == w && r == s
    decreases v
  {
    FirstUnit(v);
    FirstUnit(w);
    assert Stringify(v)[0] == (Stringify(v) + r)[0] == (Stringify(w) + s)[0] == Stringify(w)[0];
    match v
    case Null => Cancel(NULL, r, s);
    case Bool(b) => Cancel(Stringify(v), r, s);
    case Num(lexeme) => NumberSpan(lexeme, w.lexeme, r, s);
    case Str(a) => QuoteUnambiguous(a, w.s, r, s);
    case Arr(items) =>
      Peel(OPEN_BRACKET, ItemsText(items, true), r, ItemsText(w.items, true), s);
      ItemsUnambiguous(items, w.items, true, r, s);
    case Obj(fields) =>
      Peel(OPEN_BRACE, FieldsText(fields, true), r, FieldsText(w.fields, true), s);
      FieldsUnambiguous(fields, w.fields, true, r, s);
  }

  lemma ItemsFirstUnit(items: seq<Json>, first: bool)
    requires Printable(Arr(items))
    ensures ItemsText(items, first) != []
    ensures (ItemsText(items, first)[0] == CLOSE_BRACKET) == (items == [])
    ensures !first ==> Ends(ItemsText(items, first))
  {
    if items != [] {
      FirstUnit(items[0]);
    }
  }

  lemma {:induction false} ItemsUnambiguous(vs: seq<Json>, ws: seq<Json>, first: bool, r: Text, s: Text)
    requires Printable(Arr(vs)) && Printable(Arr(ws)) && Ends(r) && Ends(s)
    requires ItemsText(vs, first) + r == ItemsText(ws, first) + s
    ensures vs == ws && r == s
    decreases vs, !first
  {
    ItemsFirstUnit(vs, first);
    ItemsFirstUnit(ws, first);
    assert ItemsText(vs, first)[0] == (ItemsText(vs, first) + r)[0] == (ItemsText(ws, first) + s)[0] == ItemsText(ws, first)[0];
    if vs == [] {
      Cancel([CLOSE_BRACKET], r, s);
    } else if first {
      var x, y := ItemsText(vs[1..], false), ItemsText(ws[1..], false);
      Regroup(Stringify(vs[0]), x, r);
      Regroup(Stringify(ws[0]), y, s);
      ItemsFirstUnit(vs[1..], false);
      ItemsFirstUnit(ws[1..], false);
      Unambiguous(vs[0], ws[0], x + r, y + s);
      ItemsUnambiguous(vs[1..], ws[1..], false, r, s);
    } else {
      Peel(COMMA, ItemsText(vs, true), r, ItemsText(ws, true), s);
      ItemsUnambiguous(vs, ws, true, r, s);
    }
  }

  lemma FieldsFirstUnit(fields: seq<Entry<Json>>, first: bool)
    ensures FieldsText(fields, first) != []
    ensures (FieldsText(fields, first)[0] == CLOSE_BRACE) == (fields == [])
    ensures !first ==> Ends(FieldsText(fields, first))
  {
  }

  lemma {:induction false} FieldsUnambiguous(vs: seq<Entry<Json>>, ws: seq<Entry<Json>>, first: bool, r: Text, s: Text)
    requires Printable(Obj(vs)) && Printable(Obj(ws)) && Ends(r) && Ends(s)
    requires FieldsText(vs, first) + r == FieldsText(ws, first) + s
    ensures vs == ws && r == s
    decreases vs, !first
  {
    FieldsFirstUnit(vs, first);
    FieldsFirstUnit(ws, first);
    assert FieldsText(vs, first)[0] == (FieldsText(vs, first) + r)[0] == (FieldsText(ws, first) + s)[0] == FieldsText(ws, first)[0];
    if vs == [] {
      Cancel([CLOSE_BRACE], r, s);
    } else if first {
      var x, y := FieldsText(vs[1..], false), FieldsText(ws[1..], false);
      var a, b := Stringify(vs[0].value) + x, Stringify(ws[0].value) + y;
      Regroup(Quote(vs[0].key), [COLON] + a, r);
      Regroup(Quote(ws[0].key), [COLON] + b, s);
      QuoteUnambiguous(vs[0].key, ws[0].key, ([COLON] + a) + r, ([COLON] + b) + s);
      Peel(COLON, a, r, b, s);
      Regroup(Stringify(vs[0].value), x, r);
      Regroup(Stringify(ws[0].value), y, s);
      FieldsFirstUnit(vs[1..], false);
      FieldsFirstUnit(ws[1..], false);
      Unambiguous(vs[0].value, ws[0].value, x + r, y + s);
      FieldsUnambiguous(vs[1..], ws[1..], false, r, s);
      assert vs == [vs[0]] + vs[1..] && ws == [ws[0]] + ws[1..];
    } else {
      Peel(COMMA, FieldsText(vs, true), r, FieldsText(ws, true), s);
      FieldsUnambiguous(vs, ws, true, r, s);
    }
  }

  /** `JSON.stringify` tells any two values apart, down to the order of their fields. */
  lemma StringifyInjective(v: Json, w: Json)
    requires Printable(v) && Printable(w) && Stringify(v) == Stringify(w)
    ensures v == w
  {
    assert Stringify(v) + [] == Stringify(w) + [];
    Unambiguous(v, w, [], []);
  }
}
