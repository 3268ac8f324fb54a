/**
 * A reader of JSON texts after RFC 8259, written apart from the printer: whitespace anywhere, numbers by
 * the grammar of section 6, strings by section 7. What `JSON.stringify` prints reads back.
 */
module JsonReader {
  import opened Common
  import opened JsonText

  predicate IsSpace(u: Unit) {
    u == 32 || u == 9 || u == 10 || u == 13
  }

  function SkipSpace(t: Text): (r: Text)
    ensures |r| <= |t|
  {
    if t != [] && IsSpace(t[0]) then SkipSpace(t[1..]) else t
  }

  /** Space, tab, line feed and carriage return at the head are skipped, and nothing else is. */
  lemma SpaceIsSkipped(u: Unit, t: Text)
    ensures SkipSpace([u] + t) == if [u] in [Units(" "), Units("\t"), Units("\n"), Units("\r")] then SkipSpace(t) else [u] + t
  {
    Tail(u, t);
    assert Units(" ") == [32] && Units("\t") == [9] && Units("\n") == [10] && Units("\r") == [13];
  }

  predicate At(t: Text, c: char) {
    t != [] && t[0] == c as int
  }

  // ----- numbers -----------------------------------------------------------------------------------

  /** What has been read of a number: nothing, its sign, its whole part, its fraction, its exponent. */
  datatype Progress = Nothing | Minus | Zero | Whole | Point | Fraction | E | Sign | Exponent | Wrong

  function ReadUnit(p: Progress, u: Unit): Progress {
    match p
    case Nothing => if u == '-' as int then Minus else FirstDigit(u)
    case Minus => FirstDigit(u)
    case Zero => AfterWhole(u)
    case Whole => if IsDigit(u) then Whole else AfterWhole(u)
    case Point => if IsDigit(u) then Fraction else Wrong
    case Fraction => if IsDigit(u) then Fraction else AfterFraction(u)
    case E => if u == '+' as int || u == '-' as int then Sign else if IsDigit(u) then Exponent else Wrong
    case Sign => if IsDigit(u) then Exponent else Wrong
    case Exponent => if IsDigit(u) then Exponent else Wrong
    case Wrong => Wrong
  }

  /** A whole part has no leading zero. */
  function FirstDigit(u: Unit): Progress {
    if u == '0' as int then Zero else if IsDigit(u) then Whole else Wrong
  }

  function AfterWhole(u: Unit): Progress {
    if u == '.' as int then Point else AfterFraction(u)
  }

  function AfterFraction(u: Unit): Progress {
    if u == 'e' as int || u == 'E' as int then E else Wrong
  }

  function ReadUnits(t: Text): Progress {
    if t == [] then Nothing else ReadUnit(ReadUnits(t[..|t| - 1]), t[|t| - 1])
  }

  predicate IsNumber(t: Text) {
    var p := ReadUnits(t);
    p.Zero? || p.Whole? || p.Fraction? || p.Exponent?
  }

  /** Every number in a value is one of JSON. */
  predicate Readable(v: Json) {
    match v
    case Num(lexeme) => IsNumber(lexeme)
    case Arr(items) => forall i :: 0 <= i < |items| ==> Readable(items[i])
    case Obj(fields) => forall i :: 0 <= i < |fields| ==> Readable(fields[i].value)
    case _ => true
  }

  lemma {:induction false} NumberUnits(t: Text)
    requires !ReadUnits(t).Wrong?
    ensures forall i :: 0 <= i < |t| ==> InNumber(t[i])
    ensures t != [] ==> IsDigit(t[0]) || t[0] == '-' as int
  {
    if t != [] {
      NumberUnits(t[..|t| - 1]);
    }
  }

  predicate Digits(t: Text) {
    t != [] && forall i :: 0 <= i < |t| ==> IsDigit(t[i])
  }

  lemma ReadMore(t: Text, u: Unit)
    ensures ReadUnits(t + [u]) == ReadUnit(ReadUnits(t), u)
  {
    assert (t + [u])[..|t|] == t;
  }

  lemma {:induction false} ReadDigits(t: Text, digits: Text, p: Progress)
    requires Digits(digits) && ReadUnit(ReadUnits(t), digits[0]) == p && (p.Whole? || p.Fraction? || p.Exponent?)
    ensures ReadUnits(t + digits) == p
  {
    var front, last := digits[..|digits| - 1], digits[|digits| - 1];
    assert t + digits == (t + front) + [last];
    ReadMore(t + front, last);
    if front == [] {
      assert t + front == t;
    } else {
      ReadDigits(t, front, p);
    }
  }

  /** A whole number: an optional minus, and digits that begin with a zero only if that is all. */
  lemma WholeNumbers(minus: bool, digits: Text)
    requires Digits(digits) && (digits[0] == '0' as int ==> |digits| == 1)
    ensures var t := (if minus then ['-' as int as Unit] else []) + digits;
            IsNumber(t) && ReadUnits(t) == if digits[0] == '0' as int then Zero else Whole
  {
    var sign: Text := if minus then ['-' as int] else [];
    if digits[0] == '0' as int {
      ReadMore(sign, digits[0]);
      assert digits == [digits[0]];
    } else {
      ReadDigits(sign, digits, Whole);
    }
  }

  /** A fraction may follow the whole part. */
  lemma Fractions(whole: Text, digits: Text)
    requires (ReadUnits(whole).Zero? || ReadUnits(whole).Whole?) && Digits(digits)
    ensures ReadUnits(whole + ['.' as int] + digits) == Fraction && IsNumber(whole + ['.' as int] + digits)
  {
    ReadMore(whole, '.' as int);
    ReadDigits(whole + ['.' as int], digits, Fraction);
  }

  /** An exponent may follow either, in either letter, with or without a sign. */
  lemma Exponents(t: Text, e: char, sign: Text, digits: Text)
    requires (ReadUnits(t).Zero? || ReadUnits(t).Whole? || ReadUnits(t).Fraction?) && Digits(digits)
    requires e == 'e' || e == 'E'
    requires sign == [] || sign == ['+' as int] || sign == ['-' as int]
    ensures IsNumber(t + [e as int] + sign + digits)
  {
    ReadMore(t, e as int);
    if sign == [] {
      assert t + [e as int] + sign == t + [e as int];
    } else {
      ReadMore(t + [e as int], sign[0]);
      assert sign == [sign[0]];
    }
    ReadDigits(t + [e as int] + sign, digits, Exponent);
  }

  // ----- values ------------------------------------------------------------------------------------

  function ReadWord(t: Text, word: Text, v: Json): Option<(Json, Text)> {
    if word <= t then Some((v, t[|word|..])) else None
  }

  function ReadNumber(t: Text): Option<(Json, Text)>
    requires SpanLength(t) <= |t|
  {
    var n := SpanLength(t);
    if IsNumber(t[..n]) then Some((Num(t[..n]), t[n..])) else None
  }

  lemma {:induction false} SpanWithin(t: Text)
    ensures SpanLength(t) <= |t|
  {
    if t != [] {
      SpanWithin(t[1..]);
    }
  }

  /** A value at the head, after any whitespace, and what follows it. */
  function ReadValue(t: Text): (r: Option<(Json, Text)>)
    ensures r.Some? ==> |r.value.1| < |t|
    decreases |t|, 0
  {
    var u := SkipSpace(t);
    SpanWithin(u);
    if u == [] then None
    else if At(u, '"') then
      var s := Unescape(u[1..]);
      if s.Some? then Some((Str(s.value.0), s.value.1)) else None
    else if At(u, '[') then
      if At(SkipSpace(u[1..]), ']') then Some((Arr([]), SkipSpace(u[1..])[1..]))
      else
        var items := ReadItems(u[1..]);
        if items.Some? then Some((Arr(items.value.0), items.value.1)) else None
    else if At(u, '{') then
      if At(SkipSpace(u[1..]), '}') then Some((Obj([]), SkipSpace(u[1..])[1..]))
      else
        var fields := ReadFields(u[1..]);
        if fields.Some? then Some((Obj(fields.value.0), fields.value.1)) else None
    else if At(u, 'n') then ReadWord(u, Units("null"), Null)
    else if At(u, 't') then ReadWord(u, Units("true"), Bool(true))
    else if At(u, 'f') then ReadWord(u, Units("false"), Bool(false))
    else
      var number := ReadNumber(u);
      if number.Some? && |number.value.1| < |t| then number else None
  }

  /** The items of an array up to its closing bracket; there is at least one. */
  function ReadItems(t: Text): (r: Option<(seq<Json>, Text)>)
    ensures r.Some? ==> |r.value.1| < |t|
    decreases |t|, 1
  {
    var v := ReadValue(t);
    if v.None? then None
    else
      var u := SkipSpace(v.value.1);
      if At(u, ']') then Some(([v.value.0], u[1..]))
      else if At(u, ',') then
        var more := ReadItems(u[1..]);
        if more.Some? then Some(([v.value.0] + more.value.0, more.value.1)) else None
      else None
  }

  /** The fields of an object up to its closing brace; there is at least one. */
  function ReadFields(t: Text): (r: Option<(seq<Entry<Json>>, Text)>)
    ensures r.Some? ==> |r.value.1| < |t|
    decreases |t|, 1
  {
    var u := SkipSpace(t);
    var key := if At(u, '"') then Unescape(u[1..]) else None;
    if key.None? || !At(SkipSpace(key.value.1), ':') then None
    else
      var v := ReadValue(SkipSpace(key.value.1)[1..]);
      if v.None? then None
      else
        var w := SkipSpace(v.value.1);
        var field := Entry(key.value.0, v.value.0);
        if At(w, '}') then Some(([field], w[1..]))
        else if At(w, ',') then
          var more := ReadFields(w[1..]);
          if more.Some? then Some(([field] + more.value.0, more.value.1)) else None
        else None
  }

  // ----- what is printed reads back --------------------------------------------------------------------

  lemma Words()
    ensures NULL == Units("null") && TRUE == Units("true") && FALSE == Units("false")
  {
  }

  lemma Drop(a: Text, r: Text)
    ensures (a + r)[|a|..] == r && a <= a + r
  {
  }

  lemma NumberReadBack(lexeme: Text, r: Text)
    requires IsNumber(lexeme) && Ends(r)
    ensures ReadValue(lexeme + r) == Some((Num(lexeme), r))
  {
    NumberUnits(lexeme);
    SpanOf(lexeme, r);
    Drop(lexeme, r);
    assert (lexeme + r)[..|lexeme|] == lexeme;
    assert (lexeme + r)[0] == lexeme[0];
  }

  lemma StringReadBack(s: Text, r: Text)
    ensures ReadValue(Quote(s) + r) == Some((Str(s), r))
  {
    StringRoundTrip(s, r);
    Regroup([QUOTE], Escape(s) + [QUOTE], r);
    Regroup(Escape(s), [QUOTE], r);
    Tail(QUOTE, Escape(s) + ([QUOTE] + r));
  }

  lemma WordReadBack(v: Json, r: Text)
    requires v.Null? || v.Bool?
    ensures ReadValue(Stringify(v) + r) == Some((v, r))
  {
    Words();
    Drop(Stringify(v), r);
    assert (Stringify(v) + r)[0] == Stringify(v)[0];
  }

  lemma StartsLikeAValue(v: Json, r: Text)
    requires Readable(v)
    ensures Stringify(v) != [] && (Stringify(v) + r)[0] == Stringify(v)[0]
    ensures !IsSpace(Stringify(v)[0]) && !At(Stringify(v), ']') && !At(Stringify(v), '}')
  {
    if v.Num? {
      NumberUnits(v.lexeme);
    }
  }

  lemma ReadArray(t: Text, items: seq<Json>, rest: Text)
    requires At(t, '[') && |t| > 1 && !IsSpace(t[1])
    requires if At(t[1..], ']') then items == [] && rest == t[2..] else ReadItems(t[1..]) == Some((items, rest))
    ensures ReadValue(t) == Some((Arr(items), rest))
  {
    assert t[1..][1..] == t[2..];
  }

  lemma ReadObject(t: Text, fields: seq<Entry<Json>>, rest: Text)
    requires At(t, '{') && |t| > 1 && !IsSpace(t[1])
    requires if At(t[1..], '}') then fields == [] && rest == t[2..] else ReadFields(t[1..]) == Some((fields, rest))
    ensures ReadValue(t) == Some((Obj(fields), rest))
  {
    assert t[1..][1..] == t[2..];
  }

  /** A key, its colon and its value stand at the head. */
  predicate FieldAt(t: Text, field: Entry<Json>, afterKey: Text, afterValue: Text) {
    && At(t, '"') && Unescape(t[1..]) == Some((field.key, afterKey))
    && At(afterKey, ':') && ReadValue(afterKey[1..]) == Some((field.value, afterValue))
  }

  lemma ReadLastField(t: Text, field: Entry<Json>, afterKey: Text, afterValue: Text)
    requires FieldAt(t, field, afterKey, afterValue) && At(afterValue, '}')
    ensures ReadFields(t) == Some(([field], afterValue[1..]))
  {
  }

  lemma ReadNextField(t: Text, field: Entry<Json>, afterKey: Text, afterValue: Text, more: seq<Entry<Json>>, rest: Text)
    requires FieldAt(t, field, afterKey, afterValue) && At(afterValue, ',')
    requires ReadFields(afterValue[1..]) == Some((more, rest))
    ensures ReadFields(t) == Some(([field] + more, rest))
  {
  }

  lemma {:induction false} ReadBack(v: Json, r: Text)
    requires Readable(v) && Ends(r)
    ensures ReadValue(Stringify(v) + r) == Some((v, r))
    decreases v
  {
    match v
    case Num(lexeme) => NumberReadBack(lexeme, r);
    case Str(s) => StringReadBack(s, r);
    case Arr(items) => ArrayReadBack(items, r);
    case Obj(fields) => ObjectReadBack(fields, r);
    case _ => WordReadBack(v, r);
  }

  lemma {:induction false} ArrayReadBack(items: seq<Json>, r: Text)
    requires Readable(Arr(items))
    ensures ReadValue(Stringify(Arr(items)) + r) == Some((Arr(items), r))
    decreases items, 1
  {
    var body := ItemsText(items, true) + r;
    Regroup([OPEN_BRACKET], ItemsText(items, true), r);
    Tail(OPEN_BRACKET, body);
    if items == [] {
      Tail(CLOSE_BRACKET, r);
    } else {
      ItemsReadBack(items, r);
    }
    assert ([OPEN_BRACKET] + body)[1] == body[0];
    ReadArray([OPEN_BRACKET] + body, items, r);
  }

  lemma {:induction false} ObjectReadBack(fields: seq<Entry<Json>>, r: Text)
    requires Readable(Obj(fields))
    ensures ReadValue(Stringify(Obj(fields)) + r) == Some((Obj(fields), r))
    decreases fields, 1
  {
    var body := FieldsText(fields, true) + r;
    Regroup([OPEN_BRACE], FieldsText(fields, true), r);
    Tail(OPEN_BRACE, body);
    if fields == [] {
      Tail(CLOSE_BRACE, r);
    } else {
      FieldsReadBack(fields, r);
    }
    assert ([OPEN_BRACE] + body)[1] == body[0];
    ReadObject([OPEN_BRACE] + body, fields, r);
  }

  lemma LastItem(t: Text, items: seq<Json>, r: Text)
    requires |items| == 1 && ReadValue(t) == Some((items[0], [CLOSE_BRACKET] + r))
    ensures ReadItems(t) == Some((items, r))
  {
    Tail(CLOSE_BRACKET, r);
    assert items == [items[0]];
  }

  lemma NextItem(t: Text, items: seq<Json>, r: Text, rest: Text)
    requires |items| > 1 && ReadValue(t) == Some((items[0], [COMMA] + rest)) && ReadItems(rest) == Some((items[1..], r))
    ensures ReadItems(t) == Some((items, r))
  {
    Tail(COMMA, rest);
    assert items == [items[0]] + items[1..];
  }

  lemma {:induction false} ItemsReadBack(items: seq<Json>, r: Text)
    requires items != [] && Readable(Arr(items))
    ensures ReadItems(ItemsText(items, true) + r) == Some((items, r))
    ensures ItemsText(items, true) + r != [] && !IsSpace((ItemsText(items, true) + r)[0]) && !At(ItemsText(items, true) + r, ']')
    decreases items, 0
  {
    var more := items[1..];
    var after := ItemsText(more, false);
    Regroup(Stringify(items[0]), after, r);
    StartsLikeAValue(items[0], after + r);
    ReadBack(items[0], after + r);
    if more == [] {
      LastItem(ItemsText(items, true) + r, items, r);
    } else {
      Regroup([COMMA], ItemsText(more, true), r);
      assert Readable(Arr(more));
      ItemsReadBack(more, r);
      NextItem(ItemsText(items, true) + r, items, r, ItemsText(more, true) + r);
    }
  }

  /** A printed field's key reads back, and stands before a colon and the value. */
  lemma FieldHead(field: Entry<Json>, after: Text, r: Text)
    ensures var value := Stringify(field.value) + (after + r);
            var t := (Quote(field.key) + ([COLON] + (Stringify(field.value) + after))) + r;
            t != [] && t[0] == QUOTE && Unescape(t[1..]) == Some((field.key, [COLON] + value)) && ([COLON] + value)[1..] == value
  {
    var rest := [COLON] + (Stringify(field.value) + after);
    Regroup(Quote(field.key), rest, r);
    Regroup([COLON], Stringify(field.value) + after, r);
    Regroup(Stringify(field.value), after, r);
    var tail := rest + r;
    Regroup([QUOTE], Escape(field.key) + [QUOTE], tail);
    Regroup(Escape(field.key), [QUOTE], tail);
    Tail(QUOTE, Escape(field.key) + ([QUOTE] + tail));
    StringRoundTrip(field.key, tail);
    Tail(COLON, Stringify(field.value) + (after + r));
  }

  /** The text from the first field's value on. */
  function FromValue(fields: seq<Entry<Json>>, r: Text): Text
    requires fields != []
  {
    Stringify(fields[0].value) + (FieldsText(fields[1..], false) + r)
  }

  lemma FieldsOpen(fields: seq<Entry<Json>>, r: Text)
    requires fields != []
    ensures var t := FieldsText(fields, true) + r;
            At(t, '"') && Unescape(t[1..]) == Some((fields[0].key, [COLON] + FromValue(fields, r)))
  {
    FieldHead(fields[0], FieldsText(fields[1..], false), r);
  }

  lemma LastField(t: Text, value: Text, fields: seq<Entry<Json>>, r: Text)
    requires |fields| == 1 && At(t, '"') && Unescape(t[1..]) == Some((fields[0].key, [COLON] + value))
    requires ReadValue(value) == Some((fields[0].value, [CLOSE_BRACE] + r))
    ensures ReadFields(t) == Some((fields, r))
  {
    Tail(COLON, value);
    Tail(CLOSE_BRACE, r);
    ReadLastField(t, fields[0], [COLON] + value, [CLOSE_BRACE] + r);
    assert fields == [fields[0]];
  }

  lemma NextField(t: Text, value: Text, fields: seq<Entry<Json>>, r: Text, rest: Text)
    requires |fields| > 1 && At(t, '"') && Unescape(t[1..]) == Some((fields[0].key, [COLON] + value))
    requires ReadValue(value) == Some((fields[0].value, [COMMA] + rest)) && ReadFields(rest) == Some((fields[1..], r))
    ensures ReadFields(t) == Some((fields, r))
  {
    Tail(COLON, value);
    Tail(COMMA, rest);
    ReadNextField(t, fields[0], [COLON] + value, [COMMA] + rest, fields[1..], r);
    assert fields == [fields[0]] + fields[1..];
  }

  lemma {:induction false} FieldsReadBack(fields: seq<Entry<Json>>, r: Text)
    requires fields != [] && Readable(Obj(fields))
    ensures ReadFields(FieldsText(fields, true) + r) == Some((fields, r))
    ensures At(FieldsText(fields, true) + r, '"')
    decreases fields, 0
  {
    var more := fields[1..];
    FieldsOpen(fields, r);
    ReadBack(fields[0].value, FieldsText(more, false) + r);
    if more == [] {
      LastField(FieldsText(fields, true) + r, FromValue(fields, r), fields, r);
    } else {
      assert Readable(Obj(more));
      FieldsReadBack(more, r);
      Regroup([COMMA], FieldsText(more, true), r);
      NextField(FieldsText(fields, true) + r, FromValue(fields, r), fields, r, FieldsText(more, true) + r);
    }
  }

  /** Every JSON value is read back from its text, and nothing is left over. */
  lemma StringifyReads(v: Json)
    requires Readable(v)
    ensures ReadValue(Stringify(v)) == Some((v, []))
  {
    ReadBack(v, []);
    assert Stringify(v) + [] == Stringify(v);
  }
}
