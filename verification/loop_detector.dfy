/**
 * The loop detector: a run is stuck once the same tool has been called with the same input, up to
 * key order, `threshold` times in a row. It compares signatures, so it is only as good as they are.
 */
module LoopDetectors {
  import opened Common
  import opened JsonText
  import opened CanonicalJson

  datatype Call = Call(name: Text, input: Json)

  function ToolSignature(name: Text, input: Json): Text {
    name + ([COLON] + StableStringify(input))
  }

  // ----- no text of a value ends in a colon and another value's text ------------------------------

  /** Reading a text: outside strings, inside one, or after a backslash in one, at a nesting depth. */
  datatype Mode = Bad | Outside(depth: nat) | Inside(depth: nat) | Escaped(depth: nat)

  /** A colon or a closer outside every bracket, or a backslash outside every string, is no JSON. */
  function ScanUnit(m: Mode, u: Unit): Mode {
    match m
    case Bad => Bad
    case Escaped(d) => Inside(d)
    case Inside(d) => if u == QUOTE then Outside(d) else if u == BACKSLASH then Escaped(d) else Inside(d)
    case Outside(d) =>
      if u == QUOTE then Inside(d)
      else if u == BACKSLASH then Bad
      else if u == OPEN_BRACKET || u == OPEN_BRACE then Outside(d + 1)
      else if u == CLOSE_BRACKET || u == CLOSE_BRACE then (if d == 0 then Bad else Outside(d - 1))
      else if u == COLON && d == 0 then Bad
      else Outside(d)
  }

  function Scan(m: Mode, t: Text): Mode
    decreases |t|
  {
    if t == [] then m else Scan(ScanUnit(m, t[0]), t[1..])
  }

  lemma {:induction false} ScanConcat(m: Mode, a: Text, b: Text)
    ensures Scan(m, a + b) == Scan(Scan(m, a), b)
    decreases |a|
  {
    if a == [] {
      assert a + b == b;
    } else {
      ScanConcat(ScanUnit(m, a[0]), a[1..], b);
      assert (a + b)[1..] == a[1..] + b;
    }
  }

  lemma ScanOne(m: Mode, u: Unit, t: Text)
    ensures Scan(m, [u] + t) == Scan(ScanUnit(m, u), t)
  {
    assert ([u] + t)[1..] == t;
  }

  lemma {:induction false} ScanBad(t: Text)
    ensures Scan(Bad, t) == Bad
  {
    if t != [] {
      ScanBad(t[1..]);
    }
  }

  /** Units that are none of the six structural ones leave the reading where it is. */
  predicate Plain(t: Text) {
    forall i :: 0 <= i < |t| ==> t[i] !in {QUOTE, BACKSLASH, OPEN_BRACKET, OPEN_BRACE, CLOSE_BRACKET, CLOSE_BRACE, COLON}
  }

  lemma {:induction false} ScanPlain(m: Mode, t: Text)
    requires Plain(t) && (m.Outside? || m.Inside?)
    ensures Scan(m, t) == m
  {
    if t != [] {
      ScanPlain(m, t[1..]);
    }
  }

  lemma ScanEscapeUnit(u: Unit, d: nat)
    ensures Scan(Inside(d), EscapeUnit(u)) == Inside(d)
    ensures Scan(Outside(d), EscapeUnit(u)) == Bad || Scan(Outside(d), EscapeUnit(u)).Outside?
  {
    var e := EscapeUnit(u);
    if ShortEscape(u).Some? {
      ScanOne(Inside(d), BACKSLASH, [ShortEscape(u).value]);
      ScanOne(Outside(d), BACKSLASH, [ShortEscape(u).value]);
      ScanBad([ShortEscape(u).value]);
    } else if u < 32 || HighSurrogate(u) || LowSurrogate(u) {
      ScanOne(Inside(d), BACKSLASH, [117] + Hex4(u));
      ScanOne(Escaped(d), 117, Hex4(u));
      assert e == [BACKSLASH] + ([117] + Hex4(u));
      ScanPlain(Inside(d), Hex4(u));
      ScanOne(Outside(d), BACKSLASH, [117] + Hex4(u));
      ScanBad([117] + Hex4(u));
    }
  }

  /** A string's printed content keeps a reader inside it; a reader outside sees no quote in it. */
  lemma {:induction false} ScanEscape(s: Text, d: nat)
    ensures Scan(Inside(d), Escape(s)) == Inside(d)
    ensures Scan(Outside(d), Escape(s)) == Bad || Scan(Outside(d), Escape(s)).Outside?
  {
    if s == [] {
    } else if |s| >= 2 && HighSurrogate(s[0]) && LowSurrogate(s[1]) {
      ScanEscape(s[2..], d);
      ScanPlain(Inside(d), s[..2]);
      ScanPlain(Outside(d), s[..2]);
      ScanConcat(Inside(d), s[..2], Escape(s[2..]));
      ScanConcat(Outside(d), s[..2], Escape(s[2..]));
    } else {
      var rest := Escape(s[1..]);
      ScanEscapeUnit(s[0], d);
      ScanEscape(s[1..], d);
      ScanConcat(Inside(d), EscapeUnit(s[0]), rest);
      ScanConcat(Outside(d), EscapeUnit(s[0]), rest);
      var m := Scan(Outside(d), EscapeUnit(s[0]));
      if m.Bad? {
        ScanBad(rest);
      } else {
        ScanEscape(s[1..], m.depth);
      }
    }
  }

  /** A reader inside a string that is not there: it stays inside, or notices. */
  predicate Flipped(m: Mode) {
    m.Bad? || m.Inside?
  }

  lemma ScanQuote(s: Text, d: nat)
    ensures Scan(Outside(d), Quote(s)) == Outside(d)
    ensures Flipped(Scan(Inside(d), Quote(s)))
  {
    var t := Escape(s) + [QUOTE];
    ScanOne(Outside(d), QUOTE, t);
    ScanOne(Inside(d), QUOTE, t);
    ScanConcat(Inside(d), Escape(s), [QUOTE]);
    ScanConcat(Outside(d), Escape(s), [QUOTE]);
    ScanEscape(s, d);
    ScanLast(Scan(Inside(d), Escape(s)), QUOTE);
    ScanLast(Scan(Outside(d), Escape(s)), QUOTE);
  }

  lemma ScanLast(m: Mode, u: Unit)
    ensures Scan(m, [u]) == ScanUnit(m, u)
  {
    assert [u][1..] == [];
  }

  /** Reading one more piece that is balanced from outside and flips nothing from inside. */
  lemma ScanPiece(m: Mode, a: Text, b: Text)
    requires Flipped(m)
    requires forall d: nat :: Flipped(Scan(Inside(d), a)) && Flipped(Scan(Inside(d), b))
    ensures Flipped(Scan(m, a + b))
  {
    ScanConcat(m, a, b);
    ScanBad(a);
    ScanBad(b);
  }

  lemma {:induction false} ScanValue(v: Json, d: nat)
    requires Printable(v)
    ensures Scan(Outside(d), Stringify(v)) == Outside(d)
    ensures Flipped(Scan(Inside(d), Stringify(v)))
    decreases v
  {
    match v
    case Str(s) => ScanQuote(s, d);
    case Arr(items) =>
      ScanOne(Outside(d), OPEN_BRACKET, ItemsText(items, true));
      ScanOne(Inside(d), OPEN_BRACKET, ItemsText(items, true));
      ScanItems(items, true, d);
    case Obj(fields) =>
      ScanOne(Outside(d), OPEN_BRACE, FieldsText(fields, true));
      ScanOne(Inside(d), OPEN_BRACE, FieldsText(fields, true));
      ScanFields(fields, true, d);
    case _ =>
      assert Plain(Stringify(v));
      ScanPlain(Outside(d), Stringify(v));
      ScanPlain(Inside(d), Stringify(v));
  }

  lemma {:induction false} ScanItems(items: seq<Json>, first: bool, d: nat)
    requires Printable(Arr(items))
    ensures Scan(Outside(d + 1), ItemsText(items, first)) == Outside(d)
    ensures Flipped(Scan(Inside(d), ItemsText(items, first)))
    decreases items, !first
  {
    if items == [] {
      ScanLast(Outside(d + 1), CLOSE_BRACKET);
      ScanLast(Inside(d), CLOSE_BRACKET);
    } else if first {
      var rest := ItemsText(items[1..], false);
      ScanValue(items[0], d + 1);
      ScanItems(items[1..], false, d);
      ScanConcat(Outside(d + 1), Stringify(items[0]), rest);
      forall e: nat
        ensures Flipped(Scan(Inside(e), Stringify(items[0]))) && Flipped(Scan(Inside(e), rest))
      {
        ScanValue(items[0], e);
        ScanItems(items[1..], false, e);
      }
      ScanPiece(Inside(d), Stringify(items[0]), rest);
    } else {
      ScanOne(Outside(d + 1), COMMA, ItemsText(items, true));
      ScanOne(Inside(d), COMMA, ItemsText(items, true));
      ScanItems(items, true, d);
    }
  }

  lemma {:induction false} ScanFields(fields: seq<Entry<Json>>, first: bool, d: nat)
    requires Printable(Obj(fields))
    ensures Scan(Outside(d + 1), FieldsText(fields, first)) == Outside(d)
    ensures Flipped(Scan(Inside(d), FieldsText(fields, first)))
    decreases fields, !first
  {
    if fields == [] {
      ScanLast(Outside(d + 1), CLOSE_BRACE);
      ScanLast(Inside(d), CLOSE_BRACE);
    } else if first {
      var key, value, rest := Quote(fields[0].key), Stringify(fields[0].value), FieldsText(fields[1..], false);
      ScanQuote(fields[0].key, d + 1);
      ScanValue(fields[0].value, d + 1);
      ScanFields(fields[1..], false, d);
      ScanConcat(Outside(d + 1), key, [COLON] + (value + rest));
      ScanOne(Outside(d + 1), COLON, value + rest);
      ScanConcat(Outside(d + 1), value, rest);
      forall e: nat
        ensures Flipped(Scan(Inside(e), key)) && Flipped(Scan(Inside(e), [COLON] + (value + rest)))
      {
        ScanQuote(fields[0].key, e);
        ScanOne(Inside(e), COLON, value + rest);
        forall f: nat
          ensures Flipped(Scan(Inside(f), value)) && Flipped(Scan(Inside(f), rest))
        {
          ScanValue(fields[0].value, f);
          ScanFields(fields[1..], false, f);
        }
        ScanPiece(Inside(e), value, rest);
      }
      ScanPiece(Inside(d), key, [COLON] + (value + rest));
    } else {
      ScanOne(Outside(d + 1), COMMA, FieldsText(fields, true));
      ScanOne(Inside(d), COMMA, FieldsText(fields, true));
      ScanFields(fields, true, d);
    }
  }

  /** Behind a colon, a value's text never ends outside every bracket and string. */
  lemma AfterColon(m: Mode, w: Json)
    requires Printable(w)
    ensures Scan(m, [COLON] + Stringify(w)) != Outside(0)
  {
    var n := ScanUnit(m, COLON);
    ScanOne(m, COLON, Stringify(w));
    match n
    case Bad => ScanBad(Stringify(w));
    case Outside(d) => ScanValue(w, d);
    case Inside(d) => ScanValue(w, d);
    case Escaped(_) =>
  }

  /** No value's text is something, a colon, and the text of a value. */
  lemma NoColonSuffix(v: Json, w: Json, before: Text)
    requires Printable(v) && Printable(w)
    ensures Stringify(v) != before + ([COLON] + Stringify(w))
  {
    ScanValue(v, 0);
    ScanConcat(Outside(0), before, [COLON] + Stringify(w));
    AfterColon(Scan(Outside(0), before), w);
  }

  /**
   * Signatures are equal exactly when the names are and the inputs are, up to key order. This needs
   * nothing of the names: a colon in one cannot be taken for the separator.
   */
  lemma SignatureDecides(a: Call, b: Call)
    requires WellFormed(a.input) && WellFormed(b.input)
    ensures ToolSignature(a.name, a.input) == ToolSignature(b.name, b.input)
       <==> a.name == b.name && SameValue(a.input, b.input)
  {
    StableTextDecides(a.input, b.input);
    if ToolSignature(a.name, a.input) == ToolSignature(b.name, b.input) {
      if |a.name| <= |b.name| {
        EqualSignatures(a, b);
      } else {
        EqualSignatures(b, a);
      }
    }
  }

  /** Two texts joined by a colon that read the same either part at the same colon, or one has the other's inside. */
  lemma SameJoin(a: Text, s: Text, b: Text, t: Text)
    requires a + ([COLON] + s) == b + ([COLON] + t) && |a| <= |b|
    ensures if |a| == |b| then a == b && s == t else s == b[|a|..][1..] + ([COLON] + t)
  {
    var n, x, y := |a|, [COLON] + s, [COLON] + t;
    assert a == (a + x)[..n] == (b + y)[..n] == b[..n];
    assert x == (a + x)[n..] == (b + y)[n..] == b[n..] + y;
    assert x[1..] == s && y[1..] == t;
    if n < |b| {
      assert (b[n..] + y)[1..] == b[n..][1..] + y;
    } else {
      assert b[n..] + y == y;
    }
  }

  lemma EqualSignatures(a: Call, b: Call)
    requires WellFormed(a.input) && WellFormed(b.input) && |a.name| <= |b.name|
    requires ToolSignature(a.name, a.input) == ToolSignature(b.name, b.input)
    ensures a.name == b.name && StableStringify(a.input) == StableStringify(b.input)
  {
    SameJoin(a.name, StableStringify(a.input), b.name, StableStringify(b.input));
    StableIsCanonical(a.input);
    StableIsCanonical(b.input);
    CanonPrintable(a.input);
    CanonPrintable(b.input);
    if |a.name| < |b.name| {
      NoColonSuffix(Canon(a.input), Canon(b.input), b.name[|a.name|..][1..]);
    }
  }

  // ----- the detector -----------------------------------------------------------------------------

  function Signature(c: Call): Text {
    ToolSignature(c.name, c.input)
  }

  /** How many calls at the end of a history carry the signature of the last one. */
  function Streak(history: seq<Call>): nat {
    if history == [] then 0
    else
      var before := history[..|history| - 1];
      1 + if before != [] && Signature(before[|before| - 1]) == Signature(history[|history| - 1]) then Streak(before) else 0
  }

  class LoopDetector {
    const threshold: nat
    var last: Option<Text>
    var count: nat

    constructor (threshold: nat)
      requires threshold >= 2
      ensures this.threshold == threshold && Tracks([])
    {
      this.threshold := threshold;
      last, count := None, 0;
    }

    /** The detector's state after exactly these calls. */
    predicate Tracks(history: seq<Call>)
      reads this
    {
      && count == Streak(history)
      && last == if history == [] then None else Some(Signature(history[|history| - 1]))
    }

    /** Reports the length of the current streak once it reaches the threshold, and not before. */
    method Record(call: Call, ghost history: seq<Call>) returns (repeated: Option<nat>)
      requires Tracks(history)
      modifies this
      ensures Tracks(history + [call])
      ensures repeated == if Streak(history + [call]) >= threshold then Some(Streak(history + [call])) else None
    {
      assert (history + [call])[..|history|] == history;
      var sig := Signature(call);
      if last == Some(sig) {
        count := count + 1;
      } else {
        last, count := Some(sig), 1;
      }
      repeated := if count >= threshold then Some(count) else None;
    }
  }

  /** A threshold below two is refused. */
  method NewLoopDetector(threshold: nat) returns (detector: Option<LoopDetector>)
    ensures detector.Some? <==> threshold >= 2
    ensures detector.Some? ==>
              fresh(detector.value) && detector.value.threshold == threshold && detector.value.Tracks([])
  {
    if threshold < 2 {
      return None;
    }
    var d := new LoopDetector(threshold);
    detector := Some(d);
  }

  /** Two calls the detector must not tell apart. */
  ghost predicate SameCall(a: Call, b: Call) {
    a.name == b.name && SameValue(a.input, b.input)
  }

  ghost predicate AllWellFormed(history: seq<Call>) {
    forall i :: 0 <= i < |history| ==> WellFormed(history[i].input)
  }

  /** The last `k` calls carry one signature. */
  ghost predicate SameSignatures(history: seq<Call>, k: nat)
    requires 1 <= k <= |history|
  {
    forall i :: |history| - k <= i < |history| ==> Signature(history[i]) == Signature(history[|history| - 1])
  }

  lemma {:induction false} StreakMeansSameSignatures(history: seq<Call>, k: nat)
    requires 1 <= k <= |history|
    ensures Streak(history) >= k <==> SameSignatures(history, k)
  {
    var n, before := |history|, history[..|history| - 1];
    if k > 1 {
      StreakMeansSameSignatures(before, k - 1);
      assert forall i :: n - k <= i < n - 1 ==> before[i] == history[i];
      assert before[n - 2] == history[n - 2];
    }
  }

  /**
   * The streak is at least `k` exactly when the last `k` calls are one and the same call: healthy
   * progress never trips the detector, and a spinning run always does.
   */
  lemma StreakMeansSameCalls(history: seq<Call>, k: nat)
    requires 1 <= k <= |history| && AllWellFormed(history)
    ensures Streak(history) >= k <==>
              forall i :: |history| - k <= i < |history| ==> SameCall(history[i], history[|history| - 1])
  {
    StreakMeansSameSignatures(history, k);
    forall i | 0 <= i < |history|
      ensures Signature(history[i]) == Signature(history[|history| - 1]) <==> SameCall(history[i], history[|history| - 1])
    {
      SignatureDecides(history[i], history[|history| - 1]);
    }
  }
}
