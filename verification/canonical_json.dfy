/** Texts that forget the order of object keys: `stableStringify`, and what it identifies. */
module CanonicalJson {
  import opened JsonText

  // ----- ordering keys -------------------------------------------------------------------------

  /** By code units, a proper prefix first: the order of `Array.prototype.sort` on strings. */
  predicate Less(a: Text, b: Text) {
    b != [] && (a == [] || a[0] < b[0] || (a[0] == b[0] && Less(a[1..], b[1..])))
  }

  lemma {:induction false} LessTotal(a: Text, b: Text)
    ensures Less(a, b) || a == b || Less(b, a)
  {
    if a != [] && b != [] && a[0] == b[0] {
      LessTotal(a[1..], b[1..]);
      assert a == [a[0]] + a[1..] && b == [b[0]] + b[1..];
    }
  }

  lemma {:induction false} LessTransitive(a: Text, b: Text, c: Text)
    requires Less(a, b) && Less(b, c)
    ensures Less(a, c)
  {
    if a != [] && a[0] == b[0] && b[0] == c[0] {
      LessTransitive(a[1..], b[1..], c[1..]);
    }
  }

  lemma {:induction false} LessIrreflexive(a: Text)
    ensures !Less(a, a)
  {
    if a != [] {
      LessIrreflexive(a[1..]);
    }
  }

  function Insert<T>(e: Entry<T>, es: seq<Entry<T>>): seq<Entry<T>> {
    if es == [] || Less(e.key, es[0].key) then [e] + es else [es[0]] + Insert(e, es[1..])
  }

  function Sort<T>(es: seq<Entry<T>>): seq<Entry<T>> {
    if es == [] then [] else Insert(es[0], Sort(es[1..]))
  }

  ghost predicate StrictlySorted<T>(es: seq<Entry<T>>) {
    forall i, j :: 0 <= i < j < |es| ==> Less(es[i].key, es[j].key)
  }

  predicate DistinctKeys<T>(es: seq<Entry<T>>) {
    forall i, j :: 0 <= i < j < |es| ==> es[i].key != es[j].key
  }

  lemma {:induction false} InsertMembers<T>(e: Entry<T>, es: seq<Entry<T>>)
    ensures |Insert(e, es)| == |es| + 1
    ensures forall x :: x in Insert(e, es) <==> x == e || x in es
    ensures forall i :: 0 <= i < |Insert(e, es)| ==> Insert(e, es)[i] == e || Insert(e, es)[i] in es
  {
    if !(es == [] || Less(e.key, es[0].key)) {
      InsertMembers(e, es[1..]);
    }
  }

  lemma {:induction false} SortMembers<T>(es: seq<Entry<T>>)
    ensures |Sort(es)| == |es|
    ensures forall x :: x in Sort(es) <==> x in es
    ensures forall i :: 0 <= i < |Sort(es)| ==> Sort(es)[i] in es
  {
    if es != [] {
      SortMembers(es[1..]);
      InsertMembers(es[0], Sort(es[1..]));
    }
  }

  lemma {:induction false} InsertSorted<T>(e: Entry<T>, es: seq<Entry<T>>)
    requires StrictlySorted(es) && forall i :: 0 <= i < |es| ==> es[i].key != e.key
    ensures StrictlySorted(Insert(e, es))
  {
    if es == [] {
    } else if Less(e.key, es[0].key) {
      forall j | 0 <= j < |es|
        ensures Less(e.key, es[j].key)
      {
        if j > 0 {
          LessTransitive(e.key, es[0].key, es[j].key);
        }
      }
    } else {
      InsertSorted(e, es[1..]);
      InsertMembers(e, es[1..]);
      LessTotal(e.key, es[0].key);
      var rest := Insert(e, es[1..]);
      forall j | 0 <= j < |rest|
        ensures Less(es[0].key, rest[j].key)
      {
        if rest[j] != e {
          var k :| 0 <= k < |es[1..]| && es[1..][k] == rest[j];
          assert rest[j] == es[k + 1];
        }
      }
    }
  }

  lemma {:induction false} SortSorted<T>(es: seq<Entry<T>>)
    requires DistinctKeys(es)
    ensures StrictlySorted(Sort(es))
  {
    if es != [] {
      SortSorted(es[1..]);
      SortMembers(es[1..]);
      var rest := Sort(es[1..]);
      forall i | 0 <= i < |rest|
        ensures rest[i].key != es[0].key
      {
        var k :| 0 <= k < |es[1..]| && es[1..][k] == rest[i];
        assert rest[i] == es[k + 1];
      }
      InsertSorted(es[0], Sort(es[1..]));
    }
  }

  lemma EmptyIff<T>(es: seq<Entry<T>>)
    ensures es == [] <==> forall x :: x !in es
  {
    if es != [] {
      assert es[0] in es;
    }
  }

  /** Strictly sorted lists with the same members are the same list. */
  lemma {:induction false} SortedUnique<T>(a: seq<Entry<T>>, b: seq<Entry<T>>)
    requires StrictlySorted(a) && StrictlySorted(b) && forall x :: x in a <==> x in b
    ensures a == b
  {
    EmptyIff(a);
    EmptyIff(b);
    if a != [] && b != [] {
      assert a[0] in b && b[0] in a;
      var i :| 0 <= i < |b| && b[i] == a[0];
      var j :| 0 <= j < |a| && a[j] == b[0];
      if i > 0 && j > 0 {
        LessTransitive(a[0].key, b[0].key, a[0].key);
      }
      LessIrreflexive(a[0].key);
      assert a[0] == b[0];
      forall x
        ensures x in a[1..] <==> x in b[1..]
      {
        TailMembers(a, x);
        TailMembers(b, x);
      }
      SortedUnique(a[1..], b[1..]);
      assert a == [a[0]] + a[1..] && b == [b[0]] + b[1..];
    }
  }

  lemma TailMembers<T>(a: seq<Entry<T>>, x: Entry<T>)
    requires a != [] && StrictlySorted(a)
    ensures x in a[1..] <==> x in a && x != a[0]
  {
    LessIrreflexive(a[0].key);
  }

  /** Sorting forgets the order of the fields and nothing else. */
  lemma SortDecides<T>(a: seq<Entry<T>>, b: seq<Entry<T>>)
    requires DistinctKeys(a) && DistinctKeys(b)
    ensures Sort(a) == Sort(b) <==> forall x :: x in a <==> x in b
  {
    SortMembers(a);
    SortMembers(b);
    SortSorted(a);
    SortSorted(b);
    if forall x :: x in a <==> x in b {
      SortedUnique(Sort(a), Sort(b));
    }
    if Sort(a) == Sort(b) {
      forall x
        ensures x in a <==> x in b
      {
        assert x in a <==> x in Sort(a);
      }
    }
  }

  // ----- stableStringify -------------------------------------------------------------------------

  /** Like `Stringify`, but every object prints its keys in order. */
  function StableStringify(v: Json): Text {
    match v
    case Arr(items) => [OPEN_BRACKET] + StableItems(items, true)
    case Obj(fields) => [OPEN_BRACE] + PrintedFields(Sort(StableFields(fields)), true)
    case _ => Stringify(v)
  }

  function StableItems(items: seq<Json>, first: bool): Text
    decreases items, !first
  {
    if items == [] then [CLOSE_BRACKET]
    else if first then StableStringify(items[0]) + StableItems(items[1..], false)
    else [COMMA] + StableItems(items, true)
  }

  /** Each key with its value's text. */
  function StableFields(fields: seq<Entry<Json>>): seq<Entry<Text>> {
    if fields == [] then []
    else [Entry(fields[0].key, StableStringify(fields[0].value))] + StableFields(fields[1..])
  }

  function PrintedFields(fields: seq<Entry<Text>>, first: bool): Text
    decreases fields, !first
  {
    if fields == [] then [CLOSE_BRACE]
    else if first then Quote(fields[0].key) + ([COLON] + (fields[0].value + PrintedFields(fields[1..], false)))
    else [COMMA] + PrintedFields(fields, true)
  }

  /** The value with every object's fields put in order. */
  function Canon(v: Json): Json {
    match v
    case Arr(items) => Arr(CanonItems(items))
    case Obj(fields) => Obj(Sort(CanonFields(fields)))
    case _ => v
  }

  function CanonItems(items: seq<Json>): seq<Json> {
    if items == [] then [] else [Canon(items[0])] + CanonItems(items[1..])
  }

  function CanonFields(fields: seq<Entry<Json>>): seq<Entry<Json>> {
    if fields == [] then [] else [Entry(fields[0].key, Canon(fields[0].value))] + CanonFields(fields[1..])
  }

  /** Each field's value printed, the keys kept. */
  function Print(fields: seq<Entry<Json>>): seq<Entry<Text>> {
    seq(|fields|, i requires 0 <= i < |fields| => Entry(fields[i].key, Stringify(fields[i].value)))
  }

  lemma {:induction false} PrintInsert(e: Entry<Json>, es: seq<Entry<Json>>)
    ensures Print(Insert(e, es)) == Insert(Entry(e.key, Stringify(e.value)), Print(es))
  {
    if es != [] && !Less(e.key, es[0].key) {
      PrintInsert(e, es[1..]);
      assert Print(es)[1..] == Print(es[1..]);
      assert Print([es[0]] + Insert(e, es[1..])) == [Print(es)[0]] + Print(Insert(e, es[1..]));
    } else {
      assert Print([e] + es) == [Entry(e.key, Stringify(e.value))] + Print(es);
    }
  }

  lemma {:induction false} PrintSort(es: seq<Entry<Json>>)
    ensures Print(Sort(es)) == Sort(Print(es))
  {
    if es == [] {
      assert Print(es) == [];
    } else {
      PrintSort(es[1..]);
      PrintInsert(es[0], Sort(es[1..]));
      assert Print(es)[1..] == Print(es[1..]);
    }
  }

  lemma {:induction false} PrintedText(es: seq<Entry<Json>>, first: bool)
    ensures PrintedFields(Print(es), first) == FieldsText(es, first)
    decreases es, !first
  {
    if es != [] {
      if first {
        PrintedText(es[1..], false);
        assert Print(es) == [Entry(es[0].key, Stringify(es[0].value))] + Print(es[1..]);
      } else {
        PrintedText(es, true);
      }
    }
  }

  /** The stable text of a value is the plain text of its canonical form. */
  lemma {:induction false} StableIsCanonical(v: Json)
    ensures StableStringify(v) == Stringify(Canon(v))
    decreases v
  {
    match v
    case Arr(items) => StableItemsCanonical(items, true);
    case Obj(fields) =>
      StableFieldsCanonical(fields);
      PrintSort(CanonFields(fields));
      PrintedText(Sort(CanonFields(fields)), true);
    case _ =>
  }

  lemma {:induction false} StableItemsCanonical(items: seq<Json>, first: bool)
    ensures StableItems(items, first) == ItemsText(CanonItems(items), first)
    decreases items, !first
  {
    if items != [] {
      if first {
        StableIsCanonical(items[0]);
        StableItemsCanonical(items[1..], false);
      } else {
        StableItemsCanonical(items, true);
      }
    }
  }

  lemma {:induction false} StableFieldsCanonical(fields: seq<Entry<Json>>)
    ensures StableFields(fields) == Print(CanonFields(fields))
    decreases fields
  {
    if fields != [] {
      StableIsCanonical(fields[0].value);
      StableFieldsCanonical(fields[1..]);
    }
  }

  // ----- what it identifies ------------------------------------------------------------------------

  /** A JavaScript value: printable numbers, and no key twice in one object. */
  predicate WellFormed(v: Json) {
    match v
    case Num(lexeme) => NumberLexeme(lexeme)
    case Arr(items) => forall i :: 0 <= i < |items| ==> WellFormed(items[i])
    case Obj(fields) => DistinctKeys(fields) && forall i :: 0 <= i < |fields| ==> WellFormed(fields[i].value)
    case _ => true
  }

  predicate HasKey(fields: seq<Entry<Json>>, key: Text) {
    exists i :: 0 <= i < |fields| && fields[i].key == key
  }

  /** Equal up to the order of object keys. */
  ghost predicate SameValue(v: Json, w: Json) {
    match v
    case Arr(items) =>
      && w.Arr? && |w.items| == |items|
      && forall i :: 0 <= i < |items| ==> SameValue(items[i], w.items[i])
    case Obj(fields) =>
      && w.Obj?
      && (forall key :: HasKey(fields, key) <==> HasKey(w.fields, key))
      && (forall i, j :: 0 <= i < |fields| && 0 <= j < |w.fields| && fields[i].key == w.fields[j].key ==>
                           SameValue(fields[i].value, w.fields[j].value))
    case _ => v == w
  }

  lemma {:induction false} CanonFieldsAt(fields: seq<Entry<Json>>)
    ensures |CanonFields(fields)| == |fields|
    ensures forall i :: 0 <= i < |fields| ==> CanonFields(fields)[i] == Entry(fields[i].key, Canon(fields[i].value))
  {
    if fields != [] {
      CanonFieldsAt(fields[1..]);
    }
  }

  lemma {:induction false} CanonItemsAt(items: seq<Json>)
    ensures |CanonItems(items)| == |items|
    ensures forall i :: 0 <= i < |items| ==> CanonItems(items)[i] == Canon(items[i])
  {
    if items != [] {
      CanonItemsAt(items[1..]);
    }
  }

  lemma {:induction false} CanonPrintable(v: Json)
    requires WellFormed(v)
    ensures Printable(Canon(v))
  {
    match v
    case Arr(items) =>
      CanonItemsAt(items);
      forall i | 0 <= i < |items| { CanonPrintable(items[i]); }
    case Obj(fields) =>
      var canon := CanonFields(fields);
      CanonFieldsAt(fields);
      SortMembers(canon);
      forall i | 0 <= i < |fields| { CanonPrintable(fields[i].value); }
      forall i | 0 <= i < |canon|
        ensures Printable(Sort(canon)[i].value)
      {
        assert Sort(canon)[i] in Sort(canon);
        var k :| 0 <= k < |canon| && canon[k] == Sort(canon)[i];
      }
    case _ =>
  }

  /** Values are the same up to key order exactly when their canonical forms are equal. */
  lemma {:induction false} CanonDecides(v: Json, w: Json)
    requires WellFormed(v) && WellFormed(w)
    ensures SameValue(v, w) <==> Canon(v) == Canon(w)
    decreases v
  {
    if v.Arr? && w.Arr? {
      CanonItemsAt(v.items);
      CanonItemsAt(w.items);
      if |v.items| == |w.items| {
        forall i | 0 <= i < |v.items| { CanonDecides(v.items[i], w.items[i]); }
        assert CanonItems(v.items) == CanonItems(w.items) ==>
               forall i :: 0 <= i < |v.items| ==> CanonItems(v.items)[i] == CanonItems(w.items)[i];
      }
    } else if v.Obj? && w.Obj? {
      forall i, j | 0 <= i < |v.fields| && 0 <= j < |w.fields| {
        CanonDecides(v.fields[i].value, w.fields[j].value);
      }
      SameObjMatched(v.fields, w.fields);
      CanonObjDecides(v.fields, w.fields);
    }
  }

  /** Every key of one is a key of the other, with the same canonical value. */
  ghost predicate Matched(vs: seq<Entry<Json>>, ws: seq<Entry<Json>>) {
    && (forall key :: HasKey(vs, key) ==> HasKey(ws, key))
    && (forall i, j :: 0 <= i < |vs| && 0 <= j < |ws| && vs[i].key == ws[j].key ==>
                         Canon(vs[i].value) == Canon(ws[j].value))
  }

  lemma MatchedMembers(vs: seq<Entry<Json>>, ws: seq<Entry<Json>>)
    requires DistinctKeys(ws)
    ensures Matched(vs, ws) <==> forall x :: x in CanonFields(vs) ==> x in CanonFields(ws)
  {
    CanonFieldsAt(vs);
    CanonFieldsAt(ws);
    if Matched(vs, ws) {
      forall x | x in CanonFields(vs)
        ensures x in CanonFields(ws)
      {
        var i :| 0 <= i < |vs| && CanonFields(vs)[i] == x;
        assert HasKey(vs, vs[i].key);
        var j :| 0 <= j < |ws| && ws[j].key == vs[i].key;
        assert CanonFields(ws)[j] == x;
      }
    }
    if forall x :: x in CanonFields(vs) ==> x in CanonFields(ws) {
      forall i | 0 <= i < |vs|
        ensures HasKey(ws, vs[i].key)
        ensures forall j :: 0 <= j < |ws| && vs[i].key == ws[j].key ==> Canon(vs[i].value) == Canon(ws[j].value)
      {
        assert CanonFields(vs)[i] in CanonFields(ws);
        var k :| 0 <= k < |ws| && CanonFields(ws)[k] == CanonFields(vs)[i];
        assert ws[k].key == vs[i].key;
      }
    }
  }

  lemma SameObjMatched(vs: seq<Entry<Json>>, ws: seq<Entry<Json>>)
    requires forall i, j :: 0 <= i < |vs| && 0 <= j < |ws| ==>
               (SameValue(vs[i].value, ws[j].value) <==> Canon(vs[i].value) == Canon(ws[j].value))
    ensures SameValue(Obj(vs), Obj(ws)) <==> Matched(vs, ws) && Matched(ws, vs)
  {
  }

  lemma CanonObjDecides(vs: seq<Entry<Json>>, ws: seq<Entry<Json>>)
    requires DistinctKeys(vs) && DistinctKeys(ws)
    ensures Matched(vs, ws) && Matched(ws, vs) <==> Sort(CanonFields(vs)) == Sort(CanonFields(ws))
  {
    MatchedMembers(vs, ws);
    MatchedMembers(ws, vs);
    CanonFieldsAt(vs);
    CanonFieldsAt(ws);
    SortDecides(CanonFields(vs), CanonFields(ws));
  }

  /**
   * Over all values: two stable texts are equal exactly when the values are, up to the order of
   * object keys at every depth.
   */
  lemma StableTextDecides(v: Json, w: Json)
    requires WellFormed(v) && WellFormed(w)
    ensures StableStringify(v) == StableStringify(w) <==> SameValue(v, w)
  {
    StableIsCanonical(v);
    StableIsCanonical(w);
    CanonPrintable(v);
    CanonPrintable(w);
    CanonDecides(v, w);
    if StableStringify(v) == StableStringify(w) {
      StringifyInjective(Canon(v), Canon(w));
    }
  }
}
