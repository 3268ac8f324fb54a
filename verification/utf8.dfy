/**
 * Decoding bytes as UTF-8 and encoding the text again. Ill-formed bytes become the replacement
 * character, one per maximal subpart (the Unicode Standard, section 3.9, U+FFFD Substitution of
 * Maximal Subparts), so the round trip keeps exactly the well-formed texts.
 */
module Utf8 {
  type Bytes = seq<nat>

  const REPLACEMENT: Bytes := [0xEF, 0xBF, 0xBD]

  /** How many bytes a sequence led by `b` has; zero when none starts with it. */
  function Need(b: nat): nat {
    if b < 0x80 then 1
    else if 0xC2 <= b <= 0xDF then 2
    else if 0xE0 <= b <= 0xEF then 3
    else if 0xF0 <= b <= 0xF4 then 4
    else 0
  }

  /** The second byte excludes overlong forms, surrogates and code points past the last one. */
  predicate SecondFits(lead: nat, b: nat) {
    (if lead == 0xE0 then 0xA0 else if lead == 0xF0 then 0x90 else 0x80) <= b
    <= (if lead == 0xED then 0x9F else if lead == 0xF4 then 0x8F else 0xBF)
  }

  predicate Continues(b: nat) {
    0x80 <= b <= 0xBF
  }

  /** How many bytes at the head begin a well-formed sequence, at least the first byte. */
  function Matched(s: Bytes): (n: nat)
    requires s != []
    ensures 1 <= n <= |s|
    ensures Need(s[0]) != 0 ==> n <= Need(s[0])
  {
    if Need(s[0]) < 2 || |s| < 2 || !SecondFits(s[0], s[1]) then 1
    else if Need(s[0]) < 3 || |s| < 3 || !Continues(s[2]) then 2
    else if Need(s[0]) < 4 || |s| < 4 || !Continues(s[3]) then 3
    else 4
  }

  /** A whole character stands at the head. */
  predicate Whole(s: Bytes)
    requires s != []
  {
    Matched(s) == Need(s[0])
  }

  predicate WellFormed(s: Bytes) {
    s == [] || (Whole(s) && WellFormed(s[Matched(s)..]))
  }

  function Recode(s: Bytes): Bytes {
    if s == [] then []
    else (if Whole(s) then s[..Matched(s)] else REPLACEMENT) + Recode(s[Matched(s)..])
  }

  /** A whole character stays one whatever follows it. */
  lemma WholeStays(s: Bytes, more: Bytes)
    requires s != [] && Whole(s)
    ensures var t := s[..Matched(s)] + more;
            t != [] && Whole(t) && Matched(t) == Matched(s) && t[Matched(t)..] == more
  {
    var n, t := Matched(s), s[..Matched(s)] + more;
    assert forall k :: 0 <= k < n ==> t[k] == s[k];
    assert t[n..] == more;
  }

  lemma ReplacementIsWhole(more: Bytes)
    ensures var t := REPLACEMENT + more;
            t != [] && Whole(t) && Matched(t) == 3 && t[3..] == more
  {
    var t := REPLACEMENT + more;
    assert t[0] == 0xEF && t[1] == 0xBF && t[2] == 0xBD;
  }

  /** The round trip leaves a text unchanged exactly when it is well-formed. */
  lemma {:induction false} RecodeKeeps(s: Bytes)
    ensures Recode(s) == s <==> WellFormed(s)
  {
    if s != [] {
      var rest := s[Matched(s)..];
      RecodeKeeps(rest);
      if Whole(s) {
        assert s == s[..Matched(s)] + rest;
        assert Recode(s)[Matched(s)..] == Recode(rest);
      } else if Recode(s) == s {
        ReplacementIsWhole(Recode(rest));
        assert false;
      }
    }
  }

  /** And what it gives is well-formed, so a second one changes nothing. */
  lemma {:induction false} RecodeIsWellFormed(s: Bytes)
    ensures WellFormed(Recode(s))
  {
    if s != [] {
      var rest := Recode(s[Matched(s)..]);
      RecodeIsWellFormed(s[Matched(s)..]);
      if Whole(s) {
        WholeStays(s, rest);
      } else {
        ReplacementIsWhole(rest);
      }
    }
  }

  lemma RecodeOnce(s: Bytes)
    ensures Recode(Recode(s)) == Recode(s)
  {
    RecodeIsWellFormed(s);
    RecodeKeeps(Recode(s));
  }

  // ----- against the encoding itself ---------------------------------------------------------------

  /** A Unicode scalar value: any code point that is no surrogate. */
  type Scalar = c: nat | c <= 0x10FFFF && !(0xD800 <= c <= 0xDFFF)

  /** Six bits a byte after the first (the Unicode Standard, table 3-6). */
  function Encode(c: Scalar): Bytes {
    if c < 0x80 then [c]
    else if c < 0x800 then [0xC0 + c / 64, 0x80 + c % 64]
    else if c < 0x1_0000 then [0xE0 + c / 64 / 64, 0x80 + c / 64 % 64, 0x80 + c % 64]
    else [0xF0 + c / 64 / 64 / 64, 0x80 + c / 64 / 64 % 64, 0x80 + c / 64 % 64, 0x80 + c % 64]
  }

  function EncodeAll(cs: seq<Scalar>): Bytes {
    if cs == [] then [] else Encode(cs[0]) + EncodeAll(cs[1..])
  }

  lemma EncodeIsWhole(c: Scalar, more: Bytes)
    ensures var s := Encode(c) + more;
            s != [] && Whole(s) && Matched(s) == |Encode(c)| && s[..Matched(s)] == Encode(c) && s[Matched(s)..] == more
  {
    var e, s := Encode(c), Encode(c) + more;
    assert forall k :: 0 <= k < |e| ==> s[k] == e[k];
    EncodedBytes(c);
    assert s[..|e|] == e && s[|e|..] == more;
  }

  /** The bytes of an encoding are those the reading accepts. */
  lemma EncodedBytes(c: Scalar)
    ensures var e := Encode(c);
            && |e| == Need(e[0]) && (|e| > 1 ==> SecondFits(e[0], e[1]))
            && forall k :: 2 <= k < |e| ==> Continues(e[k])
  {
    if c >= 0x80 {
      var b := c / 64;
      assert c == 64 * b + c % 64;
      if c >= 0x800 {
        var d := b / 64;
        assert b == 64 * d + b % 64;
        if c >= 0x1_0000 {
          assert d == 64 * (d / 64) + d % 64;
        }
      }
    }
  }

  lemma TwoEncoded(a: int, b: int) returns (c: Scalar)
    requires 0xC2 <= a <= 0xDF && 0x80 <= b <= 0xBF
    ensures Encode(c) == [a, b]
  {
    c := 64 * (a - 0xC0) + (b - 0x80);
  }

  lemma ThreeEncoded(a: int, b: int, d: int) returns (c: Scalar)
    requires 0xE0 <= a <= 0xEF && 0 <= b && SecondFits(a, b) && 0x80 <= d <= 0xBF
    ensures Encode(c) == [a, b, d]
  {
    var high: int := 64 * (a - 0xE0) + (b - 0x80);
    c := 64 * high + (d - 0x80);
    assert c / 64 == high && high / 64 == a - 0xE0;
  }

  lemma FourEncoded(a: int, b: int, d: int, e: int) returns (c: Scalar)
    requires 0xF0 <= a <= 0xF4 && 0 <= b && SecondFits(a, b) && 0x80 <= d <= 0xBF && 0x80 <= e <= 0xBF
    ensures Encode(c) == [a, b, d, e]
  {
    var top: int := 64 * (a - 0xF0) + (b - 0x80);
    var high: int := 64 * top + (d - 0x80);
    c := 64 * high + (e - 0x80);
    assert c / 64 == high && high / 64 == top && top / 64 == a - 0xF0;
  }

  lemma WholeIsEncoded(s: Bytes) returns (c: Scalar)
    requires s != [] && Whole(s)
    ensures s[..Matched(s)] == Encode(c)
  {
    var n := Matched(s);
    if n == 1 {
      c := s[0];
    } else if n == 2 {
      c := TwoEncoded(s[0], s[1]);
    } else if n == 3 {
      c := ThreeEncoded(s[0], s[1], s[2]);
    } else {
      c := FourEncoded(s[0], s[1], s[2], s[3]);
    }
  }

  lemma EncodeOneMore(c: Scalar, cs: seq<Scalar>)
    ensures EncodeAll([c] + cs) == Encode(c) + EncodeAll(cs)
  {
    assert ([c] + cs)[1..] == cs;
  }

  /** The encoding of any scalar values is well-formed, and comes back unchanged. */
  lemma {:induction false} EncodedIsKept(cs: seq<Scalar>)
    ensures WellFormed(EncodeAll(cs)) && Recode(EncodeAll(cs)) == EncodeAll(cs)
  {
    if cs != [] {
      EncodedIsKept(cs[1..]);
      EncodeIsWhole(cs[0], EncodeAll(cs[1..]));
    }
  }

  /** And what is well-formed encodes some. */
  lemma {:induction false} WellFormedIsEncoded(s: Bytes) returns (cs: seq<Scalar>)
    requires WellFormed(s)
    ensures EncodeAll(cs) == s
  {
    if s == [] {
      cs := [];
    } else {
      var n := Matched(s);
      var c := WholeIsEncoded(s);
      var more := WellFormedIsEncoded(s[n..]);
      cs := [c] + more;
      EncodeOneMore(c, more);
      assert s == s[..n] + s[n..];
    }
  }

  ghost predicate Encoded(s: Bytes) {
    exists cs: seq<Scalar> :: EncodeAll(cs) == s
  }

  /** Well-formed are exactly the encodings of sequences of scalar values. */
  lemma WellFormedExactly(s: Bytes)
    ensures WellFormed(s) <==> Encoded(s)
  {
    if WellFormed(s) {
      var cs := WellFormedIsEncoded(s);
    } else if Encoded(s) {
      var cs: seq<Scalar> :| EncodeAll(cs) == s;
      EncodedIsKept(cs);
    }
  }

  lemma NoLongerHead(s: Bytes, m: nat, c: Scalar)
    requires s != [] && !Whole(s) && Matched(s) < m <= |s|
    ensures !(s[..m] <= Encode(c))
  {
    if s[..m] <= Encode(c) {
      var e := Encode(c);
      EncodedBytes(c);
      assert forall k :: 0 <= k < m ==> s[k] == s[..m][k] == e[k];
      assert false;
    }
  }

  lemma HeadBegins(s: Bytes) returns (c: Scalar)
    requires s != [] && !Whole(s) && Matched(s) > 1
    ensures s[..Matched(s)] <= Encode(c)
  {
    if Matched(s) == 3 {
      c := FourEncoded(s[0], s[1], s[2], 0x80);
    } else if s[0] < 0xF0 {
      c := ThreeEncoded(s[0], s[1], 0x80);
    } else {
      c := FourEncoded(s[0], s[1], 0x80, 0x80);
    }
  }

  /** The first `n` bytes are the longest head that begins the encoding of some scalar value, or a single byte. */
  ghost predicate MaximalSubpart(s: Bytes, n: nat) {
    && n <= |s|
    && (n > 1 ==> exists c: Scalar :: s[..n] <= Encode(c))
    && forall m, c: Scalar :: n < m <= |s| ==> !(s[..m] <= Encode(c))
  }

  lemma MatchedIsMaximal(s: Bytes)
    requires s != [] && !Whole(s)
    ensures MaximalSubpart(s, Matched(s))
  {
    var n := Matched(s);
    if n > 1 {
      var c := HeadBegins(s);
    }
    forall m, c: Scalar | n < m <= |s| ensures !(s[..m] <= Encode(c)) {
      NoLongerHead(s, m, c);
    }
  }

  /** Where no encoding stands, a maximal subpart is replaced by the replacement character. */
  lemma ReplacesMaximalSubpart(s: Bytes)
    requires s != [] && forall c: Scalar :: !(Encode(c) <= s)
    ensures exists n: nat :: MaximalSubpart(s, n) && n > 0 && Recode(s) == Encode(0xFFFD) + Recode(s[n..])
  {
    if Whole(s) {
      var c := WholeIsEncoded(s);
      assert false;
    }
    MatchedIsMaximal(s);
    assert Encode(0xFFFD) == REPLACEMENT;
  }

  /** A lone 0xE9, the Latin-1 text of an accented letter, comes back as the replacement character. */
  lemma LatinIsReplaced()
    ensures Recode([0xE9]) == REPLACEMENT && !WellFormed([0xE9])
  {
    assert [0xE9][1..] == [];
    assert Recode([0xE9]) == REPLACEMENT + Recode([]);
  }
}
