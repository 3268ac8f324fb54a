/**
 * The egress sidecar's push policy: the command section of a git-receive-pack body is parsed
 * (gitprotocol-common, "pkt-line Format") and a push is let through only onto run branches.
 */
module PktLine {
  import opened Common

  newtype Byte = b: int | 0 <= b < 256
  type Bytes = seq<Byte>

  const NUL: Byte := 0
  const SPACE: Byte := 32
  const ZERO: Byte := 48
  const FLUSH: Bytes := [ZERO, ZERO, ZERO, ZERO]
  // refs/heads/run/
  const RUN_PREFIX: Bytes := [114, 101, 102, 115, 47, 104, 101, 97, 100, 115, 47, 114, 117, 110, 47]

  function Ascii(s: string): Bytes
    requires forall i :: 0 <= i < |s| ==> s[i] as int < 256
  {
    seq(|s|, i requires 0 <= i < |s| => s[i] as int as Byte)
  }

  lemma Characters()
    ensures RUN_PREFIX == Ascii("refs/heads/run/") && FLUSH == Ascii("0000")
    ensures [SPACE] == Ascii(" ") && [NUL] == Ascii("\0") && [ZERO] == Ascii("0")
  {
  }

  datatype RefCommand = RefCommand(oldSha: Bytes, newSha: Bytes, ref: Bytes)
  datatype Parsed = Commands(commands: seq<RefCommand>) | BadLength(at: nat) | BadLine(line: Bytes)

  // ----- one line ------------------------------------------------------------------------------------

  function HexValue(b: Byte): Option<nat> {
    if 48 <= b <= 57 then Some(b as nat - 48)
    else if 97 <= b <= 102 then Some(b as nat - 87)
    else if 65 <= b <= 70 then Some(b as nat - 55)
    else None
  }

  const LOWER := "0123456789abcdef"
  const UPPER := "0123456789ABCDEF"

  /** The sixteen digits in either case, and no other byte, have a value: their place. */
  lemma HexDigits(b: Byte)
    ensures forall v: nat :: HexValue(b) == Some(v) <==> v < 16 && (LOWER[v] as int == b as int || UPPER[v] as int == b as int)
  {
  }

  /** The number hexadecimal digits stand for. */
  function Length(digits: Bytes): Option<nat> {
    if digits == [] then Some(0)
    else
      var front, last := Length(digits[..|digits| - 1]), HexValue(digits[|digits| - 1]);
      if front.None? || last.None? then None else Some(16 * front.value + last.value)
  }

  /** The pieces of `s` between the bytes `b`. */
  function Split(b: Byte, s: Bytes): (parts: seq<Bytes>)
    ensures parts != []
  {
    if s == [] then [[]]
    else
      var parts := Split(b, s[1..]);
      if s[0] == b then [[]] + parts else [[s[0]] + parts[0]] + parts[1..]
  }

  predicate White(b: Byte) {
    9 <= b <= 13 || b == SPACE
  }

  /** Tab, line feed, vertical tab, form feed, carriage return and space. */
  lemma WhiteSpace(b: Byte)
    ensures White(b) <==> b in {9, 10, 11, 12, 13, 32}
  {
  }

  function TrimStart(s: Bytes): Bytes {
    if s != [] && White(s[0]) then TrimStart(s[1..]) else s
  }

  function TrimEnd(s: Bytes): Bytes {
    if s != [] && White(s[|s| - 1]) then TrimEnd(s[..|s| - 1]) else s
  }

  function Trim(s: Bytes): Bytes {
    TrimEnd(TrimStart(s))
  }

  /** The first three space-separated fields of a line, none of which may be missing or empty. */
  function Fields(line: Bytes): Option<RefCommand> {
    var parts := Split(SPACE, line);
    if |parts| < 3 || parts[0] == [] || parts[1] == [] || parts[2] == [] then None
    else Some(RefCommand(parts[0], parts[1], parts[2]))
  }

  function Min(a: nat, b: nat): nat {
    if a < b then a else b
  }

  /** The bytes of a line after its length, as far as the body goes; lengths under four leave none. */
  function Payload(rest: Bytes, len: nat): Bytes
    requires |rest| >= 4
  {
    if len < 4 then [] else rest[4..Min(len, |rest|)]
  }

  /** The command text: what precedes the capabilities, without surrounding white space. */
  function LineText(payload: Bytes): Bytes {
    Trim(Split(NUL, payload)[0])
  }

  // ----- the command section -------------------------------------------------------------------------

  /** The payloads of a section's lines, and where a length that is no number cut it short, if one did. */
  datatype Section = Section(payloads: seq<Bytes>, bad: Option<nat>)

  /** Cutting the rest of a body, `at` bytes into it: up to a flush-pkt, a bad length, or the end. */
  function Cut(rest: Bytes, at: nat): Section
    decreases |rest|
  {
    if |rest| < 4 then Section([], None)
    else
      var len := Length(rest[..4]);
      if len.None? then Section([], Some(at))
      else if len.value == 0 then Section([], None)
      else
        var more := Cut(rest[Min(len.value, |rest|)..], at + len.value);
        Section([Payload(rest, len.value)] + more.payloads, more.bad)
  }

  function After(done: seq<RefCommand>, p: Parsed): Parsed {
    if p.Commands? then Commands(done + p.commands) else p
  }

  /** What the lines say: their commands, unless a line is bad or the section was cut short. */
  function Interpret(payloads: seq<Bytes>, bad: Option<nat>): Parsed {
    if payloads == [] then (if bad.None? then Commands([]) else BadLength(bad.value))
    else
      var c := Fields(LineText(payloads[0]));
      if c.None? then BadLine(LineText(payloads[0])) else After([c.value], Interpret(payloads[1..], bad))
  }

  function Read(s: Section): Parsed {
    Interpret(s.payloads, s.bad)
  }

  function Parse(body: Bytes): Parsed {
    Read(Cut(body, 0))
  }

  /** The bytes from an offset on; none when it lies past the end. */
  function From(body: Bytes, offset: nat): Bytes {
    body[Min(offset, |body|)..]
  }

  lemma FromFurther(body: Bytes, offset: nat, len: nat)
    ensures From(body, offset)[Min(len, |From(body, offset)|)..] == From(body, offset + len)
  {
  }

  /** The payload of the line at an offset, clamped to the body: a slice that would run past its end stops there. */
  function PayloadAt(body: Bytes, offset: nat, len: nat): Bytes
    requires offset + 4 <= |body|
  {
    if len < 4 then [] else body[offset + 4..Min(offset + len, |body|)]
  }

  lemma PayloadFrom(body: Bytes, offset: nat, len: nat)
    requires offset + 4 <= |body|
    ensures PayloadAt(body, offset, len) == Payload(From(body, offset), len)
  {
    if len >= 4 {
      assert body[offset..][4..Min(len, |body| - offset)] == body[offset + 4..Min(offset + len, |body|)];
    }
  }

  lemma CutOne(body: Bytes, offset: nat, len: nat)
    requires offset + 4 <= |body| && Length(body[offset..offset + 4]) == Some(len) && len > 0
    ensures var more := Cut(From(body, offset + len), offset + len);
            Cut(From(body, offset), offset) == Section([PayloadAt(body, offset, len)] + more.payloads, more.bad)
  {
    assert From(body, offset)[..4] == body[offset..offset + 4];
    FromFurther(body, offset, len);
    PayloadFrom(body, offset, len);
  }

  lemma CutNone(body: Bytes, offset: nat)
    requires offset + 4 <= |body|
    ensures Length(body[offset..offset + 4]).None? ==> Cut(From(body, offset), offset) == Section([], Some(offset))
    ensures Length(body[offset..offset + 4]) == Some(0) ==> Cut(From(body, offset), offset) == Section([], None)
  {
    assert From(body, offset)[..4] == body[offset..offset + 4];
  }

  lemma ReadOne(payload: Bytes, more: Section)
    ensures var c := Fields(LineText(payload));
            Read(Section([payload] + more.payloads, more.bad))
            == if c.None? then BadLine(LineText(payload)) else After([c.value], Read(more))
  {
    assert ([payload] + more.payloads)[1..] == more.payloads;
  }

  lemma AfterTwo(done: seq<RefCommand>, c: RefCommand, p: Parsed)
    ensures After(done, After([c], p)) == After(done + [c], p)
  {
    if p.Commands? {
      assert done + ([c] + p.commands) == done + [c] + p.commands;
    }
  }

  /** What is still to be read, `offset` bytes into a body. */
  ghost function Rest(body: Bytes, offset: nat): Parsed {
    Read(Cut(From(body, offset), offset))
  }

  /** One line of the loop: the end of the section, an error, or a command and where to go on. */
  datatype Turn = Flush | Fail(error: Parsed) | Next(command: RefCommand, offset: nat)

  function LineAt(body: Bytes, offset: nat): Turn
    requires offset + 4 <= |body|
  {
    var len := Length(body[offset..offset + 4]);
    if len.None? then Fail(BadLength(offset))
    else if len.value == 0 then Flush
    else LineOf(body, offset, len.value)
  }

  function LineOf(body: Bytes, offset: nat, len: nat): Turn
    requires offset + 4 <= |body|
  {
    var line := LineText(PayloadAt(body, offset, len));
    var c := Fields(line);
    if c.None? then Fail(BadLine(line)) else Next(c.value, offset + len)
  }

  /** One step of parsing what remains. */
  ghost predicate IsStep(body: Bytes, offset: nat, turn: Turn)
    requires offset <= |body|
  {
    match turn
    case Flush => Rest(body, offset) == Commands([])
    case Fail(error) => !error.Commands? && Rest(body, offset) == error
    case Next(c, next) => offset < next && Rest(body, offset) == After([c], Rest(body, next))
  }

  lemma LineEnds(body: Bytes, offset: nat)
    requires offset + 4 <= |body|
    requires Length(body[offset..offset + 4]).None? || Length(body[offset..offset + 4]) == Some(0)
    ensures IsStep(body, offset, LineAt(body, offset))
  {
    CutNone(body, offset);
  }

  lemma ReadsLine(body: Bytes, offset: nat, len: nat)
    requires offset + 4 <= |body| && len > 0
    requires var more := Cut(From(body, offset + len), offset + len);
             Cut(From(body, offset), offset) == Section([PayloadAt(body, offset, len)] + more.payloads, more.bad)
    ensures IsStep(body, offset, LineOf(body, offset, len))
  {
    ReadOne(PayloadAt(body, offset, len), Cut(From(body, offset + len), offset + len));
  }

  lemma LineGoesOn(body: Bytes, offset: nat, len: nat)
    requires offset + 4 <= |body| && Length(body[offset..offset + 4]) == Some(len) && len > 0
    ensures IsStep(body, offset, LineOf(body, offset, len))
  {
    CutOne(body, offset, len);
    ReadsLine(body, offset, len);
  }

  /** Reading one line in place is such a step. */
  lemma LineIsStep(body: Bytes, offset: nat)
    requires offset + 4 <= |body|
    ensures IsStep(body, offset, LineAt(body, offset))
  {
    var len := Length(body[offset..offset + 4]);
    if len.Some? && len.value > 0 {
      LineGoesOn(body, offset, len.value);
    } else {
      LineEnds(body, offset);
    }
  }

  method ParseReceivePackCommands(body: Bytes) returns (r: Parsed)
    ensures r == Parse(body)
  {
    var commands: seq<RefCommand> := [];
    var offset := 0;
    assert From(body, 0) == body;
    while offset + 4 <= |body|
      invariant Parse(body) == After(commands, Rest(body, offset))
      decreases |body| - offset
    {
      LineIsStep(body, offset);
      match LineAt(body, offset)
      case Flush =>
        return Commands(commands);
      case Fail(error) =>
        return error;
      case Next(c, next) =>
        AfterTwo(commands, c, Rest(body, next));
        commands := commands + [c];
        offset := next;
    }
    r := Commands(commands);
  }

  // ----- what a parsed command is --------------------------------------------------------------------

  /** A field that survived splitting: some bytes, none of them a separator. */
  ghost predicate Field(s: Bytes) {
    s != [] && SPACE !in s && NUL !in s
  }

  ghost predicate Clean(c: RefCommand) {
    Field(c.oldSha) && Field(c.newSha) && Field(c.ref)
  }

  ghost predicate AllWithout(b: Byte, parts: seq<Bytes>) {
    forall i :: 0 <= i < |parts| ==> b !in parts[i]
  }

  /** No piece holds the separator, nor anything the whole does not hold. */
  lemma {:induction false} SplitWithout(b: Byte, s: Bytes, x: Byte)
    requires x == b || x !in s
    ensures AllWithout(x, Split(b, s))
  {
    if s != [] {
      SplitWithout(b, s[1..], x);
    }
  }

  /** Splitting undoes joining. */
  lemma {:induction false} SplitJoined(b: Byte, s: Bytes, t: Bytes)
    requires b !in s
    ensures Split(b, s + ([b] + t)) == [s] + Split(b, t)
  {
    if s == [] {
      assert s + ([b] + t) == [b] + t && ([b] + t)[1..] == t;
    } else {
      assert (s + ([b] + t))[1..] == s[1..] + ([b] + t);
      SplitJoined(b, s[1..], t);
      assert [s[0]] + s[1..] == s;
    }
  }

  lemma {:induction false} SplitNone(b: Byte, s: Bytes)
    requires b !in s
    ensures Split(b, s) == [s]
  {
    if s != [] {
      SplitNone(b, s[1..]);
      assert [s[0]] + s[1..] == s;
    }
  }

  lemma {:induction false} TrimWithin(s: Bytes, b: Byte)
    requires b !in s
    ensures b !in TrimStart(s) && b !in TrimEnd(s)
  {
    if s != [] {
      TrimWithin(s[1..], b);
      TrimWithin(s[..|s| - 1], b);
    }
  }

  lemma CommandIsClean(payload: Bytes)
    requires Fields(LineText(payload)).Some?
    ensures Clean(Fields(LineText(payload)).value)
  {
    var section := Split(NUL, payload)[0];
    SplitWithout(NUL, payload, NUL);
    TrimWithin(section, NUL);
    TrimWithin(TrimStart(section), NUL);
    SplitWithout(SPACE, LineText(payload), SPACE);
    SplitWithout(SPACE, LineText(payload), NUL);
  }

  /** Commands, if any, that are all clean. */
  ghost predicate CleanIfAny(p: Parsed) {
    p.Commands? ==> forall i :: 0 <= i < |p.commands| ==> Clean(p.commands[i])
  }

  lemma CleanAfter(c: RefCommand, later: Parsed)
    requires Clean(c) && CleanIfAny(later)
    ensures CleanIfAny(After([c], later))
  {
  }

  /** Whatever the body holds, a command that comes out of it has three fields and no separators in them. */
  lemma {:induction false} ReadAreClean(payloads: seq<Bytes>, bad: Option<nat>)
    ensures CleanIfAny(Interpret(payloads, bad))
  {
    if payloads != [] && Fields(LineText(payloads[0])).Some? {
      CommandIsClean(payloads[0]);
      ReadAreClean(payloads[1..], bad);
      CleanAfter(Fields(LineText(payloads[0])).value, Interpret(payloads[1..], bad));
    }
  }

  // ----- round trip ----------------------------------------------------------------------------------

  /** One line as a client frames it: a command, and what follows its ref (newline, capabilities). */
  datatype Line = Line(command: RefCommand, tail: Bytes)

  function CommandText(c: RefCommand): Bytes {
    c.oldSha + ([SPACE] + (c.newSha + ([SPACE] + c.ref)))
  }

  ghost predicate AllWhite(s: Bytes) {
    forall i :: 0 <= i < |s| ==> White(s[i])
  }

  /** Framed as the protocol says: clean fields, nothing but white space before the capabilities. */
  ghost predicate WellFormed(l: Line) {
    && Clean(l.command)
    && !White(l.command.oldSha[0]) && !White(l.command.ref[|l.command.ref| - 1])
    && AllWhite(Split(NUL, l.tail)[0])
    && 4 + |CommandText(l.command)| + |l.tail| < 0x1_0000
  }

  function HexDigit(v: nat): Byte
    requires v < 16
  {
    if v < 10 then (48 + v) as Byte else (87 + v) as Byte
  }

  function HexFour(n: nat): Bytes
    requires n < 0x1_0000
  {
    [HexDigit(n / 4096), HexDigit(n / 256 % 16), HexDigit(n / 16 % 16), HexDigit(n % 16)]
  }

  function Frame(l: Line): Bytes
    requires WellFormed(l)
  {
    HexFour(4 + |CommandText(l.command)| + |l.tail|) + (CommandText(l.command) + l.tail)
  }

  ghost predicate AllWellFormed(lines: seq<Line>) {
    forall i :: 0 <= i < |lines| ==> WellFormed(lines[i])
  }

  function Encode(lines: seq<Line>): Bytes
    requires AllWellFormed(lines)
  {
    if lines == [] then [] else Frame(lines[0]) + Encode(lines[1..])
  }

  function CommandsOf(lines: seq<Line>): (r: seq<RefCommand>)
    ensures |r| == |lines| && forall i :: 0 <= i < |lines| ==> r[i] == lines[i].command
  {
    if lines == [] then [] else [lines[0].command] + CommandsOf(lines[1..])
  }

  lemma LengthOfFour(a: Byte, b: Byte, c: Byte, d: Byte)
    requires HexValue(a).Some? && HexValue(b).Some? && HexValue(c).Some? && HexValue(d).Some?
    ensures Length([a, b, c, d])
         == Some(4096 * HexValue(a).value + 256 * HexValue(b).value + 16 * HexValue(c).value + HexValue(d).value)
  {
    assert [a, b, c, d][..3] == [a, b, c] && [a, b, c][..2] == [a, b] && [a, b][..1] == [a] && [a][..0] == [];
    assert Length([]) == Some(0);
    assert Length([a]) == Some(HexValue(a).value);
    assert Length([a, b]) == Some(16 * HexValue(a).value + HexValue(b).value);
  }

  lemma DigitValue(v: nat)
    requires v < 16
    ensures HexValue(HexDigit(v)) == Some(v)
  {
  }

  lemma InDigits(n: nat)
    ensures n == 4096 * (n / 4096) + 256 * (n / 256 % 16) + 16 * (n / 16 % 16) + n % 16
  {
    assert n / 256 == 16 * (n / 4096) + n / 256 % 16;
    assert n / 16 == 16 * (n / 256) + n / 16 % 16;
  }

  lemma HexRoundTrip(n: nat)
    requires n < 0x1_0000
    ensures Length(HexFour(n)) == Some(n)
  {
    var a, b, c, d := n / 4096, n / 256 % 16, n / 16 % 16, n % 16;
    InDigits(n);
    DigitValue(a);
    DigitValue(b);
    DigitValue(c);
    DigitValue(d);
    LengthOfFour(HexDigit(a), HexDigit(b), HexDigit(c), HexDigit(d));
  }

  lemma {:induction false} SplitAfter(b: Byte, s: Bytes, t: Bytes)
    requires b !in s
    ensures Split(b, s + t)[0] == s + Split(b, t)[0]
  {
    if s == [] {
      assert s + t == t;
    } else {
      assert (s + t)[1..] == s[1..] + t;
      SplitAfter(b, s[1..], t);
    }
  }

  lemma {:induction false} TrimEndOf(s: Bytes, white: Bytes)
    requires AllWhite(white) && s != [] && !White(s[|s| - 1])
    ensures TrimEnd(s + white) == s
  {
    if white == [] {
      assert s + white == s;
    } else {
      assert (s + white)[..|s + white| - 1] == s + white[..|white| - 1];
      TrimEndOf(s, white[..|white| - 1]);
    }
  }

  lemma {:induction false} TrimStartOf(white: Bytes, s: Bytes)
    requires AllWhite(white) && s != [] && !White(s[0])
    ensures TrimStart(white + s) == s
  {
    if white == [] {
      assert white + s == s;
    } else {
      assert (white + s)[1..] == white[1..] + s;
      TrimStartOf(white[1..], s);
    }
  }

  /** Trimming takes the white space at both ends, and nothing else. */
  lemma TrimTakesEnds(before: Bytes, s: Bytes, after: Bytes)
    requires AllWhite(before) && AllWhite(after) && s != [] && !White(s[0]) && !White(s[|s| - 1])
    ensures Trim(before + s + after) == s
  {
    assert before + s + after == before + (s + after);
    TrimStartOf(before, s + after);
    TrimEndOf(s, after);
  }

  lemma FieldsOfText(c: RefCommand)
    requires Clean(c)
    ensures Fields(CommandText(c)) == Some(c)
  {
    SplitJoined(SPACE, c.oldSha, c.newSha + ([SPACE] + c.ref));
    SplitJoined(SPACE, c.newSha, c.ref);
    SplitNone(SPACE, c.ref);
  }

  /** A fourth field and any later ones are not looked at. */
  lemma LaterFieldsIgnored(c: RefCommand, more: Bytes)
    requires Clean(c)
    ensures Fields(CommandText(c) + ([SPACE] + more)) == Some(c)
  {
    SplitJoined(SPACE, c.oldSha, c.newSha + ([SPACE] + (c.ref + ([SPACE] + more))));
    SplitJoined(SPACE, c.newSha, c.ref + ([SPACE] + more));
    SplitJoined(SPACE, c.ref, more);
    assert CommandText(c) + ([SPACE] + more) == c.oldSha + ([SPACE] + (c.newSha + ([SPACE] + (c.ref + ([SPACE] + more)))));
  }

  lemma TextOfLine(l: Line)
    requires WellFormed(l)
    ensures LineText(CommandText(l.command) + l.tail) == CommandText(l.command)
  {
    var text, white := CommandText(l.command), Split(NUL, l.tail)[0];
    SplitAfter(NUL, text, l.tail);
    assert text[0] == l.command.oldSha[0] && text[|text| - 1] == l.command.ref[|l.command.ref| - 1];
    assert TrimStart(text + white) == text + white;
    TrimEndOf(text, white);
  }

  /** A framed line is cut off whole, and cutting goes on right after it. */
  lemma CutFrame(l: Line, more: Bytes, at: nat) returns (next: nat)
    requires WellFormed(l)
    ensures Cut(Frame(l) + more, at).payloads == [CommandText(l.command) + l.tail] + Cut(more, next).payloads
    ensures Cut(Frame(l) + more, at).bad == Cut(more, next).bad
  {
    var text := CommandText(l.command) + l.tail;
    var n := 4 + |text|;
    var body := Frame(l) + more;
    assert body[..4] == HexFour(n);
    HexRoundTrip(n);
    assert Payload(body, n) == text;
    assert body[Min(n, |body|)..] == more;
    next := at + n;
  }

  /** A section ends at a flush-pkt, whatever pack data follows it, or where fewer than four bytes remain. */
  ghost predicate EndsSection(end: Bytes) {
    |end| < 4 || end[..4] == FLUSH
  }

  /** Parsing what a client framed gives back exactly its commands, in order. */
  lemma {:induction false} RoundTrip(lines: seq<Line>, end: Bytes, at: nat)
    requires AllWellFormed(lines) && EndsSection(end)
    ensures Read(Cut(Encode(lines) + end, at)) == Commands(CommandsOf(lines))
  {
    if lines == [] {
      assert Encode(lines) + end == end;
      LengthOfFour(ZERO, ZERO, ZERO, ZERO);
    } else {
      var l, more := lines[0], Encode(lines[1..]) + end;
      assert Encode(lines) + end == Frame(l) + more;
      var next := CutFrame(l, more, at);
      RoundTrip(lines[1..], end, next);
      TextOfLine(l);
      FieldsOfText(l.command);
      ReadOne(CommandText(l.command) + l.tail, Cut(more, next));
    }
  }

  // ----- the policy ----------------------------------------------------------------------------------

  datatype Denial = NoCommands | OutsideRun(ref: Bytes) | Deleting(ref: Bytes) | Unparseable(error: Parsed)

  predicate AllZero(s: Bytes) {
    s != [] && forall i :: 0 <= i < |s| ==> s[i] == ZERO
  }

  predicate Allowed(c: RefCommand) {
    RUN_PREFIX <= c.ref && !AllZero(c.newSha)
  }

  predicate Acceptable(commands: seq<RefCommand>) {
    commands != [] && forall i :: 0 <= i < |commands| ==> Allowed(commands[i])
  }

  /** Why a command is refused; a ref outside the run branches is named before a deletion. */
  predicate Refuses(d: Denial, c: RefCommand) {
    || (d == OutsideRun(c.ref) && !(RUN_PREFIX <= c.ref))
    || (d == Deleting(c.ref) && RUN_PREFIX <= c.ref && AllZero(c.newSha))
  }

  /** Denied unless every command is allowed; the reason is the first command that is not. */
  method DenyReceivePack(commands: seq<RefCommand>) returns (d: Option<Denial>)
    ensures d.None? <==> Acceptable(commands)
    ensures commands == [] ==> d == Some(NoCommands)
    ensures d.Some? && commands != [] ==>
              exists i :: 0 <= i < |commands| && Refuses(d.value, commands[i]) && forall j :: 0 <= j < i ==> Allowed(commands[j])
  {
    if commands == [] {
      return Some(NoCommands);
    }
    for i := 0 to |commands|
      invariant forall j :: 0 <= j < i ==> Allowed(commands[j])
    {
      var c := commands[i];
      if !(RUN_PREFIX <= c.ref) {
        d := Some(OutsideRun(c.ref));
        assert Refuses(d.value, commands[i]);
        return;
      }
      if c.newSha != [] && forall k :: 0 <= k < |c.newSha| ==> c.newSha[k] == ZERO {
        d := Some(Deleting(c.ref));
        assert Refuses(d.value, commands[i]);
        return;
      }
    }
    d := None;
  }

  /** A push is passed on exactly when its command section parses and every command is allowed. */
  method PolicePush(body: Bytes) returns (d: Option<Denial>)
    ensures d.None? <==> Parse(body).Commands? && Acceptable(Parse(body).commands)
    ensures !Parse(body).Commands? ==> d == Some(Unparseable(Parse(body)))
  {
    var parsed := ParseReceivePackCommands(body);
    if !parsed.Commands? {
      return Some(Unparseable(parsed));
    }
    d := DenyReceivePack(parsed.commands);
  }

  ghost predicate Passes(body: Bytes) {
    Parse(body).Commands? && Acceptable(Parse(body).commands)
  }

  ghost predicate AllAllowed(lines: seq<Line>) {
    forall i :: 0 <= i < |lines| ==> Allowed(lines[i].command)
  }

  lemma AcceptableLines(lines: seq<Line>)
    ensures Acceptable(CommandsOf(lines)) <==> lines != [] && AllAllowed(lines)
  {
    var commands := CommandsOf(lines);
    if Acceptable(commands) {
      forall i | 0 <= i < |lines| ensures Allowed(lines[i].command) {
        assert Allowed(commands[i]);
      }
    }
  }

  /** What a client frames is let through exactly when it has commands and all of them update run branches. */
  lemma PolicyOnFramed(lines: seq<Line>, end: Bytes)
    requires AllWellFormed(lines) && EndsSection(end)
    ensures Passes(Encode(lines) + end) <==> lines != [] && AllAllowed(lines)
  {
    RoundTrip(lines, end, 0);
    AcceptableLines(lines);
  }

  /** Fit to be forwarded: three clean fields, a ref under the run prefix, and a new id that is not all zeros. */
  ghost predicate UpdatesRunBranch(c: RefCommand) {
    Clean(c) && RUN_PREFIX <= c.ref && exists k :: 0 <= k < |c.newSha| && c.newSha[k] != ZERO
  }

  /** Of any body at all: what is let through names at least one ref, and only updates of run branches. */
  lemma PassedPushes(body: Bytes, i: nat)
    requires Passes(body) && i < |Parse(body).commands|
    ensures UpdatesRunBranch(Parse(body).commands[i])
  {
    ReadAreClean(Cut(body, 0).payloads, Cut(body, 0).bad);
    assert Clean(Parse(body).commands[i]);
    assert Allowed(Parse(body).commands[i]);
  }
}
