/**
 * Two provider wires for one conversation. Gemini keys a tool result to its call by function name,
 * so the adapter looks the name up by id; OpenAI sends one message per result, after the assistant
 * message that made the calls.
 */
module Translations {
  import opened Common
  import opened JsonText
  import opened Transcripts

  // ----- Gemini ------------------------------------------------------------------------------------

  datatype GeminiPart =
    | TextPart(text: Text)
    | FunctionCall(name: Text, args: Json)
    | FunctionResponse(name: Text, result: Text)

  datatype GeminiContent = FromUser(parts: seq<GeminiPart>) | FromModel(parts: seq<GeminiPart>)

  function NamesOf(calls: seq<ToolCall>): map<Text, Text> {
    if calls == [] then map[]
    else NamesOf(calls[..|calls| - 1])[calls[|calls| - 1].id := calls[|calls| - 1].name]
  }

  /** The name last given to each call id. */
  function NameById(ms: seq<Message>): map<Text, Text> {
    if ms == [] then map[]
    else
      var before, m := NameById(ms[..|ms| - 1]), ms[|ms| - 1];
      if m.Assistant? then before + NamesOf(m.calls) else before
  }

  /** An absent or empty text gives no part. */
  function TextParts(said: Option<Text>): seq<GeminiPart> {
    if said.Some? && said.value != [] then [TextPart(said.value)] else []
  }

  function ToGemini(m: Message, names: map<Text, Text>): GeminiContent {
    match m
    case User(text) => FromUser([TextPart(text)])
    case Assistant(said, calls) =>
      FromModel(TextParts(said) + seq(|calls|, j requires 0 <= j < |calls| => FunctionCall(calls[j].name, calls[j].input)))
    case Tool(results) =>
      FromUser(seq(|results|, j requires 0 <= j < |results| =>
        FunctionResponse(if results[j].toolCallId in names then names[results[j].toolCallId] else results[j].toolCallId,
                         results[j].output)))
  }

  /** No call id is used twice in the conversation. */
  ghost predicate DistinctIds(ms: seq<Message>) {
    forall i, k, j, l :: 0 <= i < |ms| && 0 <= k < |ms| && ms[i].Assistant? && ms[k].Assistant?
                         && 0 <= j < |ms[i].calls| && 0 <= l < |ms[k].calls| && ms[i].calls[j].id == ms[k].calls[l].id
                         ==> i == k && j == l
  }

  lemma {:induction false} NamesOfCalls(calls: seq<ToolCall>, j: nat)
    requires j < |calls| && forall l :: 0 <= l < |calls| && calls[l].id == calls[j].id ==> l == j
    ensures calls[j].id in NamesOf(calls) && NamesOf(calls)[calls[j].id] == calls[j].name
  {
    if j < |calls| - 1 {
      NamesOfCalls(calls[..|calls| - 1], j);
    }
  }

  lemma {:induction false} NamesOfAbsent(calls: seq<ToolCall>, id: Text)
    requires forall l :: 0 <= l < |calls| ==> calls[l].id != id
    ensures id !in NamesOf(calls)
  {
    if calls != [] {
      NamesOfAbsent(calls[..|calls| - 1], id);
    }
  }

  lemma {:induction false} NameByIdFinds(ms: seq<Message>, i: nat, j: nat)
    requires DistinctIds(ms) && i < |ms| && ms[i].Assistant? && j < |ms[i].calls|
    ensures var id := ms[i].calls[j].id;
            id in NameById(ms) && NameById(ms)[id] == ms[i].calls[j].name
  {
    var n := |ms| - 1;
    var before := ms[..n];
    if i == n {
      NamesOfCalls(ms[n].calls, j);
    } else {
      assert forall k :: 0 <= k < n ==> before[k] == ms[k];
      NameByIdFinds(before, i, j);
      if ms[n].Assistant? {
        NamesOfAbsent(ms[n].calls, ms[i].calls[j].id);
      }
    }
  }

  /**
   * In a conversation of the loop's shape every function response carries the name of the call it
   * answers, and stands where that call stands among the model's, in the content just before.
   */
  lemma GeminiPairsByName(ms: seq<Message>, i: nat, j: nat)
    requires Shape(ms) && DistinctIds(ms) && 0 < i < |ms| && i % 2 == 0 && j < |ms[i].results|
    ensures var names := NameById(ms);
            var asked, answered := ToGemini(ms[i - 1], names), ToGemini(ms[i], names);
            var call := ms[i - 1].calls[j];
            && asked.FromModel? && answered.FromUser? && |answered.parts| == |ms[i - 1].calls|
            && |asked.parts| == |TextParts(ms[i - 1].said)| + |answered.parts|
            && asked.parts[|TextParts(ms[i - 1].said)| + j] == FunctionCall(call.name, call.input)
            && answered.parts[j] == FunctionResponse(call.name, ms[i].results[j].output)
  {
    NameByIdFinds(ms, i - 1, j);
    assert ms[i].results[j].toolCallId == ms[i - 1].calls[j].id;
  }

  /** All the text in some parts, in order. */
  function TextIn(parts: seq<GeminiPart>): Text {
    if parts == [] then [] else TextIn(parts[..|parts| - 1]) + (if parts[|parts| - 1].TextPart? then parts[|parts| - 1].text else [])
  }

  lemma {:induction false} NoTextIn(said: seq<GeminiPart>, parts: seq<GeminiPart>)
    requires forall i :: 0 <= i < |parts| ==> !parts[i].TextPart?
    ensures TextIn(said + parts) == TextIn(said)
  {
    if parts == [] {
      assert said + parts == said;
    } else {
      var front := parts[..|parts| - 1];
      NoTextIn(said, front);
      assert (said + parts)[..|said + parts| - 1] == said + front;
    }
  }

  /** A turn's content comes from its own side, with the text it had and no other, and no empty part. */
  lemma GeminiKeepsText(m: Message, names: map<Text, Text>)
    ensures ToGemini(m, names).FromModel? <==> m.Assistant?
    ensures TextIn(ToGemini(m, names).parts) == match m
                                                case User(text) => text
                                                case Assistant(said, _) => if said.Some? then said.value else []
                                                case Tool(_) => []
    ensures m.Assistant? ==> TextPart([]) !in ToGemini(m, names).parts
  {
    var content := ToGemini(m, names);
    match m
    case User(text) => assert content.parts[..0] == [];
    case Assistant(said, calls) =>
      NoTextIn(TextParts(said), content.parts[|TextParts(said)|..]);
      assert content.parts == TextParts(said) + content.parts[|TextParts(said)|..];
    case Tool(results) =>
      NoTextIn([], content.parts);
      assert [] + content.parts == content.parts;
  }

  method CallParts(parts: seq<GeminiPart>, calls: seq<ToolCall>) returns (longer: seq<GeminiPart>)
    ensures longer == parts + seq(|calls|, j requires 0 <= j < |calls| => FunctionCall(calls[j].name, calls[j].input))
  {
    longer := parts;
    for j := 0 to |calls|
      invariant longer == parts + seq(j, i requires 0 <= i < j => FunctionCall(calls[i].name, calls[i].input))
    {
      longer := longer + [FunctionCall(calls[j].name, calls[j].input)];
    }
  }

  method ResponseParts(results: seq<ToolResult>, names: map<Text, Text>) returns (parts: seq<GeminiPart>)
    ensures FromUser(parts) == ToGemini(Tool(results), names)
  {
    parts := [];
    for j := 0 to |results|
      invariant |parts| == j && forall i :: 0 <= i < j ==> parts[i] == ToGemini(Tool(results), names).parts[i]
    {
      var id := results[j].toolCallId;
      var name := id;
      if id in names {
        name := names[id];
      }
      parts := parts + [FunctionResponse(name, results[j].output)];
    }
  }

  method GeminiContentOf(m: Message, names: map<Text, Text>) returns (content: GeminiContent)
    ensures content == ToGemini(m, names)
  {
    match m {
      case User(text) =>
        content := FromUser([TextPart(text)]);
      case Assistant(said, calls) =>
        var parts := [];
        if said.Some? && said.value != [] {
          parts := parts + [TextPart(said.value)];
        }
        parts := CallParts(parts, calls);
        content := FromModel(parts);
      case Tool(results) =>
        var parts := ResponseParts(results, names);
        content := FromUser(parts);
    }
  }

  method GeminiContents(ms: seq<Message>) returns (contents: seq<GeminiContent>)
    ensures |contents| == |ms|
    ensures forall i :: 0 <= i < |ms| ==> contents[i] == ToGemini(ms[i], NameById(ms))
  {
    var names: map<Text, Text> := map[];
    for i := 0 to |ms|
      invariant names == NameById(ms[..i])
    {
      if ms[i].Assistant? {
        ghost var before := names;
        var calls := ms[i].calls;
        for j := 0 to |calls|
          invariant names == before + NamesOf(calls[..j])
        {
          names := names[calls[j].id := calls[j].name];
          assert calls[..j + 1][..j] == calls[..j];
        }
        assert calls[..|calls|] == calls;
      }
      assert ms[..i + 1][..i] == ms[..i];
    }
    assert ms[..|ms|] == ms;
    contents := [];
    for i := 0 to |ms|
      invariant |contents| == i && forall k :: 0 <= k < i ==> contents[k] == ToGemini(ms[k], names)
    {
      var content := GeminiContentOf(ms[i], names);
      contents := contents + [content];
    }
  }

  // ----- OpenAI ------------------------------------------------------------------------------------

  datatype OpenAiCall = OpenAiCall(id: Text, name: Text, arguments: Text)

  /** `toolCalls` is absent when the turn made none. */
  datatype OpenAiMessage =
    | OpenAiUser(content: Text)
    | OpenAiAssistant(said: Option<Text>, toolCalls: Option<seq<OpenAiCall>>)
    | OpenAiTool(toolCallId: Text, output: Text)

  function WireCalls(calls: seq<ToolCall>): seq<OpenAiCall> {
    seq(|calls|, j requires 0 <= j < |calls| => OpenAiCall(calls[j].id, calls[j].name, Stringify(calls[j].input)))
  }

  function Wire(m: Message): seq<OpenAiMessage> {
    match m
    case User(text) => [OpenAiUser(text)]
    case Assistant(said, calls) => [OpenAiAssistant(said, if calls == [] then None else Some(WireCalls(calls)))]
    case Tool(results) =>
      seq(|results|, j requires 0 <= j < |results| => OpenAiTool(results[j].toolCallId, results[j].output))
  }

  function ToOpenAi(ms: seq<Message>): seq<OpenAiMessage> {
    if ms == [] then [] else ToOpenAi(ms[..|ms| - 1]) + Wire(ms[|ms| - 1])
  }

  /** The tool message at `p` answers the call at its own distance after the assistant message at `q`. */
  predicate AnswersAt(out: seq<OpenAiMessage>, q: nat, p: nat)
    requires q < p < |out|
  {
    && out[q].OpenAiAssistant? && out[q].toolCalls.Some? && out[p].OpenAiTool?
    && (forall x :: q < x <= p ==> out[x].OpenAiTool?)
    && p - q - 1 < |out[q].toolCalls.value|
    && out[q].toolCalls.value[p - q - 1].id == out[p].toolCallId
  }

  lemma LastWire(ms: seq<Message>)
    requires ms != [] && !ms[|ms| - 1].Tool?
    ensures ToOpenAi(ms) != [] && [ToOpenAi(ms)[|ToOpenAi(ms)| - 1]] == Wire(ms[|ms| - 1])
  {
  }

  lemma ShapePrefix(ms: seq<Message>)
    requires Shape(ms) && |ms| > 1
    ensures Shape(ms[..|ms| - 1])
  {
  }

  lemma AnswersAppend(before: seq<OpenAiMessage>, more: seq<OpenAiMessage>, q: nat, p: nat)
    requires q < p < |before| && AnswersAt(before, q, p)
    ensures AnswersAt(before + more, q, p)
  {
  }

  /** The messages of a tool turn answer the assistant message right before them. */
  lemma LastTurnAnswers(ms: seq<Message>, p: nat)
    requires Shape(ms) && |ms| > 1 && ms[|ms| - 1].Tool?
    requires ToOpenAi(ms) == ToOpenAi(ms[..|ms| - 1]) + Wire(ms[|ms| - 1])
    requires |ToOpenAi(ms[..|ms| - 1])| <= p < |ToOpenAi(ms)|
    ensures |ToOpenAi(ms[..|ms| - 1])| > 0 && AnswersAt(ToOpenAi(ms), |ToOpenAi(ms[..|ms| - 1])| - 1, p)
  {
    var out, before := ToOpenAi(ms), ToOpenAi(ms[..|ms| - 1]);
    LastWire(ms[..|ms| - 1]);
    assert out[|before| - 1] == before[|before| - 1];
  }

  /** Every tool message's id was declared, in its place, by the nearest assistant message before it. */
  lemma {:induction false} OpenAiPairsById(ms: seq<Message>, p: nat) returns (q: nat)
    requires Shape(ms) && p < |ToOpenAi(ms)| && ToOpenAi(ms)[p].OpenAiTool?
    ensures q < p && AnswersAt(ToOpenAi(ms), q, p)
  {
    var before, m := ToOpenAi(ms[..|ms| - 1]), ms[|ms| - 1];
    LastSplit(ms);
    if p < |before| {
      assert before[p] == ToOpenAi(ms)[p];
      ShapePrefix(ms);
      q := OpenAiPairsById(ms[..|ms| - 1], p);
      AnswersAppend(before, Wire(m), q, p);
    } else {
      assert Wire(m)[p - |before|].OpenAiTool?;
      LastTurnAnswers(ms, p);
      q := |before| - 1;
    }
  }

  function TrailingTools(out: seq<OpenAiMessage>): nat {
    if out == [] || !out[|out| - 1].OpenAiTool? then 0 else 1 + TrailingTools(out[..|out| - 1])
  }

  lemma {:induction false} TrailingOf(before: seq<OpenAiMessage>, results: seq<ToolResult>)
    requires before != [] && !before[|before| - 1].OpenAiTool?
    ensures TrailingTools(before + Wire(Tool(results))) == |results|
  {
    var out := before + Wire(Tool(results));
    if results == [] {
      assert out == before;
    } else {
      var shorter := results[..|results| - 1];
      TrailingOf(before, shorter);
      assert out[..|out| - 1] == before + Wire(Tool(shorter));
    }
  }

  lemma WireInjective(m: Message, n: Message)
    requires Wire(m) == Wire(n) && (m.Tool? <==> n.Tool?)
    requires (m.Assistant? ==> PrintableCalls(m.calls)) && (n.Assistant? ==> PrintableCalls(n.calls))
    ensures m == n
  {
    if m.Tool? {
      forall j | 0 <= j < |m.results|
        ensures j < |n.results| && m.results[j] == n.results[j]
      {
        assert Wire(m)[j] == Wire(n)[j];
      }
      assert |Wire(m)| == |m.results| && |Wire(n)| == |n.results|;
    } else if m.Assistant? {
      assert Wire(m)[0] == Wire(n)[0];
      assert |m.calls| == |WireCalls(m.calls)| && |n.calls| == |WireCalls(n.calls)|;
      forall j | 0 <= j < |m.calls|
        ensures j < |n.calls| && m.calls[j] == n.calls[j]
      {
        assert WireCalls(m.calls)[j] == WireCalls(n.calls)[j];
        StringifyInjective(m.calls[j].input, n.calls[j].input);
      }
    } else {
      assert Wire(m)[0] == Wire(n)[0];
    }
  }

  ghost predicate AllPrintable(ms: seq<Message>) {
    forall i :: 0 <= i < |ms| && ms[i].Assistant? ==> PrintableCalls(ms[i].calls)
  }

  lemma LastSplit(ms: seq<Message>)
    requires Shape(ms)
    ensures var m, out := ms[|ms| - 1], ToOpenAi(ms);
            && out != []
            && (m.Tool? <==> out[|out| - 1].OpenAiTool?)
            && |Wire(m)| == (if m.Tool? then TrailingTools(out) else 1)
            && out == ToOpenAi(ms[..|ms| - 1]) + Wire(m)
  {
    var m := ms[|ms| - 1];
    if m.Tool? {
      LastWire(ms[..|ms| - 1]);
      TrailingOf(ToOpenAi(ms[..|ms| - 1]), m.results);
      assert |Wire(m)| == |m.results| == |ms[|ms| - 2].calls| > 0;
    } else {
      LastWire(ms);
    }
  }

  lemma LastAlike(a: seq<Message>, b: seq<Message>)
    requires Shape(a) && Shape(b) && AllPrintable(a) && AllPrintable(b) && ToOpenAi(a) == ToOpenAi(b)
    ensures a[|a| - 1] == b[|b| - 1] && ToOpenAi(a[..|a| - 1]) == ToOpenAi(b[..|b| - 1])
  {
    LastSplit(a);
    LastSplit(b);
    var m, n := a[|a| - 1], b[|b| - 1];
    SameEnds(ToOpenAi(a[..|a| - 1]), Wire(m), ToOpenAi(b[..|b| - 1]), Wire(n));
    WireInjective(m, n);
  }

  lemma SameEnds<T>(x: seq<T>, v: seq<T>, y: seq<T>, w: seq<T>)
    requires x + v == y + w && |v| == |w|
    ensures x == y && v == w
  {
    assert |x| == |y|;
    assert x == (x + v)[..|x|] == (y + w)[..|y|] == y;
    assert v == (x + v)[|x|..] == (y + w)[|y|..] == w;
  }

  lemma NothingBefore(a: seq<Message>, b: seq<Message>)
    requires Shape(a) && Shape(b) && ToOpenAi(a[..|a| - 1]) == ToOpenAi(b[..|b| - 1]) && (|a| == 1 || |b| == 1)
    ensures |a| == |b| == 1
  {
    if |a| > 1 {
      ShapePrefix(a);
      LastSplit(a[..|a| - 1]);
    }
    if |b| > 1 {
      ShapePrefix(b);
      LastSplit(b[..|b| - 1]);
    }
  }

  lemma FrontAlike(a: seq<Message>, b: seq<Message>)
    requires Shape(a) && Shape(b) && ToOpenAi(a[..|a| - 1]) == ToOpenAi(b[..|b| - 1])
    ensures |a| > 1 <==> |b| > 1
    ensures |a| > 1 ==> Shape(a[..|a| - 1]) && Shape(b[..|b| - 1])
  {
    if |a| > 1 && |b| > 1 {
      ShapePrefix(a);
      ShapePrefix(b);
    } else {
      NothingBefore(a, b);
    }
  }

  /** The wire keeps everything, in order: two conversations of the loop's shape never look the same on it. */
  lemma {:induction false} OpenAiLosesNothing(a: seq<Message>, b: seq<Message>)
    requires Shape(a) && Shape(b) && AllPrintable(a) && AllPrintable(b) && ToOpenAi(a) == ToOpenAi(b)
    ensures a == b
  {
    LastAlike(a, b);
    FrontAlike(a, b);
    if |a| > 1 {
      OpenAiLosesNothing(a[..|a| - 1], b[..|b| - 1]);
    }
    SnocAlike(a, b);
  }

  lemma SnocAlike<T>(a: seq<T>, b: seq<T>)
    requires a != [] && b != [] && a[|a| - 1] == b[|b| - 1]
    requires a[..|a| - 1] == b[..|b| - 1] || |a| == |b| == 1
    ensures a == b
  {
    assert a == a[..|a| - 1] + [a[|a| - 1]] && b == b[..|b| - 1] + [b[|b| - 1]];
  }

  /** One tool message per result. */
  method PushResults(out: seq<OpenAiMessage>, results: seq<ToolResult>) returns (longer: seq<OpenAiMessage>)
    ensures longer == out + Wire(Tool(results))
  {
    longer := out;
    for j := 0 to |results|
      invariant |longer| == |out| + j && longer[..|out|] == out
      invariant forall k :: 0 <= k < j ==> longer[|out| + k] == Wire(Tool(results))[k]
    {
      longer := longer + [OpenAiTool(results[j].toolCallId, results[j].output)];
    }
  }

  method OpenAiMessages(ms: seq<Message>) returns (out: seq<OpenAiMessage>)
    ensures out == ToOpenAi(ms)
  {
    out := [];
    for i := 0 to |ms|
      invariant out == ToOpenAi(ms[..i])
    {
      assert ms[..i + 1][..i] == ms[..i];
      match ms[i] {
        case User(text) => out := out + [OpenAiUser(text)];
        case Assistant(said, calls) =>
          out := out + [OpenAiAssistant(said, if calls == [] then None else Some(WireCalls(calls)))];
        case Tool(results) =>
          out := PushResults(out, results);
      }
    }
    assert ms[..|ms|] == ms;
  }
}
