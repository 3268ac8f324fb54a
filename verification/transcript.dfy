/** Conversations in the provider-neutral form, and the shape the agent loop gives them. */
module Transcripts {
  import opened Common
  import opened JsonText

  datatype ToolCall = ToolCall(id: Text, name: Text, input: Json)
  datatype ToolResult = ToolResult(toolCallId: Text, output: Text)

  datatype Message =
    | User(text: Text)
    | Assistant(said: Option<Text>, calls: seq<ToolCall>)
    | Tool(results: seq<ToolResult>)

  /** One result per call, in order, under the call's id. */
  predicate Answers(calls: seq<ToolCall>, results: seq<ToolResult>) {
    |results| == |calls| && forall j :: 0 <= j < |calls| ==> results[j].toolCallId == calls[j].id
  }

  /**
   * A user turn, then assistant turns each answered by the tool turn after it — all but the last,
   * which may be unanswered.
   */
  predicate Shape(ms: seq<Message>) {
    && ms != [] && ms[0].User?
    && (forall i :: 0 < i < |ms| && i % 2 == 1 ==> ms[i].Assistant?)
    && (forall i :: 0 < i < |ms| && i % 2 == 0 ==>
          ms[i].Tool? && ms[i - 1].Assistant? && ms[i - 1].calls != [] && Answers(ms[i - 1].calls, ms[i].results))
  }

  /** What the no-progress guard compares: names and inputs, without the ids. */
  function Proposal(calls: seq<ToolCall>): seq<(Text, Json)> {
    seq(|calls|, i requires 0 <= i < |calls| => (calls[i].name, calls[i].input))
  }

  function ProposalItems(calls: seq<ToolCall>): seq<Json> {
    seq(|calls|, i requires 0 <= i < |calls| => Arr([Str(calls[i].name), calls[i].input]))
  }

  predicate PrintableCalls(calls: seq<ToolCall>) {
    forall i :: 0 <= i < |calls| ==> Printable(calls[i].input)
  }

  function SignatureOf(calls: seq<ToolCall>): Text {
    Stringify(Arr(ProposalItems(calls)))
  }

  lemma ProposalPrintable(calls: seq<ToolCall>)
    requires PrintableCalls(calls)
    ensures Printable(Arr(ProposalItems(calls)))
  {
    forall i | 0 <= i < |calls|
      ensures Printable(ProposalItems(calls)[i])
    {
      assert ProposalItems(calls)[i].items == [Str(calls[i].name), calls[i].input];
    }
  }

  lemma ProposalItemsDecide(a: seq<ToolCall>, b: seq<ToolCall>)
    ensures ProposalItems(a) == ProposalItems(b) <==> Proposal(a) == Proposal(b)
  {
    var x, y := ProposalItems(a), ProposalItems(b);
    assert |x| == |a| == |Proposal(a)| && |y| == |b| == |Proposal(b)|;
    if |a| == |b| {
      forall i | 0 <= i < |a|
        ensures x[i] == y[i] <==> Proposal(a)[i] == Proposal(b)[i]
      {
        assert x[i].items[0] == Str(a[i].name) && x[i].items[1] == a[i].input;
        assert y[i].items[0] == Str(b[i].name) && y[i].items[1] == b[i].input;
      }
      assert x == y ==> forall i :: 0 <= i < |a| ==> Proposal(a)[i] == Proposal(b)[i];
      assert Proposal(a) == Proposal(b) ==> forall i :: 0 <= i < |a| ==> x[i] == y[i];
    }
  }

  /** The guard's texts are equal exactly when the proposals are, and never empty. */
  lemma SignatureIsProposal(a: seq<ToolCall>, b: seq<ToolCall>)
    requires PrintableCalls(a) && PrintableCalls(b)
    ensures SignatureOf(a) == SignatureOf(b) <==> Proposal(a) == Proposal(b)
    ensures SignatureOf(a) != []
  {
    ProposalPrintable(a);
    ProposalPrintable(b);
    ProposalItemsDecide(a, b);
    FirstUnit(Arr(ProposalItems(a)));
    if SignatureOf(a) == SignatureOf(b) {
      StringifyInjective(Arr(ProposalItems(a)), Arr(ProposalItems(b)));
    }
  }
}
