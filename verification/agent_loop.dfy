/** The agent loop: think, act, repeat, until the model is done, repeats itself, or runs out of steps. */
module AgentLoop {
  import opened Common
  import opened JsonText
  import opened Transcripts

  datatype Turn = Turn(said: Option<Text>, calls: seq<ToolCall>, inputTokens: Option<nat>, outputTokens: Option<nat>)

  datatype Reply = Thought(turn: Turn) | ModelThrows
  datatype ToolRun = Output(text: Text) | ToolThrows(message: Text)
  datatype Verdict = Passed | Intervened(text: Text) | GuardThrows

  /**
   * Everything outside the loop, as functions of the conversation at the moment it is consulted,
   * which is different every time: the model, the tools by name, one tool's run, and the guard.
   */
  datatype World = World(model: seq<Message> -> Reply, knows: Text -> bool,
                         run: (seq<Message>, nat) -> ToolRun, guard: (seq<Message>, nat, Text) -> Verdict)

  /** The inputs the model gives its calls are JSON values. */
  ghost predicate Printing(w: World) {
    forall ms :: w.model(ms).Thought? ==> PrintableCalls(w.model(ms).turn.calls)
  }

  const ERROR_PREFIX: Text := [101, 114, 114, 111, 114, 58, 32]
  const UNKNOWN_TOOL: Text := [117, 110, 107, 110, 111, 119, 110, 32, 116, 111, 111, 108, 32, 34]

  lemma Wording()
    ensures ERROR_PREFIX == Units("error: ") && UNKNOWN_TOOL == Units("unknown tool \"") && [QUOTE] == Units("\"")
  {
  }

  /** The guard lets a raw output through, puts its own text in its place, or throws, and nothing is shown. */
  predicate Screened(w: World, ms: seq<Message>, j: nat, raw: Text, shown: Option<Text>) {
    match w.guard(ms, j, raw)
    case Passed => shown == Some(raw)
    case Intervened(text) => shown == Some(text)
    case GuardThrows => shown == None
  }

  /** What the model is shown for call `j`. A tool's failure, or its absence, is feedback for the model. */
  predicate ShownAs(w: World, ms: seq<Message>, j: nat, call: ToolCall, shown: Option<Text>) {
    if w.knows(call.name) then
      match w.run(ms, j)
      case Output(text) => Screened(w, ms, j, text, shown)
      case ToolThrows(message) => Screened(w, ms, j, ERROR_PREFIX + message, shown)
    else Screened(w, ms, j, ERROR_PREFIX + UNKNOWN_TOOL + call.name + [QUOTE], shown)
  }

  predicate GuardThrowsOn(w: World, ms: seq<Message>, j: nat, call: ToolCall) {
    ShownAs(w, ms, j, call, None)
  }

  ghost predicate GuardThrowsAmong(w: World, ms: seq<Message>, calls: seq<ToolCall>) {
    exists j :: 0 <= j < |calls| && GuardThrowsOn(w, ms, j, calls[j])
  }

  datatype Status = Completed | Blocked | MaxSteps | Stuck
  datatype RunResult = Result(status: Status, output: Option<Text>, inputTokens: nat, outputTokens: nat) | Threw

  function OrZero(n: Option<nat>): nat {
    if n.Some? then n.value else 0
  }

  function InputUsed(turns: seq<Turn>): nat {
    if turns == [] then 0 else InputUsed(turns[..|turns| - 1]) + OrZero(turns[|turns| - 1].inputTokens)
  }

  function OutputUsed(turns: seq<Turn>): nat {
    if turns == [] then 0 else OutputUsed(turns[..|turns| - 1]) + OrZero(turns[|turns| - 1].outputTokens)
  }

  lemma UsedMore(turns: seq<Turn>, t: Turn)
    ensures InputUsed(turns + [t]) == InputUsed(turns) + OrZero(t.inputTokens)
    ensures OutputUsed(turns + [t]) == OutputUsed(turns) + OrZero(t.outputTokens)
  {
    assert (turns + [t])[..|turns|] == turns;
  }

  /** Each turn is the model's answer to the whole conversation before it, recorded as it came. */
  ghost predicate Recorded(w: World, ms: seq<Message>, turns: seq<Turn>) {
    && |ms| / 2 == |turns|
    && forall k :: 0 <= k < |turns| ==>
         w.model(ms[..2 * k + 1]) == Thought(turns[k]) && ms[2 * k + 1] == Assistant(turns[k].said, turns[k].calls)
  }

  /** Each tool turn shows what its assistant turn's calls produced, after it was recorded. */
  ghost predicate Executed(w: World, ms: seq<Message>)
    requires Shape(ms)
  {
    forall i, j :: 0 < i < |ms| && i % 2 == 0 && 0 <= j < |ms[i].results| ==>
                     ShownAs(w, ms[..i], j, ms[i - 1].calls[j], Some(ms[i].results[j].output))
  }

  /** Turn `i` proposes what the turn before it proposed. */
  predicate Repeats(ms: seq<Message>, i: nat)
    requires Shape(ms) && i < |ms| && i % 2 == 1
  {
    i >= 3 && ms[i].calls != [] && Proposal(ms[i].calls) == Proposal(ms[i - 2].calls)
  }

  /** No executed turn repeats its predecessor. */
  ghost predicate Progressing(ms: seq<Message>)
    requires Shape(ms)
  {
    forall i :: 0 < i < |ms| - 1 && i % 2 == 1 ==> !Repeats(ms, i)
  }

  /** The conversation so far is the loop's, and says what happened. */
  ghost predicate Faithful(w: World, ms: seq<Message>, turns: seq<Turn>) {
    Shape(ms) && Recorded(w, ms, turns) && Executed(w, ms) && Progressing(ms)
  }

  lemma ExecutedPrefix(w: World, ms: seq<Message>, next: Message)
    requires Shape(ms) && Shape(ms + [next]) && Executed(w, ms)
    requires next.Tool? ==>
               && ms[|ms| - 1].Assistant? && |ms[|ms| - 1].calls| == |next.results|
               && forall j :: 0 <= j < |next.results| ==> ShownAs(w, ms, j, ms[|ms| - 1].calls[j], Some(next.results[j].output))
    ensures Executed(w, ms + [next])
  {
    var longer := ms + [next];
    forall i, j | 0 < i < |longer| && i % 2 == 0 && 0 <= j < |longer[i].results|
      ensures ShownAs(w, longer[..i], j, longer[i - 1].calls[j], Some(longer[i].results[j].output))
    {
      assert longer[..i] == ms[..i];
      assert ms[..|ms|] == ms;
    }
  }

  lemma RecordedPrefix(w: World, ms: seq<Message>, turns: seq<Turn>, next: Message)
    requires Recorded(w, ms, turns) && |ms| % 2 == 0
    ensures Recorded(w, ms + [next], turns)
  {
    forall k | 0 <= k < |turns|
      ensures w.model((ms + [next])[..2 * k + 1]) == Thought(turns[k])
    {
      assert (ms + [next])[..2 * k + 1] == ms[..2 * k + 1];
    }
  }

  lemma ProgressingPrefix(ms: seq<Message>, next: Message)
    requires Shape(ms) && Shape(ms + [next]) && Progressing(ms)
    requires |ms| % 2 == 0 ==> !Repeats(ms, |ms| - 1)
    ensures Progressing(ms + [next])
  {
    forall i | 0 < i < |ms| && i % 2 == 1
      ensures !Repeats(ms + [next], i)
    {
      assert !Repeats(ms, i);
    }
  }

  lemma Extend(w: World, ms: seq<Message>, turns: seq<Turn>, turn: Turn)
    requires Faithful(w, ms, turns) && |ms| % 2 == 1 && w.model(ms) == Thought(turn)
    ensures Faithful(w, ms + [Assistant(turn.said, turn.calls)], turns + [turn])
  {
    var next := Assistant(turn.said, turn.calls);
    var longer := ms + [next];
    forall k | 0 <= k < |turns| + 1
      ensures w.model(longer[..2 * k + 1]) == Thought((turns + [turn])[k])
      ensures longer[2 * k + 1] == Assistant((turns + [turn])[k].said, (turns + [turn])[k].calls)
    {
      assert longer[..2 * k + 1] == ms[..2 * k + 1];
      assert ms[..|ms|] == ms;
    }
    ExecutedPrefix(w, ms, next);
    ProgressingPrefix(ms, next);
  }

  lemma Answer(w: World, ms: seq<Message>, turns: seq<Turn>, results: seq<ToolResult>)
    requires Faithful(w, ms, turns) && |ms| % 2 == 0
    requires ms[|ms| - 1].calls != [] && Answers(ms[|ms| - 1].calls, results) && !Repeats(ms, |ms| - 1)
    requires forall j :: 0 <= j < |results| ==> ShownAs(w, ms, j, ms[|ms| - 1].calls[j], Some(results[j].output))
    ensures Faithful(w, ms + [Tool(results)], turns)
  {
    RecordedPrefix(w, ms, turns, Tool(results));
    ExecutedPrefix(w, ms, Tool(results));
    ProgressingPrefix(ms, Tool(results));
  }

  /** Runs one turn's calls in order; None when the guard throws. */
  method RunTools(w: World, ms: seq<Message>, calls: seq<ToolCall>) returns (done: Option<seq<ToolResult>>)
    ensures done.Some? ==>
              && Answers(calls, done.value)
              && forall j :: 0 <= j < |calls| ==> ShownAs(w, ms, j, calls[j], Some(done.value[j].output))
    ensures done.None? ==> GuardThrowsAmong(w, ms, calls)
  {
    var results: seq<ToolResult> := [];
    while |results| < |calls|
      invariant |results| <= |calls|
      invariant forall j :: 0 <= j < |results| ==> results[j].toolCallId == calls[j].id
      invariant forall j :: 0 <= j < |results| ==> ShownAs(w, ms, j, calls[j], Some(results[j].output))
    {
      var j := |results|;
      var output: Text;
      if w.knows(calls[j].name) {
        match w.run(ms, j) {
          case Output(text) => output := text;
          case ToolThrows(message) => output := ERROR_PREFIX + message;
        }
      } else {
        output := ERROR_PREFIX + UNKNOWN_TOOL + calls[j].name + [QUOTE];
      }
      var verdict := w.guard(ms, j, output);
      if verdict.GuardThrows? {
        assert GuardThrowsOn(w, ms, j, calls[j]);
        return None;
      }
      if verdict.Intervened? {
        output := verdict.text;
      }
      results := results + [ToolResult(calls[j].id, output)];
    }
    done := Some(results);
  }

  /** The signature the no-progress guard remembers: the last executed turn's. */
  function LastSignature(ms: seq<Message>): Text {
    if |ms| < 3 || !ms[|ms| - 2].Assistant? then [] else SignatureOf(ms[|ms| - 2].calls)
  }

  ghost predicate PrintableTurns(turns: seq<Turn>) {
    forall k :: 0 <= k < |turns| ==> PrintableCalls(turns[k].calls)
  }

  lemma SignatureRepeats(w: World, ms: seq<Message>, turns: seq<Turn>, turn: Turn)
    requires Faithful(w, ms, turns) && |ms| % 2 == 1 && turn.calls != []
    requires PrintableTurns(turns) && PrintableCalls(turn.calls)
    requires Shape(ms + [Assistant(turn.said, turn.calls)])
    ensures SignatureOf(turn.calls) == LastSignature(ms) <==> Repeats(ms + [Assistant(turn.said, turn.calls)], |ms|)
  {
    SignatureIsProposal(turn.calls, turn.calls);
    if |ms| >= 3 {
      assert ms[2 * (|turns| - 1) + 1] == Assistant(turns[|turns| - 1].said, turns[|turns| - 1].calls);
      SignatureIsProposal(turn.calls, ms[|ms| - 2].calls);
    }
  }

  /** How a turn leaves the loop, or that it does not. */
  datatype After = GoOn | Ends(status: Status) | Throws

  function Steps(maxSteps: int): nat {
    if maxSteps > 0 then maxSteps else 0
  }

  /** The status says how the conversation ended, and the output is what was said last. */
  ghost predicate Explains(ms: seq<Message>, status: Status, output: Option<Text>)
    requires Shape(ms)
  {
    && !status.Blocked?
    && (status.Completed? <==> |ms| % 2 == 0 && ms[|ms| - 1].calls == [])
    && (status.Stuck? <==> |ms| % 2 == 0 && Repeats(ms, |ms| - 1))
    && (status.MaxSteps? <==> |ms| % 2 == 1)
    && output == if status.MaxSteps? then None else ms[|ms| - 1].said
  }

  /** The model threw on the conversation, or the guard did on a result of its last turn. */
  ghost predicate Thrown(w: World, ms: seq<Message>)
    requires Shape(ms)
  {
    if |ms| % 2 == 1 then w.model(ms).ModelThrows?
    else GuardThrowsAmong(w, ms, ms[|ms| - 1].calls)
  }

  lemma ExplainsMaxSteps(ms: seq<Message>)
    requires Shape(ms) && |ms| % 2 == 1
    ensures Explains(ms, MaxSteps, None)
  {
  }

  method TakeTurn(w: World, ms: seq<Message>, turns: seq<Turn>, lastSig: Text)
    returns (after: After, messages: seq<Message>, turn: Option<Turn>)
    requires Faithful(w, ms, turns) && |ms| % 2 == 1 && PrintableTurns(turns) && lastSig == LastSignature(ms)
    requires Printing(w)
    ensures turn == match w.model(ms) case Thought(t) => Some(t) case ModelThrows => None
    ensures turn.None? ==> after.Throws? && messages == ms && Shape(messages)
    ensures turn.Some? ==> Faithful(w, messages, turns + [turn.value]) && messages[..|ms|] == ms
    ensures turn.Some? ==> |messages| == |ms| + (if after.GoOn? then 2 else 1) && messages[|ms|] == Assistant(turn.value.said, turn.value.calls)
    ensures after.Ends? ==> !after.status.MaxSteps? && Explains(messages, after.status, turn.value.said)
    ensures after.Throws? ==> Thrown(w, messages)
    ensures after.GoOn? ==> LastSignature(messages) == SignatureOf(turn.value.calls)
    ensures turn.Some? ==> PrintableTurns(turns + [turn.value]) && messages[0] == ms[0]
  {
    var reply := w.model(ms);
    if reply.ModelThrows? {
      return Throws, ms, None;
    }
    var t := reply.turn;
    Extend(w, ms, turns, t);
    messages, turn := ms + [Assistant(t.said, t.calls)], Some(t);
    if t.calls == [] {
      return Ends(Completed), messages, turn;
    }
    SignatureRepeats(w, ms, turns, t);
    if SignatureOf(t.calls) == lastSig {
      return Ends(Stuck), messages, turn;
    }
    var results := RunTools(w, messages, t.calls);
    if results.None? {
      return Throws, messages, turn;
    }
    Answer(w, messages, turns + [t], results.value);
    assert !Repeats(messages, |ms|);
    messages := messages + [Tool(results.value)];
    after := GoOn;
  }

  method AddUsage(turn: Turn, inputTokens: nat, outputTokens: nat) returns (input: nat, output: nat)
    ensures input == inputTokens + OrZero(turn.inputTokens) && output == outputTokens + OrZero(turn.outputTokens)
  {
    input := if turn.inputTokens.None? then inputTokens else inputTokens + turn.inputTokens.value;
    output := if turn.outputTokens.None? then outputTokens else outputTokens + turn.outputTokens.value;
  }

  /**
   * For every model, tools and guard: at most `maxSteps` turns, a conversation of the loop's shape
   * that records exactly what was thought and done, and a status that says how it ended.
   */
  method RunOnSession(w: World, blocked: bool, opening: Text, maxSteps: int)
    returns (result: RunResult, messages: seq<Message>, turns: seq<Turn>)
    requires Printing(w)
    ensures blocked <==> result == Result(Blocked, None, 0, 0)
    ensures blocked ==> messages == [] && turns == []
    ensures |turns| <= Steps(maxSteps)
    ensures !blocked ==> Faithful(w, messages, turns) && messages[0] == User(opening)
    ensures result.Result? ==> result.inputTokens == InputUsed(turns) && result.outputTokens == OutputUsed(turns)
    ensures !blocked && result.Result? ==> Explains(messages, result.status, result.output)
    ensures result.Threw? ==> Thrown(w, messages)
    ensures result.Result? && result.status.MaxSteps? ==> |turns| == Steps(maxSteps)
  {
    if blocked {
      return Result(Blocked, None, 0, 0), [], [];
    }
    messages, turns := [User(opening)], [];
    var inputTokens, outputTokens := 0, 0;
    var lastSig: Text := [];
    var step := 1;
    while step <= maxSteps
      invariant 1 <= step && (step <= maxSteps + 1 || step == 1)
      invariant |turns| == step - 1 && |messages| == 2 * step - 1
      invariant Faithful(w, messages, turns) && messages[0] == User(opening) && PrintableTurns(turns)
      invariant inputTokens == InputUsed(turns) && outputTokens == OutputUsed(turns)
      invariant lastSig == LastSignature(messages)
    {
      var after, next, turn := TakeTurn(w, messages, turns, lastSig);
      if turn.None? {
        return Threw, messages, turns;
      }
      UsedMore(turns, turn.value);
      messages, turns := next, turns + [turn.value];
      inputTokens, outputTokens := AddUsage(turn.value, inputTokens, outputTokens);
      match after {
        case Throws => return Threw, messages, turns;
        case Ends(status) =>
          return Result(status, turn.value.said, inputTokens, outputTokens), messages, turns;
        case GoOn =>
      }
      lastSig := SignatureOf(turn.value.calls);
      step := step + 1;
    }
    ExplainsMaxSteps(messages);
    result := Result(MaxSteps, None, inputTokens, outputTokens);
  }
}
