/**
 * POST /v1/messages after validation: worst-case reserve, then either a plain invocation or a
 * relayed event stream, with a settlement that happens at most once however the request ends.
 */
module MessagesApi {
  import opened Common
  import opened SpendStores
  import opened LocalGates
  import opened Pricing

  /** The two kinds of event that carry usage, with the count when it is a number, and the rest. */
  datatype StreamEvent =
    | MessageStart(inputTokens: Option<real>)
    | MessageDelta(outputTokens: Option<real>)
    | OtherEvent

  /**
   * How the relay stops after its last processed event: the upstream ended (and closing the
   * client's stream may throw, when the client has left); the upstream faulted, was aborted, or an
   * event could not be enqueued; or the process never ran the relay again.
   */
  datatype Ending = Completed(closes: bool) | Faulted | Abandoned

  /** What happens to an admitted request, whichever way the upstream is called. */
  datatype Upstream =
    | BodyThrows    // the body cannot be translated for the upstream, and the handler throws
    | InvokeFails
    | InvokeReturns(inputTokens: Option<real>, outputTokens: Option<real>)
    | OpenFails
    | Opens(events: seq<StreamEvent>, ending: Ending)

  datatype Reply = BudgetExceeded402(status: BudgetStatus) | Escapes | UpstreamError | Body | StreamClosed | StreamErrored | StreamHangs

  /** The last input count reported so far, zero before any. */
  function LastInput(events: seq<StreamEvent>): real {
    if events == [] then 0.0
    else
      var e := events[|events| - 1];
      if e.MessageStart? && e.inputTokens.Some? then e.inputTokens.value else LastInput(events[..|events| - 1])
  }

  /** The last (cumulative) output count reported so far, if any was. */
  function LastOutput(events: seq<StreamEvent>): Option<real> {
    if events == [] then None
    else
      var e := events[|events| - 1];
      if e.MessageDelta? && e.outputTokens.Some? then e.outputTokens else LastOutput(events[..|events| - 1])
  }

  /** What the request must end up charged: never less than was reported, the worst case if nothing was. */
  function FinalUsd(price: Price, worst: real, u: Upstream): real {
    match u
    case BodyThrows => worst
    case InvokeFails => 0.0
    case OpenFails => 0.0
    case InvokeReturns(i, o) =>
      CostAt(price, if i.Some? then i.value else 0.0, if o.Some? then o.value else 0.0)
    case Opens(events, ending) =>
      if ending.Abandoned? || LastOutput(events).None? then worst
      else CostAt(price, LastInput(events), LastOutput(events).value)
  }

  /** A plain reply is charged its tokens, a count it does not report being zero. */
  lemma PlainReplyCharge(price: Price, worst: real, input: Option<real>, output: Option<real>)
    ensures FinalUsd(price, worst, InvokeReturns(None, None)) == 0.0
    ensures 1000000.0 * FinalUsd(price, worst, InvokeReturns(input, output))
         == (if input.Some? then price.input * input.value else 0.0) + (if output.Some? then price.output * output.value else 0.0)
  {
  }

  predicate NoInput(events: seq<StreamEvent>) {
    forall i :: 0 <= i < |events| ==> events[i].MessageStart? ==> events[i].inputTokens.None?
  }

  predicate NoOutput(events: seq<StreamEvent>) {
    forall i :: 0 <= i < |events| ==> events[i].MessageDelta? ==> events[i].outputTokens.None?
  }

  lemma {:induction false} LastInputIs(before: seq<StreamEvent>, input: real, after: seq<StreamEvent>)
    requires NoInput(after)
    ensures LastInput(before + [MessageStart(Some(input))] + after) == input
  {
    var events := before + [MessageStart(Some(input))] + after;
    if after == [] {
      assert events == before + [MessageStart(Some(input))];
    } else {
      LastInputIs(before, input, after[..|after| - 1]);
      assert events[..|events| - 1] == before + [MessageStart(Some(input))] + after[..|after| - 1];
    }
  }

  lemma {:induction false} LastOutputIs(before: seq<StreamEvent>, output: real, after: seq<StreamEvent>)
    requires NoOutput(after)
    ensures LastOutput(before + [MessageDelta(Some(output))] + after) == Some(output)
  {
    var events := before + [MessageDelta(Some(output))] + after;
    if after == [] {
      assert events == before + [MessageDelta(Some(output))];
    } else {
      LastOutputIs(before, output, after[..|after| - 1]);
      assert events[..|events| - 1] == before + [MessageDelta(Some(output))] + after[..|after| - 1];
    }
  }

  /** A stream that is not abandoned is charged the last counts it reported. */
  lemma StreamCharge(price: Price, worst: real, before: seq<StreamEvent>, input: real, between: seq<StreamEvent>, output: real,
                     after: seq<StreamEvent>, ending: Ending)
    requires NoInput(between) && NoInput(after) && NoOutput(after) && !ending.Abandoned?
    ensures var events := before + [MessageStart(Some(input))] + (between + [MessageDelta(Some(output))] + after);
            1000000.0 * FinalUsd(price, worst, Opens(events, ending)) == price.input * input + price.output * output
  {
    var events := before + [MessageStart(Some(input))] + (between + [MessageDelta(Some(output))] + after);
    LastInputIs(before, input, between + [MessageDelta(Some(output))] + after);
    LastOutputIs(before + [MessageStart(Some(input))] + between, output, after);
    assert events == before + [MessageStart(Some(input))] + between + [MessageDelta(Some(output))] + after;
  }

  /** A stream with no output count reported, or never resumed, leaves its reservation spent; and so does a body that throws. */
  predicate StaysReserved(u: Upstream) {
    u.BodyThrows? || (u.Opens? && (u.ending.Abandoned? || LastOutput(u.events).None?))
  }

  /** How a request ends, as the client sees it. */
  function ReplyTo(u: Upstream): Reply {
    match u
    case BodyThrows => Escapes
    case InvokeFails => UpstreamError
    case OpenFails => UpstreamError
    case InvokeReturns(_, _) => Body
    case Opens(_, Completed(closes)) => if closes then StreamClosed else StreamErrored
    case Opens(_, Faulted) => StreamErrored
    case Opens(_, Abandoned) => StreamHangs
  }

  /** A reservation to be settled at most once: whichever completion path comes first wins. */
  class PopOnce {
    const gate: LocalGate
    const tenant: string
    const sessionId: Option<string>
    /** Whether the store accepts the settlement; its error is swallowed. */
    const settles: bool
    var settled: bool
    /** How many times the gate was asked to settle. */
    var calls: nat

    predicate Valid()
      reads this
    {
      calls == if settled then 1 else 0
    }

    constructor (gate: LocalGate, tenant: string, sessionId: Option<string>, settles: bool)
      ensures this.gate == gate && this.tenant == tenant && this.sessionId == sessionId && this.settles == settles
      ensures Valid() && !settled
    {
      this.gate, this.tenant, this.sessionId, this.settles := gate, tenant, sessionId, settles;
      settled, calls := false, 0;
    }

    /** The store after a settlement by `usd` that the gate accepted. */
    function Settled(t: Table, usd: real): Table
      reads gate
    {
      if settles then AddScopes(t, gate.MonthKey(tenant), gate.SessionScope(tenant, sessionId), usd) else t
    }

    method SettleOnce(deltaUsd: real)
      requires Valid()
      modifies this, gate.spend
      ensures Valid() && settled
      ensures gate.spend.table == if old(settled) then old(gate.spend.table) else Settled(old(gate.spend.table), deltaUsd)
    {
      if settled {
        return;
      }
      settled, calls := true, calls + 1;
      if settles {
        gate.Settle(tenant, deltaUsd, sessionId);
      }
    }

    /** Settles to reported usage; with none reported the reservation stays spent. */
    method SettleToUsage(price: Price, worstUsd: real, lastInput: real, lastOutput: Option<real>)
      requires Valid()
      modifies this, gate.spend
      ensures Valid() && settled == (old(settled) || lastOutput.Some?)
      ensures gate.spend.table ==
              if old(settled) || lastOutput.None? then old(gate.spend.table)
              else Settled(old(gate.spend.table), CostAt(price, lastInput, lastOutput.value) - worstUsd)
    {
      if lastOutput.Some? {
        SettleOnce(CostAt(price, lastInput, lastOutput.value) - worstUsd);
      }
    }

    /** Relays a stream; every way it can stop runs the settlement, some of them twice. */
    method Relay(price: Price, worstUsd: real, events: seq<StreamEvent>, ending: Ending) returns (reply: Reply)
      requires Valid() && !settled
      modifies this, gate.spend
      ensures Valid() && (settled <==> !StaysReserved(Opens(events, ending)))
      ensures gate.spend.table ==
              if settled then Settled(old(gate.spend.table), FinalUsd(price, worstUsd, Opens(events, ending)) - worstUsd)
              else old(gate.spend.table)
      ensures reply == match ending
                       case Completed(closes) => if closes then StreamClosed else StreamErrored
                       case Faulted => StreamErrored
                       case Abandoned => StreamHangs
    {
      var lastInput: real, lastOutput: Option<real> := 0.0, None;
      var n := 0;
      while n < |events|
        invariant n <= |events|
        invariant lastInput == LastInput(events[..n]) && lastOutput == LastOutput(events[..n])
      {
        match events[n] {
          case MessageStart(count) => if count.Some? { lastInput := count.value; }
          case MessageDelta(count) => if count.Some? { lastOutput := count; }
          case OtherEvent =>
        }
        n := n + 1;
        assert events[..n][..n - 1] == events[..n - 1];
      }
      assert events[..n] == events;
      if ending.Abandoned? {
        return StreamHangs;
      }
      if ending.Completed? {
        SettleToUsage(price, worstUsd, lastInput, lastOutput);
        if ending.closes {
          return StreamClosed;
        }
      }
      SettleToUsage(price, worstUsd, lastInput, lastOutput);
      reply := StreamErrored;
    }

    /** The model call behind an admitted request, plain or streamed, and its settlement. */
    method Serve(price: Price, worstUsd: real, upstream: Upstream) returns (reply: Reply)
      requires Valid() && !settled
      modifies this, gate.spend
      ensures Valid() && (settled <==> !StaysReserved(upstream)) && reply == ReplyTo(upstream)
      ensures gate.spend.table ==
              if settled then Settled(old(gate.spend.table), FinalUsd(price, worstUsd, upstream) - worstUsd)
              else old(gate.spend.table)
    {
      match upstream {
        case BodyThrows =>
          reply := Escapes;
        case InvokeFails =>
          SettleOnce(-worstUsd);
          reply := UpstreamError;
        case InvokeReturns(i, o) =>
          SettleOnce(CostAt(price, if i.Some? then i.value else 0.0, if o.Some? then o.value else 0.0) - worstUsd);
          reply := Body;
        case OpenFails =>
          SettleOnce(-worstUsd);
          reply := UpstreamError;
        case Opens(events, ending) =>
          reply := Relay(price, worstUsd, events, ending);
      }
    }
  }

  /** What an admitted request leaves in the store: its worst case, and its settlement in the month it returns in. */
  function Charged(t: Table, key: Key, keyAfter: Key, scope: Option<Key>, price: Price, worst: real, u: Upstream, settles: bool): Table {
    var held := AddScopes(t, key, scope, worst);
    if StaysReserved(u) || !settles then held else AddScopes(held, keyAfter, scope, FinalUsd(price, worst, u) - worst)
  }

  /**
   * In one month that is its final cost on each scope and nothing else, with the session on or off,
   * unless the store refused the settlement.
   */
  lemma FinalChargeIsExact(t: Table, tenant: string, month: string, session: Option<string>, price: Price, worst: real,
                           u: Upstream, settles: bool)
    requires IsMonth(month) && (settles || StaysReserved(u))
    ensures var key := Key(tenant, month);
            var scope := if session.Some? then Some(SessionKey(tenant, session.value)) else None;
            SameTotals(Charged(t, key, key, scope, price, worst, u, settles), AddScopes(t, key, scope, FinalUsd(price, worst, u)))
  {
    var scope := if session.Some? then Some(SessionKey(tenant, session.value)) else None;
    if session.Some? {
      NamespacesDisjoint(tenant, month, tenant, session.value);
    }
    SettlementNets(t, Key(tenant, month), scope, worst, FinalUsd(price, worst, u));
  }

  /** The request once its worst case is priced. */
  method AdmitAndServe(gate: LocalGate, tenant: string, price: Price, sessionId: Option<string>, worstUsd: real,
                       upstream: Upstream, monthAfter: string, settles: bool)
    returns (reply: Reply, settlements: nat)
    requires IsMonth(gate.month)
    modifies gate, gate.spend
    ensures reply.BudgetExceeded402? <==> !old(gate.AllFit(gate.spend.table, tenant, worstUsd, sessionId))
    ensures reply.BudgetExceeded402? ==> settlements == 0 && SameTotals(gate.spend.table, old(gate.spend.table))
    ensures !reply.BudgetExceeded402? ==>
              reply == ReplyTo(upstream) && settlements == (if StaysReserved(upstream) then 0 else 1)
    ensures !reply.BudgetExceeded402? ==>
              gate.spend.table == Charged(old(gate.spend.table), Key(tenant, old(gate.month)), Key(tenant, monthAfter),
                                          gate.SessionScope(tenant, sessionId), price, worstUsd, upstream, settles)
  {
    var reservation := gate.Reserve(tenant, worstUsd, sessionId);
    if !reservation.ok {
      return BudgetExceeded402(reservation), 0;
    }
    gate.month := monthAfter;
    var once := new PopOnce(gate, tenant, sessionId, settles);
    reply := once.Serve(price, worstUsd, upstream);
    settlements := once.calls;
  }

  /**
   * Refused, a request charges nothing. Admitted, it settles at most once, and every scope then
   * carries the final cost (in one month); what never settles carries its worst case.
   */
  method HandleMessages(gate: LocalGate, tenant: string, price: Price, sessionId: Option<string>,
                        inputTokens: nat, maxTokens: real, upstream: Upstream, monthAfter: string, settles: bool)
    returns (reply: Reply, settlements: nat)
    requires IsMonth(gate.month)
    modifies gate, gate.spend
    ensures var worst := CostAt(price, inputTokens as real, maxTokens);
            && (reply.BudgetExceeded402? <==> !old(gate.AllFit(gate.spend.table, tenant, worst, sessionId)))
            && (reply.BudgetExceeded402? ==> settlements == 0 && SameTotals(gate.spend.table, old(gate.spend.table)))
            && (!reply.BudgetExceeded402? ==>
                  reply == ReplyTo(upstream) && settlements == (if StaysReserved(upstream) then 0 else 1)
                  && gate.spend.table == Charged(old(gate.spend.table), Key(tenant, old(gate.month)), Key(tenant, monthAfter),
                                                 gate.SessionScope(tenant, sessionId), price, worst, upstream, settles))
  {
    var worstUsd := CostAt(price, inputTokens as real, maxTokens);
    reply, settlements := AdmitAndServe(gate, tenant, price, sessionId, worstUsd, upstream, monthAfter, settles);
  }
}
