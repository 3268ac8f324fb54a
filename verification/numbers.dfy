/**
 * Numbers as the runtime computes with them. A price that is missing is not a number: every comparison
 * with it is false, and every sum with it is it again. An output cap may be an infinity. Here is the
 * gate over the in-memory store on such numbers, for the calls the finite ledger does not cover.
 */
module Numbers {
  import opened Common
  import opened LocalGates
  import opened Pricing
  import opened SpendStores

  function Plus(a: Number, b: Number): Number {
    if a.Num? && b.Num? then Num(a.value + b.value)
    else if a.Num? || a == b then b
    else if b.Num? then a
    else NaN
  }

  function Negated(a: Number): Number {
    match a
    case Num(value) => Num(-value)
    case NaN => NaN
    case Infinity => MinusInfinity
    case MinusInfinity => Infinity
  }

  predicate Above(a: Number, b: real) {
    a.Infinity? || (a.Num? && a.value > b)
  }

  /** No sum with it is above anything. */
  predicate Bottomless(a: Number) {
    a.NaN? || a.MinusInfinity?
  }

  type Totals = map<Key, Number>

  function TotalOf(t: Totals, k: Key): Number {
    if k in t then t[k] else Num(0.0)
  }

  function AddTo(t: Totals, k: Key, usd: Number): Totals {
    t[k := Plus(TotalOf(t, k), usd)]
  }

  /** Whether a reservation on one counter is refused: neither no number nor a bottomless one is above the ceiling. */
  predicate RefusedAt(t: Totals, k: Key, delta: Number, ceiling: real) {
    Above(Plus(TotalOf(t, k), delta), ceiling)
  }

  datatype Answer = Answer(admitted: bool, totals: Totals)

  /** The gate's two-scope reservation, check by check. */
  function GateReserve(t: Totals, month: Key, scope: Option<Key>, worst: Number, cap: real, sessionCap: real): Answer {
    if Above(worst, cap) || RefusedAt(t, month, worst, cap) then Answer(false, t)
    else
      var u := AddTo(t, month, worst);
      if scope.None? then Answer(true, u)
      else if Above(worst, sessionCap) || RefusedAt(u, scope.value, worst, sessionCap)
      then Answer(false, AddTo(u, month, Negated(worst)))
      else Answer(true, AddTo(u, scope.value, worst))
  }

  /** One store call: an addition, or a reservation under a ceiling. */
  datatype StoreCall = Adding(k: Key, usd: Number) | Reserving(k: Key, usd: Number, ceiling: real)

  function After(t: Totals, c: StoreCall): Totals {
    if c.Reserving? && RefusedAt(t, c.k, c.usd, c.ceiling) then t else AddTo(t, c.k, c.usd)
  }

  function AfterAll(t: Totals, calls: seq<StoreCall>): Totals {
    if calls == [] then t else After(AfterAll(t, calls[..|calls| - 1]), calls[|calls| - 1])
  }

  class InMemorySpendStore {
    var totals: Totals

    constructor ()
      ensures totals == map[]
    {
      totals := map[];
    }

    method AddSpend(k: Key, usd: Number) returns (total: Number)
      modifies this
      ensures totals == AddTo(old(totals), k, usd) && total == TotalOf(totals, k)
      ensures totals == After(old(totals), Adding(k, usd))
    {
      total := Plus(if k in totals then totals[k] else Num(0.0), usd);
      totals := totals[k := total];
    }

    method Reserve(k: Key, delta: Number, ceiling: real) returns (total: Option<Number>)
      modifies this
      ensures total.None? <==> RefusedAt(old(totals), k, delta, ceiling)
      ensures totals == if total.None? then old(totals) else AddTo(old(totals), k, delta)
      ensures totals == After(old(totals), Reserving(k, delta, ceiling))
    {
      var next := Plus(if k in totals then totals[k] else Num(0.0), delta);
      if Above(next, ceiling) {
        return None;
      }
      totals := totals[k := next];
      total := Some(next);
    }

    /** The gate's reservation over this store. */
    method ReserveScopes(month: Key, scope: Option<Key>, worstUsd: Number, cap: real, sessionCap: real) returns (admitted: bool)
      modifies this
      ensures Answer(admitted, totals) == GateReserve(old(totals), month, scope, worstUsd, cap, sessionCap)
    {
      if Above(worstUsd, cap) {
        return false;
      }
      var tenantTotal := Reserve(month, worstUsd, cap);
      if tenantTotal.None? {
        return false;
      }
      if scope.Some? {
        var sessionTotal: Option<Number> := None;
        if !Above(worstUsd, sessionCap) {
          sessionTotal := Reserve(scope.value, worstUsd, sessionCap);
        }
        if sessionTotal.None? {
          var _ := AddSpend(month, Negated(worstUsd));
          return false;
        }
      }
      admitted := true;
    }
  }

  // ----- with a price it is the gate ------------------------------------------------------------------

  function Numeric(t: Table): Totals {
    map k | k in t :: Num(t[k])
  }

  lemma NumericAdd(t: Table, k: Key, usd: real)
    ensures AddTo(Numeric(t), k, Num(usd)) == Numeric(Add(t, k, usd))
  {
  }

  lemma NumericAt(t: Table, k: Key)
    ensures TotalOf(Numeric(t), k) == Num(Get(t, k))
  {
  }

  /** What the reservation of `LocalGate` promises of these tables. */
  ghost predicate AsGate(t: Table, month: Key, scope: Option<Key>, worst: real, cap: real, sessionCap: real, a: Answer) {
    && (a.admitted <==> Fits(t, month, worst, cap) && (scope.Some? ==> Fits(t, scope.value, worst, sessionCap)))
    && (a.admitted ==> a.totals == Numeric(AddScopes(t, month, scope, worst)))
    && (!a.admitted ==> forall k :: TotalOf(a.totals, k) == TotalOf(Numeric(t), k))
  }

  lemma PricedMonth(t: Table, month: Key, worst: real, cap: real, sessionCap: real)
    ensures AsGate(t, month, None, worst, cap, sessionCap, GateReserve(Numeric(t), month, None, Num(worst), cap, sessionCap))
  {
    NumericAt(t, month);
    NumericAdd(t, month, worst);
  }

  lemma RefundedTotals(t: Table, month: Key, worst: real, k: Key)
    ensures TotalOf(Numeric(Add(Add(t, month, worst), month, -worst)), k) == TotalOf(Numeric(t), k)
  {
  }

  lemma PricedSession(t: Table, month: Key, scope: Key, worst: real, cap: real, sessionCap: real)
    requires scope != month && Fits(t, month, worst, cap)
    ensures AsGate(t, month, Some(scope), worst, cap, sessionCap, GateReserve(Numeric(t), month, Some(scope), Num(worst), cap, sessionCap))
  {
    var u := Add(t, month, worst);
    NumericAt(t, month);
    NumericAdd(t, month, worst);
    NumericAt(u, scope);
    if Fits(t, scope, worst, sessionCap) {
      NumericAdd(u, scope, worst);
    } else {
      NumericAdd(u, month, -worst);
      forall k ensures TotalOf(Numeric(Add(u, month, -worst)), k) == TotalOf(Numeric(t), k) {
        RefundedTotals(t, month, worst, k);
      }
    }
  }

  /** On numbers this is the reservation of `LocalGate`: the same answer and the same totals. */
  lemma PricedReservation(t: Table, month: Key, scope: Option<Key>, worst: real, cap: real, sessionCap: real)
    requires scope != Some(month)
    ensures AsGate(t, month, scope, worst, cap, sessionCap, GateReserve(Numeric(t), month, scope, Num(worst), cap, sessionCap))
  {
    NumericAt(t, month);
    if scope.None? {
      PricedMonth(t, month, worst, cap, sessionCap);
    } else if Fits(t, month, worst, cap) {
      PricedSession(t, month, scope.value, worst, cap, sessionCap);
    }
  }

  // ----- and where it lets everything through -----------------------------------------------------------

  /** Whatever is spent already, a call with a bottomless worst case is admitted, and the counters it is charged to are bottomless. */
  lemma BottomlessReservation(t: Totals, month: Key, scope: Option<Key>, worst: Number, cap: real, sessionCap: real)
    requires Bottomless(worst)
    ensures var a := GateReserve(t, month, scope, worst, cap, sessionCap);
            && a.admitted && Bottomless(TotalOf(a.totals, month))
            && (scope.Some? ==> Bottomless(TotalOf(a.totals, scope.value)))
  {
  }

  /** A counter refuses nothing, whatever is asked for and whatever its ceiling, exactly when it is bottomless. */
  lemma RefusesNothing(t: Totals, k: Key)
    ensures (forall delta, ceiling :: !RefusedAt(t, k, delta, ceiling)) <==> Bottomless(TotalOf(t, k))
  {
    if !Bottomless(TotalOf(t, k)) {
      assert RefusedAt(t, k, Num(0.0), if TotalOf(t, k).Num? then TotalOf(t, k).value - 1.0 else 0.0);
    }
  }

  /** A bottomless amount is taken to this counter. */
  ghost predicate Sunk(calls: seq<StoreCall>, k: Key) {
    exists i :: 0 <= i < |calls| && calls[i].k == k && Bottomless(calls[i].usd)
  }

  lemma {:induction false} BottomlessExactly(t: Totals, calls: seq<StoreCall>, k: Key)
    ensures Bottomless(TotalOf(AfterAll(t, calls), k)) <==> Bottomless(TotalOf(t, k)) || Sunk(calls, k)
  {
    if calls != [] {
      var before, last := calls[..|calls| - 1], calls[|calls| - 1];
      BottomlessExactly(t, before, k);
      if Sunk(before, k) {
        var i :| 0 <= i < |before| && before[i].k == k && Bottomless(before[i].usd);
        assert calls[i] == before[i];
      }
      assert last.k == k && Bottomless(last.usd) ==> Sunk(calls, k);
    }
  }

  /**
   * When a counter is a hard stop no more: after any store calls it refuses nothing at all exactly when
   * it did so before them, or one of them took an amount to it that is no number or bottomless.
   */
  lemma NoMoreHardStop(t: Totals, calls: seq<StoreCall>, k: Key)
    ensures (forall delta, ceiling :: !RefusedAt(AfterAll(t, calls), k, delta, ceiling))
       <==> Bottomless(TotalOf(t, k)) || Sunk(calls, k)
  {
    BottomlessExactly(t, calls, k);
    RefusesNothing(AfterAll(t, calls), k);
  }

  /**
   * Which calls do that to their month, through the gate: exactly those whose model has no price and
   * those with an infinitely negative output cap. Whatever is settled, refunded or reserved afterwards,
   * the month refuses nothing.
   */
  lemma BottomlessCall(model: string, inputTokens: real, maxTokens: Number, t: Totals, month: Key, scope: Option<Key>,
                       cap: real, sessionCap: real, calls: seq<StoreCall>)
    requires !maxTokens.NaN? && scope != Some(month) && !Bottomless(TotalOf(t, month)) && !Sunk(calls, month)
    ensures var a := GateReserve(t, month, scope, PriceTokensUsd(model, inputTokens, maxTokens), cap, sessionCap);
            (forall delta, ceiling :: !RefusedAt(AfterAll(a.totals, calls), month, delta, ceiling))
            <==> PriceOf(model).None? || maxTokens.MinusInfinity?
  {
    var worst := PriceTokensUsd(model, inputTokens, maxTokens);
    var a := GateReserve(t, month, scope, worst, cap, sessionCap);
    NoMoreHardStop(a.totals, calls, month);
    if Bottomless(worst) {
      BottomlessReservation(t, month, scope, worst, cap, sessionCap);
    }
  }

  /** For example: with a price, and a total at the cap. */
  lemma InheritedModel(t: Totals, month: Key, cap: real)
    requires TotalOf(t, month) == Num(cap)
    ensures GateReserve(t, month, None, PriceTokensUsd("constructor", 1.0, Num(1.0)), cap, cap)
         == Answer(true, t[month := NaN])
  {
    assert INHERITED[0] == "constructor";
    assert PriceOf("constructor").None?;
  }
}
