/** AdmissionInferenceProvider: the cost hard-stop as a decorator over an inference provider. */
module AdmissionInference {
  import opened Common
  import opened SpendStores
  import opened LocalGates
  import opened Pricing

  /** What the wrapped provider does when it is called; token counts it does not report are zero. */
  datatype Upstream = Turn(inputTokens: Option<real>, outputTokens: Option<real>) | Fault

  datatype Generated =
    | Refused(status: BudgetStatus)
    | Returned
    | UpstreamFailed
    | SettleFailed   // the turn was had, the settlement's error escapes

  function OrZero(n: Option<real>): real {
    if n.Some? then n.value else 0.0
  }

  /** What the call really cost: nothing, when it failed. */
  function ActualUsd(price: Price, u: Upstream): real {
    match u
    case Fault => 0.0
    case Turn(i, o) => CostAt(price, OrZero(i), OrZero(o))
  }

  class AdmissionInferenceProvider {
    const gate: LocalGate
    const tenant: string
    const scopeId: Option<string>
    /** What the model is priced at; a model without a price is `Numbers`' concern. */
    const price: Price

    constructor (gate: LocalGate, tenant: string, scopeId: Option<string>, price: Price)
      ensures this.gate == gate && this.tenant == tenant && this.scopeId == scopeId && this.price == price
    {
      this.gate := gate;
      this.tenant := tenant;
      this.scopeId := scopeId;
      this.price := price;
    }

    /** The month's counter for this tenant, and the session's when it is on. */
    function Scope(): Option<Key> {
      gate.SessionScope(tenant, scopeId)
    }

    /**
     * Refuses before anything is sent iff a scope has no room for the worst case. Otherwise every
     * scope is charged the worst case, and then corrected to the actual cost (nothing, on a fault),
     * in the month the call returns in, unless the settlement itself is lost.
     */
    method Generate(inputTokens: nat, maxTokens: real, upstream: Upstream, monthAfter: string, settles: bool)
      returns (r: Generated)
      requires IsMonth(gate.month)
      modifies gate, gate.spend
      ensures var before, worst := old(gate.spend.table), CostAt(price, inputTokens as real, maxTokens);
              var admitted := old(gate.AllFit(gate.spend.table, tenant, CostAt(price, inputTokens as real, maxTokens), scopeId));
              var key := Key(tenant, old(gate.month));
              && (r.Refused? <==> !admitted)
              && (r.Refused? ==> SameTotals(gate.spend.table, before))
              && (admitted ==> (r == UpstreamFailed <==> upstream.Fault?)
                               && (r == SettleFailed <==> !settles && !upstream.Fault?))
              && (admitted && !settles ==> gate.spend.table == AddScopes(before, key, Scope(), worst))
              && (admitted && settles ==>
                    gate.spend.table == AddScopes(AddScopes(before, key, Scope(), worst), Key(tenant, monthAfter),
                                                  Scope(), ActualUsd(price, upstream) - worst))
    {
      var worstUsd := CostAt(price, inputTokens as real, maxTokens);
      var status := gate.Reserve(tenant, worstUsd, scopeId);
      if !status.ok {
        return Refused(status);
      }
      gate.month := monthAfter;
      if upstream.Fault? {
        if settles {
          gate.Settle(tenant, -worstUsd, scopeId);
        }
        return UpstreamFailed;
      }
      if !settles {
        return SettleFailed;
      }
      var actualUsd := CostAt(price, if upstream.inputTokens.None? then 0.0 else upstream.inputTokens.value,
                              if upstream.outputTokens.None? then 0.0 else upstream.outputTokens.value);
      gate.Settle(tenant, actualUsd - worstUsd, scopeId);
      r := Returned;
    }
  }

  /** A call that returns in the month it began in leaves every scope charged its actual cost, and no other counter moved. */
  lemma SettledInItsMonth(t: Table, tenant: string, month: string, session: Option<string>, price: Price, worst: real, u: Upstream)
    requires IsMonth(month)
    ensures var key := Key(tenant, month);
            var scope := if session.Some? then Some(SessionKey(tenant, session.value)) else None;
            SameTotals(AddScopes(AddScopes(t, key, scope, worst), key, scope, ActualUsd(price, u) - worst),
                       AddScopes(t, key, scope, ActualUsd(price, u)))
  {
    var scope := if session.Some? then Some(SessionKey(tenant, session.value)) else None;
    if session.Some? {
      NamespacesDisjoint(tenant, month, tenant, session.value);
    }
    SettlementNets(t, Key(tenant, month), scope, worst, ActualUsd(price, u));
  }
}
