/**
 * LocalGate: the per-tenant budget gate. A reservation is checked against the tenant's month
 * and, when a session cap is configured, against the session; the first scope is refunded when
 * the second refuses. Run counts live in a namespace of the same store.
 */
module LocalGates {
  import opened Common
  import opened SpendStores

  datatype BudgetStatus = BudgetStatus(tenant: string, limitUsd: real, spentUsd: real, remainingUsd: real, ok: bool)

  /** `limit` and `remaining` are None, for unlimited, when the quota is off. */
  datatype QuotaStatus = QuotaStatus(tenant: string, limit: Option<real>, used: real, remaining: Option<real>, ok: bool)

  /** Two tables no reader can tell apart: an absent counter and a zero one are the same. */
  ghost predicate SameTotals(t: Table, u: Table) {
    forall k :: Get(t, k) == Get(u, k)
  }

  /** `usd` on the month's counter, and on the session's when there is one. */
  function AddScopes(t: Table, month: Key, session: Option<Key>, usd: real): Table {
    var u := Add(t, month, usd);
    if session.Some? then Add(u, session.value, usd) else u
  }

  /** One scope has room for a worst case: it fits the cap alone and on top of what is spent. */
  predicate Fits(t: Table, k: Key, worst: real, cap: real) {
    worst <= cap && Get(t, k) + worst <= cap
  }

  class LocalGate {
    const fallbackLimitUsd: real
    const source: map<string, real>
    const spend: SpendStore
    const sessionLimitUsd: Option<real>
    const runQuota: Option<real>
    /** What the clock reads, as a billing month. */
    var month: string

    constructor (fallback: real, source: map<string, real>, spend: SpendStore,
                 sessionLimitUsd: Option<real>, runQuota: Option<real>, month: string)
      ensures this.spend == spend && this.month == month
      ensures this.sessionLimitUsd == sessionLimitUsd && this.runQuota == runQuota
      ensures forall tenant :: LimitFor(tenant) == if tenant in source then source[tenant] else fallback
    {
      this.fallbackLimitUsd := fallback;
      this.source := source;
      this.spend := spend;
      this.sessionLimitUsd := sessionLimitUsd;
      this.runQuota := runQuota;
      this.month := month;
    }

    function LimitFor(tenant: string): real {
      if tenant in source then source[tenant] else fallbackLimitUsd
    }

    function MonthKey(tenant: string): Key
      reads this
    {
      Key(tenant, month)
    }

    /** The session scope is on when a cap is configured and the request names a session. */
    function SessionScope(tenant: string, sessionId: Option<string>): Option<Key> {
      if sessionLimitUsd.Some? && sessionId.Some? && sessionId.value != ""
      then Some(SessionKey(tenant, sessionId.value)) else None
    }

    /** Every active scope has room. */
    predicate AllFit(t: Table, tenant: string, worstUsd: real, sessionId: Option<string>)
      reads this
    {
      && Fits(t, MonthKey(tenant), worstUsd, LimitFor(tenant))
      && (SessionScope(tenant, sessionId).Some? ==>
            Fits(t, SessionScope(tenant, sessionId).value, worstUsd, sessionLimitUsd.value))
    }

    /** What an amount on the active scopes adds to each counter: an absent or empty id moves no session's. */
    predicate Moved(before: Table, after: Table, tenant: string, sessionId: Option<string>, usd: real, k: Key)
      reads this
    {
      Get(after, k) - Get(before, k)
      == (if k == Key(tenant, month) then usd else 0.0)
         + (match sessionId
            case None => 0.0
            case Some(id) => if id != "" && sessionLimitUsd.Some? && k == Key(tenant, "session#" + id) then usd else 0.0)
    }

    lemma ScopesMove(t: Table, tenant: string, sessionId: Option<string>, usd: real)
      ensures forall k :: Moved(t, AddScopes(t, MonthKey(tenant), SessionScope(tenant, sessionId), usd), tenant, sessionId, usd, k)
    {
    }

    /**
     * Admits iff every active scope has room, and then charges the worst case to exactly those
     * scopes; a refusal, from whichever scope, holds nothing.
     */
    method Reserve(tenant: string, worstUsd: real, sessionId: Option<string>) returns (status: BudgetStatus)
      requires IsMonth(month)
      modifies spend
      ensures status.ok <==> AllFit(old(spend.table), tenant, worstUsd, sessionId)
      ensures status.ok ==>
                && spend.table == AddScopes(old(spend.table), MonthKey(tenant), SessionScope(tenant, sessionId), worstUsd)
                && status.spentUsd == Get(old(spend.table), MonthKey(tenant)) + worstUsd
                && status.limitUsd == LimitFor(tenant)
      ensures !status.ok ==> SameTotals(spend.table, old(spend.table))
      ensures !status.ok ==>
                if Fits(old(spend.table), MonthKey(tenant), worstUsd, LimitFor(tenant))
                then status.spentUsd == Get(old(spend.table), SessionScope(tenant, sessionId).value) + worstUsd
                     && status.limitUsd == sessionLimitUsd.value
                else status.spentUsd == Get(old(spend.table), MonthKey(tenant)) + worstUsd
                     && status.limitUsd == LimitFor(tenant)
      ensures status.tenant == tenant && status.remainingUsd == status.limitUsd - status.spentUsd
      ensures status.ok <==>
                && worstUsd <= LimitFor(tenant) && Get(old(spend.table), Key(tenant, month)) + worstUsd <= LimitFor(tenant)
                && (sessionLimitUsd.Some? && sessionId.Some? && sessionId.value != "" ==>
                      && worstUsd <= sessionLimitUsd.value
                      && Get(old(spend.table), Key(tenant, "session#" + sessionId.value)) + worstUsd <= sessionLimitUsd.value)
      ensures status.ok ==> forall k :: Moved(old(spend.table), spend.table, tenant, sessionId, worstUsd, k)
    {
      ScopesMove(spend.table, tenant, sessionId, worstUsd);
      var key := MonthKey(tenant);
      var tenantCap := LimitFor(tenant);
      if worstUsd > tenantCap {
        var current := spend.Read(key);
        return OverBy(tenant, tenantCap, current, worstUsd);
      }
      var tenantTotal := spend.Reserve(key, worstUsd, tenantCap);
      if tenantTotal.None? {
        var current := spend.Read(key);
        return OverBy(tenant, tenantCap, current, worstUsd);
      }
      var scope := SessionScope(tenant, sessionId);
      if scope.Some? {
        NamespacesDisjoint(tenant, month, tenant, sessionId.value);
        var cap := sessionLimitUsd.value;
        var sessionTotal := None;
        if worstUsd <= cap {
          sessionTotal := spend.Reserve(scope.value, worstUsd, cap);
        }
        if sessionTotal.None? {
          var _ := spend.AddSpend(key, -worstUsd);
          var current := spend.Read(scope.value);
          return OverBy(tenant, cap, current, worstUsd);
        }
      }
      status := BudgetStatus(tenant, tenantCap, tenantTotal.value, tenantCap - tenantTotal.value, true);
    }

    /** Adds the delta to the scopes a reservation was held in — in the month it is NOW. */
    method Settle(tenant: string, deltaUsd: real, sessionId: Option<string>)
      modifies spend
      ensures spend.table == AddScopes(old(spend.table), MonthKey(tenant), SessionScope(tenant, sessionId), deltaUsd)
      ensures forall k :: Moved(old(spend.table), spend.table, tenant, sessionId, deltaUsd, k)
    {
      ScopesMove(spend.table, tenant, sessionId, deltaUsd);
      var _ := spend.AddSpend(MonthKey(tenant), deltaUsd);
      var scope := SessionScope(tenant, sessionId);
      if scope.Some? {
        var _ := spend.AddSpend(scope.value, deltaUsd);
      }
    }

    function OverBy(tenant: string, limitUsd: real, current: real, worstUsd: real): BudgetStatus {
      BudgetStatus(tenant, limitUsd, current + worstUsd, limitUsd - (current + worstUsd), false)
    }

    /** Takes one run of the month's quota, iff one is left. */
    method ReserveRun(tenant: string) returns (status: QuotaStatus)
      modifies spend
      ensures var used := Get(old(spend.table), RunsKey(tenant, month));
              && status.ok == (runQuota.None? || (1.0 <= runQuota.value && used + 1.0 <= runQuota.value))
              && spend.table == (if runQuota.Some? && status.ok
                                 then Add(old(spend.table), RunsKey(tenant, month), 1.0) else old(spend.table))
              && (runQuota.Some? ==> status.used == Get(spend.table, RunsKey(tenant, month)))
      ensures status.tenant == tenant && status.limit == runQuota
      ensures runQuota.None? ==> status.used == 0.0 && status.remaining == None
      ensures status.ok && runQuota.Some? ==> status.remaining == Some(runQuota.value - status.used)
      ensures !status.ok ==> status.remaining == Some(if 1.0 <= runQuota.value && status.used < runQuota.value
                                                      then runQuota.value - status.used else 0.0)
    {
      if runQuota.None? {
        return QuotaStatus(tenant, None, 0.0, None, true);
      }
      var limit := runQuota.value;
      var key := RunsKey(tenant, month);
      if limit < 1.0 {
        var used := spend.Read(key);
        return QuotaStatus(tenant, runQuota, used, Some(0.0), false);
      }
      var total := spend.Reserve(key, 1.0, limit);
      if total.None? {
        var used := spend.Read(key);
        return QuotaStatus(tenant, runQuota, used, Some(if limit - used > 0.0 then limit - used else 0.0), false);
      }
      status := QuotaStatus(tenant, runQuota, total.value, Some(limit - total.value), true);
    }

    method RefundRun(tenant: string)
      modifies spend
      ensures spend.table == if runQuota.None? then old(spend.table)
                             else Add(old(spend.table), RunsKey(tenant, month), -1.0)
    {
      if runQuota.Some? {
        var _ := spend.AddSpend(RunsKey(tenant, month), -1.0);
      }
    }

    /** Read-only: what is left of the quota, never less than nothing. */
    method CheckQuota(tenant: string) returns (status: QuotaStatus)
      ensures status.tenant == tenant && status.limit == runQuota
      ensures runQuota.None? ==> status.ok && status.used == 0.0 && status.remaining == None
      ensures runQuota.Some? ==>
                && status.used == Get(spend.table, RunsKey(tenant, month))
                && (status.ok <==> status.used < runQuota.value)
                && status.remaining == Some(if status.used < runQuota.value then runQuota.value - status.used else 0.0)
    {
      if runQuota.None? {
        return QuotaStatus(tenant, None, 0.0, None, true);
      }
      var used := spend.Read(RunsKey(tenant, month));
      var left := runQuota.value - used;
      status := QuotaStatus(tenant, runQuota, used, Some(if left > 0.0 then left else 0.0), used < runQuota.value);
    }
  }

  /**
   * A reservation and the settlement of its negation in the same month leave every counter as it
   * was; settled to the actual cost, every charged scope carries exactly that cost.
   */
  lemma SettlementNets(t: Table, month: Key, session: Option<Key>, worst: real, actual: real)
    requires session.Some? ==> session.value != month
    ensures SameTotals(AddScopes(AddScopes(t, month, session, worst), month, session, actual - worst),
                       AddScopes(t, month, session, actual))
    ensures SameTotals(AddScopes(AddScopes(t, month, session, worst), month, session, -worst), t)
  {
  }

  /**
   * Across a month's end it does not: the worst case stays in the month it was reserved in and
   * the delta lands in the next. The old month nets to the actual cost iff nothing was over-reserved.
   */
  lemma SettlementAcrossMonths(t: Table, reserved: Key, settled: Key, worst: real, actual: real)
    ensures Get(AddScopes(AddScopes(t, reserved, None, worst), settled, None, actual - worst), reserved)
              == Get(t, reserved) + actual
       <==> settled == reserved || actual == worst
  {
  }
}
