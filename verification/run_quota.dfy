/**
 * The front door: claude-code runs are admitted against a per-month run quota, every other run
 * against the dollar budget. Many admissions run at once, interleaved at the quota reservation and
 * at the creation of the run record.
 */
module RunQuota {
  import opened Common
  import opened Sums
  import opened SpendStores
  import opened LocalGates

  /** `month` is the one the reservation was counted in. */
  datatype Phase = Asked | Counted(month: string) | Refused | Created(month: string) | CreateFailed(month: string)

  datatype Admission = Admission(tenant: string, phase: Phase)

  datatype State = State(table: Table, admissions: seq<Admission>)

  datatype Step = Reserve(run: nat, month: string) | Create(run: nat) | FailCreate(run: nat)

  function Take(quota: real, s: State, step: Step): State {
    if step.run >= |s.admissions| then s
    else
      var a := s.admissions[step.run];
      match (step, a.phase)
      case (Reserve(i, month), Asked) =>
        var r := ConditionalAdd(s.table, RunsKey(a.tenant, month), 1.0, quota);
        if quota < 1.0 || r.total.None? then s.(admissions := s.admissions[i := a.(phase := Refused)])
        else State(r.table, s.admissions[i := a.(phase := Counted(month))])
      case (Create(i), Counted(month)) => s.(admissions := s.admissions[i := a.(phase := Created(month))])
      case (FailCreate(i), Counted(month)) => s.(admissions := s.admissions[i := a.(phase := CreateFailed(month))])
      case _ => s
  }

  function Exec(quota: real, s: State, schedule: seq<Step>): State {
    if schedule == [] then s
    else Take(quota, Exec(quota, s, schedule[..|schedule| - 1]), schedule[|schedule| - 1])
  }

  /** One for an admission counted in this month, and for one whose run was created. */
  function CountedIn(tenant: string, month: string): Admission -> real {
    (a: Admission) =>
      if a.tenant == tenant && !a.phase.Asked? && !a.phase.Refused? && a.phase.month == month then 1.0 else 0.0
  }

  function CreatedIn(tenant: string, month: string): Admission -> real {
    (a: Admission) => if a.tenant == tenant && a.phase.Created? && a.phase.month == month then 1.0 else 0.0
  }

  lemma DistinctRunKeys(tenant: string, month: string, other: string, otherMonth: string)
    ensures RunsKey(tenant, month) == RunsKey(other, otherMonth) <==> tenant == other && month == otherMonth
  {
    assert RunsKey(tenant, month).period[5..] == month && RunsKey(other, otherMonth).period[5..] == otherMonth;
  }

  lemma TakeCounts(quota: real, s: State, step: Step, tenant: string, month: string)
    ensures var s', key := Take(quota, s, step), RunsKey(tenant, month);
            && Get(s'.table, key) - Get(s.table, key)
                 == Sum(s'.admissions, CountedIn(tenant, month)) - Sum(s.admissions, CountedIn(tenant, month))
            && (Get(s'.table, key) <= quota || Get(s'.table, key) == Get(s.table, key))
  {
    if step.run < |s.admissions| {
      var a := s.admissions[step.run];
      SumUpdate(s.admissions, step.run, Take(quota, s, step).admissions[step.run], CountedIn(tenant, month));
      if step.Reserve? {
        DistinctRunKeys(tenant, month, a.tenant, step.month);
      }
    }
  }

  /**
   * Over every interleaving, with runs that fail to be created along the way: the counter is exactly
   * the admissions counted, which include every run created, and it never passes the quota.
   */
  lemma {:induction false} QuotaBound(quota: real, s: State, schedule: seq<Step>, tenant: string, month: string)
    requires forall i :: 0 <= i < |s.admissions| ==> s.admissions[i].phase.Asked?
    requires 0.0 <= Get(s.table, RunsKey(tenant, month)) <= quota
    ensures var s', before := Exec(quota, s, schedule), Get(s.table, RunsKey(tenant, month));
            var counter := Get(s'.table, RunsKey(tenant, month));
            && counter == before + Sum(s'.admissions, CountedIn(tenant, month))
            && before + Sum(s'.admissions, CreatedIn(tenant, month)) <= counter <= quota
  {
    SumAtMost(Exec(quota, s, schedule).admissions, CreatedIn(tenant, month), CountedIn(tenant, month));
    if schedule == [] {
      SumZero(s.admissions, CountedIn(tenant, month));
    } else {
      QuotaBound(quota, s, schedule[..|schedule| - 1], tenant, month);
      TakeCounts(quota, Exec(quota, s, schedule[..|schedule| - 1]), schedule[|schedule| - 1], tenant, month);
    }
  }

  /** One admission's steps, run alone, take a slot exactly when one is left, whatever becomes of the run. */
  lemma SoloAdmission(quota: real, s: State, i: nat, month: string, createFails: bool)
    requires i < |s.admissions| && s.admissions[i].phase.Asked?
    ensures var tenant, key := s.admissions[i].tenant, RunsKey(s.admissions[i].tenant, month);
            var s' := Take(quota, Take(quota, s, Reserve(i, month)), if createFails then FailCreate(i) else Create(i));
            if 1.0 <= quota && Get(s.table, key) + 1.0 <= quota
            then s'.table == Add(s.table, key, 1.0)
                 && s'.admissions[i] == Admission(tenant, if createFails then CreateFailed(month) else Created(month))
            else s'.table == s.table && s'.admissions[i] == Admission(tenant, Refused)
  {
  }

  // ----- the front door itself ---------------------------------------------------------------------

  datatype Kind = ClaudeCode | OtherKind

  /** What the identity, policy and registry lookups say about a request. */
  datatype Lookup = Lookup(dispatchKnown: bool, authenticated: bool, tenant: string, allowed: bool,
                           agentNamed: bool, spec: Option<Kind>)

  datatype Outcome = Denied(status: int) | Threw | Accepted(run: nat)

  /** Why a request stops before admission control, if it does. */
  function EarlyDenial(l: Lookup): Option<int> {
    if !l.dispatchKnown then Some(400)
    else if !l.authenticated then Some(401)
    else if !l.allowed then Some(403)
    else if l.agentNamed && l.spec.None? then Some(404)
    else None
  }

  predicate QuotaGated(l: Lookup) {
    l.agentNamed && l.spec == Some(ClaudeCode)
  }

  class FrontDoor {
    const gate: LocalGate
    /** The tenants of the runs created, oldest first. */
    var runs: seq<string>

    constructor (gate: LocalGate)
      ensures this.gate == gate && runs == []
    {
      this.gate := gate;
      runs := [];
    }

    /**
     * One run is created exactly when nothing denies it and the record can be written. A quota slot
     * is taken exactly when a claude-code run gets that far, and stays taken if the write fails.
     */
    method AuthorizeAndCreate(l: Lookup, createFails: bool) returns (outcome: Outcome)
      modifies this, gate.spend
      ensures var used := Get(old(gate.spend.table), RunsKey(l.tenant, gate.month));
              var roomLeft := gate.runQuota.None? || (1.0 <= gate.runQuota.value && used + 1.0 <= gate.runQuota.value);
              var underCap := Get(old(gate.spend.table), gate.MonthKey(l.tenant)) < gate.LimitFor(l.tenant);
              var admitted := EarlyDenial(l).None? && if QuotaGated(l) then roomLeft else underCap;
              && (outcome.Accepted? <==> admitted && !createFails)
              && (outcome.Threw? <==> admitted && createFails)
              && runs == (if outcome.Accepted? then old(runs) + [l.tenant] else old(runs))
              && gate.spend.table == (if admitted && QuotaGated(l) && gate.runQuota.Some?
                                      then Add(old(gate.spend.table), RunsKey(l.tenant, gate.month), 1.0)
                                      else old(gate.spend.table))
              && (EarlyDenial(l).Some? ==> outcome == Denied(EarlyDenial(l).value))
              && (EarlyDenial(l).None? && !admitted ==> outcome == Denied(if QuotaGated(l) then 429 else 402))
      ensures outcome.Accepted? ==> outcome.run == |old(runs)|
      ensures !l.dispatchKnown ==> outcome == Denied(400)
      ensures l.dispatchKnown && !l.authenticated ==> outcome == Denied(401)
      ensures l.dispatchKnown && l.authenticated && !l.allowed ==> outcome == Denied(403)
      ensures l.dispatchKnown && l.authenticated && l.allowed && l.agentNamed && l.spec.None? ==> outcome == Denied(404)
    {
      if !l.dispatchKnown {
        return Denied(400);
      }
      if !l.authenticated {
        return Denied(401);
      }
      if !l.allowed {
        return Denied(403);
      }
      var spec := None;
      if l.agentNamed {
        if l.spec.None? {
          return Denied(404);
        }
        spec := l.spec;
      }
      if spec == Some(ClaudeCode) {
        var quota := gate.ReserveRun(l.tenant);
        if !quota.ok {
          return Denied(429);
        }
      } else {
        var spent := gate.spend.Read(gate.MonthKey(l.tenant));
        if spent >= gate.LimitFor(l.tenant) {
          return Denied(402);
        }
      }
      if createFails {
        return Threw;
      }
      runs := runs + [l.tenant];
      outcome := Accepted(|runs| - 1);
    }
  }
}
