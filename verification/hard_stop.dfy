/**
 * When the cap is a hard stop. A reservation with a worst case below nothing lowers its counter until
 * it is settled or refunded; what it lends can be taken meanwhile, and then it comes back.
 */
module HardStop {
  import opened Common
  import opened Ledger
  import opened LocalGates
  import opened SpendStores
  import opened Sums

  // ----- when no counter ever passes its cap -----------------------------------------------------

  function Fresh(requests: seq<Request>): (jobs: seq<Job>)
    ensures |jobs| == |requests| && forall i :: 0 <= i < |jobs| ==> jobs[i] == Job(requests[i], Idle, false)
  {
    seq(|requests|, i requires 0 <= i < |requests| => Job(requests[i], Idle, false))
  }

  /** Calls cost at most their worst cases, and failed ones nothing. */
  predicate AtMostWorst(actual: real, worst: real) {
    actual <= 0.0 || actual <= worst
  }

  ghost predicate Honest(requests: seq<Request>, schedule: seq<Step>) {
    forall i :: 0 <= i < |schedule| && schedule[i].Finish? && schedule[i].job < |requests| ==>
                  AtMostWorst(schedule[i].actual, requests[schedule[i].job].worst)
  }

  /** Its worst case alone fits the month's cap; and the session's too, when it is on. */
  predicate FitsMonth(caps: Caps, r: Request) {
    r.worst <= caps.LimitFor(r.tenant)
  }

  predicate FitsBoth(caps: Caps, r: Request) {
    FitsMonth(caps, r) && (r.session.Some? ==> r.worst <= caps.session)
  }

  /** A reservation that makes room: admitted, it lowers the counter until it is settled or refunded. */
  predicate Lends(caps: Caps, r: Request) {
    r.worst < 0.0 && FitsMonth(caps, r)
  }

  predicate Takes(caps: Caps, r: Request, tenant: string) {
    r.tenant == tenant && r.worst > 0.0 && FitsMonth(caps, r)
  }

  /** Some request lends room, and can give it up where or when another has taken it. */
  ghost predicate Overdraws(caps: Caps, requests: seq<Request>) {
    exists i :: 0 <= i < |requests| && Lends(caps, requests[i])
                && (FitsBoth(caps, requests[i]) || Taken(caps, requests, requests[i].tenant))
  }

  ghost predicate Taken(caps: Caps, requests: seq<Request>, tenant: string) {
    exists j :: 0 <= j < |requests| && Takes(caps, requests[j], tenant)
  }

  /** What a job has come to was let through by the checks it passed. */
  predicate Admitted(caps: Caps, j: Job) {
    && (!j.phase.Idle? && !j.phase.Begun? && !j.phase.Refused? ==> FitsMonth(caps, j.request))
    && (j.phase.Open? || j.phase.Finished? || j.phase.HalfSettled? || j.phase.Settled? ==> FitsBoth(caps, j.request))
    && (j.phase.Finished? || j.phase.HalfSettled? || j.phase.Settled? ==> AtMostWorst(j.phase.actual, j.request.worst))
  }

  lemma MoveAdmitted(caps: Caps, t: Table, clock: string, j: Job, step: Step)
    requires Admitted(caps, j) && (step.Finish? ==> AtMostWorst(step.actual, j.request.worst))
    ensures Admitted(caps, j.(phase := JobMove(caps, t, clock, j, step).phase))
  {
  }

  lemma {:induction false} ExecAdmitted(caps: Caps, requests: seq<Request>, s: State, schedule: seq<Step>)
    requires Start(s) && s.jobs == Fresh(requests) && Honest(requests, schedule)
    ensures |Exec(caps, s, schedule).jobs| == |requests|
    ensures forall i :: 0 <= i < |requests| ==> Admitted(caps, Exec(caps, s, schedule).jobs[i])
  {
    if schedule != [] {
      var step, at := schedule[|schedule| - 1], Exec(caps, s, schedule[..|schedule| - 1]);
      ExecAdmitted(caps, requests, s, schedule[..|schedule| - 1]);
      ExecWellFormed(caps, s, schedule[..|schedule| - 1]);
      if !step.Tick? && !step.Crash? && step.job < |at.jobs| {
        MoveAdmitted(caps, at.table, at.clock, at.jobs[step.job], step);
      }
    }
  }

  function Nothing(): Job -> real {
    (j: Job) => 0.0
  }

  /** Where a tenant's room is lent and nobody can take it, calls never put anything on the month. */
  lemma NothingTaken(caps: Caps, requests: seq<Request>, j: Job, k: Key)
    requires Admitted(caps, j) && JobWellFormed(j) && j.request in requests
    requires !Overdraws(caps, requests) && IsMonth(k.period) && !Taken(caps, requests, k.tenant)
    ensures Charge(j, k) <= 0.0
  {
    var i :| 0 <= i < |requests| && requests[i] == j.request;
    if j.request.session.Some? {
      NamespacesDisjoint(k.tenant, k.period, j.request.tenant, j.request.session.value);
    }
    assert !Takes(caps, requests[i], k.tenant);
    assert Lends(caps, requests[i]) ==> !FitsBoth(caps, requests[i]);
  }

  /** Where none is lent, no call lifts a counter past its cap. */
  lemma NothingLent(caps: Caps, requests: seq<Request>, j: Job, k: Key)
    requires Admitted(caps, j) && JobWellFormed(j) && j.request in requests && !Overdraws(caps, requests)
    requires IsMonth(k.period) ==> forall i :: 0 <= i < |requests| && requests[i].tenant == k.tenant ==> !Lends(caps, requests[i])
    ensures Excess(j, k) == 0.0
  {
    var i :| 0 <= i < |requests| && requests[i] == j.request;
    assert Lends(caps, requests[i]) ==> !FitsBoth(caps, requests[i]);
  }

  lemma StaysBelow(caps: Caps, requests: seq<Request>, s: State, schedule: seq<Step>, k: Key)
    requires Start(s) && s.jobs == Fresh(requests) && Honest(requests, schedule) && !Overdraws(caps, requests)
    requires IsMonth(k.period) && !Taken(caps, requests, k.tenant)
    ensures Get(Exec(caps, s, schedule).table, k) <= Get(s.table, k)
  {
    var s' := Exec(caps, s, schedule);
    LedgerConserved(caps, s, schedule);
    ExecWellFormed(caps, s, schedule);
    ExecAdmitted(caps, requests, s, schedule);
    forall i | 0 <= i < |s'.jobs|
      ensures ChargeTo(k)(s'.jobs[i]) <= Nothing()(s'.jobs[i])
    {
      assert s'.jobs[i].request == requests[i] && requests[i] in requests;
      NothingTaken(caps, requests, s'.jobs[i], k);
    }
    SumAtMost(s'.jobs, ChargeTo(k), Nothing());
    SumZero(s'.jobs, Nothing());
    assert Get(s'.table, k) == Get(s.table, k) + Sum(s'.jobs, ChargeTo(k));
  }

  lemma StaysWithin(caps: Caps, requests: seq<Request>, s: State, schedule: seq<Step>, k: Key)
    requires Start(s) && s.jobs == Fresh(requests) && Honest(requests, schedule) && !Overdraws(caps, requests)
    requires Get(s.table, k) <= CapOf(caps, k)
    requires IsMonth(k.period) ==> forall i :: 0 <= i < |requests| && requests[i].tenant == k.tenant ==> !Lends(caps, requests[i])
    ensures Get(Exec(caps, s, schedule).table, k) <= CapOf(caps, k)
  {
    var s' := Exec(caps, s, schedule);
    CapBound(caps, s, schedule, k);
    ExecWellFormed(caps, s, schedule);
    ExecAdmitted(caps, requests, s, schedule);
    forall i | 0 <= i < |s'.jobs|
      ensures ExcessOn(k)(s'.jobs[i]) == 0.0
    {
      assert s'.jobs[i].request == requests[i] && requests[i] in requests;
      NothingLent(caps, requests, s'.jobs[i], k);
    }
    SumZero(s'.jobs, ExcessOn(k));
  }

  /** Unless some request overdraws, no counter ever exceeds its cap, in any reachable state. */
  lemma CapNeverExceeded(caps: Caps, requests: seq<Request>, s: State, schedule: seq<Step>, k: Key)
    requires Start(s) && s.jobs == Fresh(requests) && Honest(requests, schedule) && !Overdraws(caps, requests)
    requires Get(s.table, k) <= CapOf(caps, k)
    ensures Get(Exec(caps, s, schedule).table, k) <= CapOf(caps, k)
  {
    if IsMonth(k.period) && exists i :: 0 <= i < |requests| && requests[i].tenant == k.tenant && Lends(caps, requests[i]) {
      StaysBelow(caps, requests, s, schedule, k);
    } else {
      StaysWithin(caps, requests, s, schedule, k);
    }
  }

  /** Requests with worst cases of at least nothing never overdraw. */
  lemma NonNegativeNeverOverdraws(caps: Caps, requests: seq<Request>)
    requires forall i :: 0 <= i < |requests| ==> requests[i].worst >= 0.0
    ensures !Overdraws(caps, requests)
  {
  }

  // ----- and when one does ------------------------------------------------------------------------

  /** The plain bound on one run. */
  ghost predicate KeepsCap(caps: Caps, s: State, schedule: seq<Step>, k: Key) {
    Get(s.table, k) <= CapOf(caps, k) ==> Get(Exec(caps, s, schedule).table, k) <= CapOf(caps, k)
  }

  /** And on every run of these requests. */
  ghost predicate AlwaysKeepsCaps(caps: Caps, requests: seq<Request>) {
    forall s, schedule, k :: Start(s) && s.jobs == Fresh(requests) && Honest(requests, schedule) ==> KeepsCap(caps, s, schedule, k)
  }

  /** From a month without a counter yet, a request that fits both scopes opens. */
  lemma OpensInMay(caps: Caps, s: State, i: nat)
    requires i < |s.jobs| && s.jobs[i].phase.Idle? && !s.jobs[i].crashed && FitsBoth(caps, s.jobs[i].request)
    requires s.clock == MAY && s.table.Keys == {Key(s.jobs[i].request.tenant, JUNE)}
    ensures var r := s.jobs[i].request;
            var s' := Take(caps, Take(caps, Take(caps, s, Begin(i)), ReserveTenant(i)), ReserveSession(i));
            s'.jobs == InPhase(s, i, Open(MAY)).jobs && s'.clock == MAY
            && Get(s'.table, Key(r.tenant, JUNE)) == Get(s.table, Key(r.tenant, JUNE))
  {
    var r := s.jobs[i].request;
    assert MAY[6] != JUNE[6];
    SoloTenant(caps, s, i);
    if r.session.Some? {
      NamespacesDisjoint(r.tenant, MAY, r.tenant, r.session.value);
      NamespacesDisjoint(r.tenant, JUNE, r.tenant, r.session.value);
    }
  }

  lemma SettlesInJune(caps: Caps, s: State, i: nat)
    requires i < |s.jobs| && s.jobs[i].phase == Open(MAY) && !s.jobs[i].crashed && s.clock == MAY
    ensures var june := Key(s.jobs[i].request.tenant, JUNE);
            var s' := Take(caps, Take(caps, Take(caps, s, Tick(JUNE)), Finish(i, 0.0)), SettleTenant(i));
            Get(s'.table, june) == Get(s.table, june) - s.jobs[i].request.worst
  {
    var june := Take(caps, s, Tick(JUNE));
    assert june.clock == JUNE && june.jobs == s.jobs;
    assert Take(caps, june, Finish(i, 0.0)) == InPhase(june, i, Finished(MAY, JUNE, 0.0));
  }

  lemma ExecThree(caps: Caps, s: State, before: seq<Step>, a: Step, b: Step, c: Step)
    ensures Exec(caps, s, before + [a] + [b] + [c]) == Take(caps, Take(caps, Take(caps, Exec(caps, s, before), a), b), c)
  {
    ExecTwo(caps, s, before, a, b);
    ExecAppend(caps, s, before + [a] + [b], c);
  }

  function LaterSchedule(i: nat): seq<Step> {
    [] + [Begin(i)] + [ReserveTenant(i)] + [ReserveSession(i)] + [Tick(JUNE)] + [Finish(i, 0.0)] + [SettleTenant(i)]
  }

  lemma LendsInMaySettlesInJune(caps: Caps, s: State, i: nat)
    requires i < |s.jobs| && s.jobs[i].phase.Idle? && !s.jobs[i].crashed && FitsBoth(caps, s.jobs[i].request)
    requires s.clock == MAY && s.table.Keys == {Key(s.jobs[i].request.tenant, JUNE)}
    ensures var r := s.jobs[i].request;
            Get(Exec(caps, s, LaterSchedule(i)).table, Key(r.tenant, JUNE)) == Get(s.table, Key(r.tenant, JUNE)) - r.worst
  {
    var open := [] + [Begin(i)] + [ReserveTenant(i)] + [ReserveSession(i)];
    ExecThree(caps, s, [], Begin(i), ReserveTenant(i), ReserveSession(i));
    OpensInMay(caps, s, i);
    ExecThree(caps, s, open, Tick(JUNE), Finish(i, 0.0), SettleTenant(i));
    SettlesInJune(caps, Exec(caps, s, open), i);
  }

  /** What a lender lent in one month comes back in the next, onto a counter at its cap. */
  lemma ComesBackLater(caps: Caps, requests: seq<Request>, i: nat)
    requires i < |requests| && Lends(caps, requests[i]) && FitsBoth(caps, requests[i])
    ensures !AlwaysKeepsCaps(caps, requests)
  {
    var june := Key(requests[i].tenant, JUNE);
    var s := State(map[june := caps.LimitFor(requests[i].tenant)], Fresh(requests), MAY);
    LendsInMaySettlesInJune(caps, s, i);
    assert Honest(requests, LaterSchedule(i));
    assert !KeepsCap(caps, s, LaterSchedule(i), june);
  }

  /** A lender the session refuses is parked, and its refund is still to come. */
  lemma ParksLender(caps: Caps, s: State, i: nat)
    requires i < |s.jobs| && s.jobs[i].phase.Idle? && !s.jobs[i].crashed
    requires Lends(caps, s.jobs[i].request) && !FitsBoth(caps, s.jobs[i].request)
    requires Get(s.table, Key(s.jobs[i].request.tenant, s.clock)) <= caps.LimitFor(s.jobs[i].request.tenant)
    ensures var r := s.jobs[i].request;
            Take(caps, Take(caps, Take(caps, s, Begin(i)), ReserveTenant(i)), ReserveSession(i))
            == InPhase(s, i, Compensating(s.clock)).(table := Add(s.table, Key(r.tenant, s.clock), r.worst))
  {
    SoloTenant(caps, s, i);
  }

  lemma TakerFills(caps: Caps, s: State, j: nat)
    requires j < |s.jobs| && s.jobs[j].phase.Idle? && !s.jobs[j].crashed
    requires Fits(s.table, Key(s.jobs[j].request.tenant, s.clock), s.jobs[j].request.worst, caps.LimitFor(s.jobs[j].request.tenant))
    ensures var r := s.jobs[j].request;
            var s' := Take(caps, Take(caps, s, Begin(j)), ReserveTenant(j));
            s'.table == Add(s.table, Key(r.tenant, s.clock), r.worst)
            && |s'.jobs| == |s.jobs| && forall i :: 0 <= i < |s.jobs| && i != j ==> s'.jobs[i] == s.jobs[i]
  {
    SoloTenant(caps, s, j);
  }

  function TakenSchedule(i: nat, j: nat): seq<Step> {
    [] + [Begin(i)] + [ReserveTenant(i)] + [ReserveSession(i)] + [Begin(j)] + [ReserveTenant(j)] + [Compensate(i)]
  }

  lemma LenderRefunds(caps: Caps, s: State, i: nat, held: string)
    requires i < |s.jobs| && s.jobs[i].phase == Compensating(held) && !s.jobs[i].crashed
    ensures Take(caps, s, Compensate(i)).table == Add(s.table, TenantKey(s.jobs[i].request, held), -s.jobs[i].request.worst)
  {
  }

  /** The month ends at the taker's worst case above where it started. */
  lemma LentAndTaken(caps: Caps, s: State, i: nat, j: nat)
    requires i < |s.jobs| && j < |s.jobs| && i != j && s.clock == MAY
    requires s.jobs[i].phase.Idle? && !s.jobs[i].crashed && s.jobs[j].phase.Idle? && !s.jobs[j].crashed
    requires Lends(caps, s.jobs[i].request) && !FitsBoth(caps, s.jobs[i].request)
    requires Takes(caps, s.jobs[j].request, s.jobs[i].request.tenant)
    requires var lender, taker := s.jobs[i].request, s.jobs[j].request;
             var limit, start := caps.LimitFor(lender.tenant), Get(s.table, Key(lender.tenant, MAY));
             start <= limit && start + lender.worst + taker.worst <= limit
    ensures var may := Key(s.jobs[i].request.tenant, MAY);
            Get(Exec(caps, s, TakenSchedule(i, j)).table, may) == Get(s.table, may) + s.jobs[j].request.worst
  {
    var lent := [] + [Begin(i)] + [ReserveTenant(i)] + [ReserveSession(i)];
    ExecThree(caps, s, [], Begin(i), ReserveTenant(i), ReserveSession(i));
    ParksLender(caps, s, i);
    ExecThree(caps, s, lent, Begin(j), ReserveTenant(j), Compensate(i));
    var parked := Exec(caps, s, lent);
    TakerFills(caps, parked, j);
    LenderRefunds(caps, Take(caps, Take(caps, parked, Begin(j)), ReserveTenant(j)), i, MAY);
  }

  /** What a refused lender lent is taken before its refund puts it back. */
  lemma ComesBackTaken(caps: Caps, requests: seq<Request>, i: nat, j: nat)
    requires i < |requests| && j < |requests| && Lends(caps, requests[i]) && !FitsBoth(caps, requests[i])
    requires Takes(caps, requests[j], requests[i].tenant)
    ensures !AlwaysKeepsCaps(caps, requests)
  {
    var lender, taker := requests[i], requests[j];
    var limit, may := caps.LimitFor(lender.tenant), Key(lender.tenant, MAY);
    var s := State(map[may := if taker.worst <= -lender.worst then limit else limit - taker.worst - lender.worst], Fresh(requests), MAY);
    LentAndTaken(caps, s, i, j);
    assert Honest(requests, TakenSchedule(i, j));
    assert !KeepsCap(caps, s, TakenSchedule(i, j), may);
  }

  /**
   * Exactly when the cap is a hard stop: for every start, every honest schedule and every counter,
   * if and only if no request overdraws.
   */
  lemma CapIsHardStop(caps: Caps, requests: seq<Request>)
    ensures AlwaysKeepsCaps(caps, requests) <==> !Overdraws(caps, requests)
  {
    if Overdraws(caps, requests) {
      var i :| 0 <= i < |requests| && Lends(caps, requests[i])
               && (FitsBoth(caps, requests[i]) || Taken(caps, requests, requests[i].tenant));
      if FitsBoth(caps, requests[i]) {
        ComesBackLater(caps, requests, i);
      } else {
        var j :| 0 <= j < |requests| && Takes(caps, requests[j], requests[i].tenant);
        ComesBackTaken(caps, requests, i, j);
      }
    } else {
      forall s, schedule, k | Start(s) && s.jobs == Fresh(requests) && Honest(requests, schedule)
        ensures KeepsCap(caps, s, schedule, k)
      {
        if Get(s.table, k) <= CapOf(caps, k) {
          CapNeverExceeded(caps, requests, s, schedule, k);
        }
      }
    }
  }

  // ----- for example --------------------------------------------------------------------------------

  const FIVE_EACH := Caps(map[], 5.0, 5.0)
  const ACME_MAY := Key("acme", MAY)

  /** A lender of ten, and three calls that each fit a cap of five. */
  const FOUR_CALLS: seq<Request> := [
    Request("acme", -10.0, None), Request("acme", 5.0, None), Request("acme", 5.0, None), Request("acme", 5.0, None)
  ]

  lemma OneMoreOpens(s: State, i: nat, total: real)
    requires i < |s.jobs| && s.jobs[i].phase.Idle? && !s.jobs[i].crashed && s.clock == MAY && s.table == map[ACME_MAY := total]
    requires var r := s.jobs[i].request;
             r.tenant == "acme" && r.session.None? && r.worst <= 5.0 && total + r.worst <= 5.0
    ensures Take(FIVE_EACH, Take(FIVE_EACH, s, Begin(i)), ReserveTenant(i))
         == InPhase(s, i, Open(MAY)).(table := map[ACME_MAY := total + s.jobs[i].request.worst])
  {
    SoloTenant(FIVE_EACH, s, i);
  }

  lemma TwoOpen(s: State)
    requires s == State(map[ACME_MAY := 0.0], Fresh(FOUR_CALLS), MAY)
    ensures var two := [] + [Begin(0)] + [ReserveTenant(0)] + [Begin(1)] + [ReserveTenant(1)];
            Exec(FIVE_EACH, s, two) == InPhase(InPhase(s, 0, Open(MAY)), 1, Open(MAY)).(table := map[ACME_MAY := -5.0])
  {
    ExecTwo(FIVE_EACH, s, [], Begin(0), ReserveTenant(0));
    OneMoreOpens(s, 0, 0.0);
    ExecTwo(FIVE_EACH, s, [] + [Begin(0)] + [ReserveTenant(0)], Begin(1), ReserveTenant(1));
    OneMoreOpens(Exec(FIVE_EACH, s, [] + [Begin(0)] + [ReserveTenant(0)]), 1, -10.0);
  }

  lemma TwoMoreOpen(s: State, two: seq<Step>, t: State)
    requires Exec(FIVE_EACH, s, two) == t && |t.jobs| == 4 && t.clock == MAY && t.table == map[ACME_MAY := -5.0]
    requires t.jobs[0] == Job(FOUR_CALLS[0], Open(MAY), false)
    requires forall i :: 2 <= i < 4 ==> t.jobs[i] == Job(FOUR_CALLS[i], Idle, false)
    ensures var s' := Exec(FIVE_EACH, s, two + [Begin(2)] + [ReserveTenant(2)] + [Begin(3)] + [ReserveTenant(3)]);
            s'.table == map[ACME_MAY := 5.0] && s'.clock == MAY
            && |s'.jobs| == 4 && s'.jobs[0] == Job(FOUR_CALLS[0], Open(MAY), false)
  {
    var three := two + [Begin(2)] + [ReserveTenant(2)];
    ExecTwo(FIVE_EACH, s, two, Begin(2), ReserveTenant(2));
    OneMoreOpens(t, 2, -5.0);
    ExecTwo(FIVE_EACH, s, three, Begin(3), ReserveTenant(3));
    OneMoreOpens(Exec(FIVE_EACH, s, three), 3, 0.0);
  }

  lemma LenderFails(s: State)
    requires |s.jobs| == 4 && s.jobs[0] == Job(FOUR_CALLS[0], Open(MAY), false) && s.clock == MAY && s.table == map[ACME_MAY := 5.0]
    ensures Take(FIVE_EACH, Take(FIVE_EACH, s, Finish(0, 0.0)), SettleTenant(0)).table == map[ACME_MAY := 15.0]
  {
    assert Take(FIVE_EACH, s, Finish(0, 0.0)) == InPhase(s, 0, Finished(MAY, MAY, 0.0));
  }

  /** All four are admitted under a cap of five, the lender's call fails, and the month stands at fifteen. */
  lemma OverdrawnMonth()
    ensures var schedule := [] + [Begin(0)] + [ReserveTenant(0)] + [Begin(1)] + [ReserveTenant(1)]
                            + [Begin(2)] + [ReserveTenant(2)] + [Begin(3)] + [ReserveTenant(3)]
                            + [Finish(0, 0.0)] + [SettleTenant(0)];
            Get(Exec(FIVE_EACH, State(map[ACME_MAY := 0.0], Fresh(FOUR_CALLS), MAY), schedule).table, ACME_MAY) == 15.0
  {
    var s := State(map[ACME_MAY := 0.0], Fresh(FOUR_CALLS), MAY);
    var open := [] + [Begin(0)] + [ReserveTenant(0)] + [Begin(1)] + [ReserveTenant(1)]
                + [Begin(2)] + [ReserveTenant(2)] + [Begin(3)] + [ReserveTenant(3)];
    var two := [] + [Begin(0)] + [ReserveTenant(0)] + [Begin(1)] + [ReserveTenant(1)];
    TwoOpen(s);
    TwoMoreOpen(s, two, Exec(FIVE_EACH, s, two));
    ExecTwo(FIVE_EACH, s, open, Finish(0, 0.0), SettleTenant(0));
    LenderFails(Exec(FIVE_EACH, s, open));
  }
}
