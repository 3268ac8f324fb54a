/**
 * The worst-case ledger under concurrency: any number of model calls, interleaved at every
 * store call, with crashes at any point and the month rolling over at any point. A schedule is
 * any sequence of steps; a step that is not enabled changes nothing, so a statement about
 * `Exec` over all schedules is a statement about every reachable state.
 */
module Ledger {
  import opened Common
  import opened Sums
  import opened SpendStores
  import opened LocalGates

  /** What a call asks for; `session` is None when the session scope is off for it. */
  datatype Request = Request(tenant: string, worst: real, session: Option<string>)

  /** `held` is the month read when the reservation began, `paid` the one read when settling began. */
  datatype Phase =
    | Idle
    | Begun(held: string)
    | Parked(held: string)                                // month charged, session undecided
    | Compensating(held: string)                          // session refused, refund of the month pending
    | Refused                                             // nothing was ever held
    | Compensated(held: string)                           // session refused, the month was refunded
    | Open(held: string)                                  // admitted, the model call is running
    | Finished(held: string, paid: string, actual: real)  // the call returned, nothing settled yet
    | HalfSettled(held: string, paid: string, actual: real)
    | Settled(held: string, paid: string, actual: real)

  datatype Job = Job(request: Request, phase: Phase, crashed: bool)

  datatype Caps = Caps(source: map<string, real>, fallback: real, session: real) {
    function LimitFor(tenant: string): real {
      if tenant in source then source[tenant] else fallback
    }
  }

  datatype State = State(table: Table, jobs: seq<Job>, clock: string)

  datatype Step =
    | Tick(month: string)
    | Crash(job: nat)
    | Begin(job: nat)
    | ReserveTenant(job: nat)
    | ReserveSession(job: nat)
    | Compensate(job: nat)
    | Finish(job: nat, actual: real)   // a failed call finishes with an actual cost of zero
    | SettleTenant(job: nat)
    | SettleSession(job: nat)

  function TenantKey(r: Request, month: string): Key {
    Key(r.tenant, month)
  }

  function ScopeKey(r: Request): Key
    requires r.session.Some?
  {
    SessionKey(r.tenant, r.session.value)
  }

  /** One job's move: its next phase, and the store call it makes (a key and an amount), if any. */
  datatype Move = Move(phase: Phase, call: Option<(Key, real)>)

  function JobMove(caps: Caps, t: Table, clock: string, j: Job, step: Step): Move {
    var r := j.request;
    var stay := Move(j.phase, None);
    if j.crashed then stay
    else match (step, j.phase)
      case (Begin(_), Idle) => Move(Begun(clock), None)
      case (ReserveTenant(_), Begun(held)) =>
        var k, cap := TenantKey(r, held), caps.LimitFor(r.tenant);
        if r.worst > cap || ConditionalAdd(t, k, r.worst, cap).total.None? then Move(Refused, None)
        else Move(if r.session.Some? then Parked(held) else Open(held), Some((k, r.worst)))
      case (ReserveSession(_), Parked(held)) =>
        if r.session.None? || r.worst > caps.session
           || ConditionalAdd(t, ScopeKey(r), r.worst, caps.session).total.None?
        then Move(Compensating(held), None)
        else Move(Open(held), Some((ScopeKey(r), r.worst)))
      case (Compensate(_), Compensating(held)) => Move(Compensated(held), Some((TenantKey(r, held), -r.worst)))
      case (Finish(_, actual), Open(held)) => Move(Finished(held, clock, actual), None)
      case (SettleTenant(_), Finished(held, paid, actual)) =>
        Move(if r.session.Some? then HalfSettled(held, paid, actual) else Settled(held, paid, actual),
             Some((TenantKey(r, paid), actual - r.worst)))
      case (SettleSession(_), HalfSettled(held, paid, actual)) =>
        Move(Settled(held, paid, actual),
             if r.session.Some? then Some((ScopeKey(r), actual - r.worst)) else None)
      case _ => stay
  }

  function Call(t: Table, call: Option<(Key, real)>): Table {
    if call.Some? then Add(t, call.value.0, call.value.1) else t
  }

  function Take(caps: Caps, s: State, step: Step): State {
    match step
    case Tick(month) => if IsMonth(month) then s.(clock := month) else s
    case Crash(i) => if i < |s.jobs| then s.(jobs := s.jobs[i := s.jobs[i].(crashed := true)]) else s
    case _ =>
      if step.job < |s.jobs| then
        var j := s.jobs[step.job];
        var m := JobMove(caps, s.table, s.clock, j, step);
        s.(jobs := s.jobs[step.job := j.(phase := m.phase)], table := Call(s.table, m.call))
      else s
  }

  function Exec(caps: Caps, s: State, schedule: seq<Step>): State {
    if schedule == [] then s
    else Take(caps, Exec(caps, s, schedule[..|schedule| - 1]), schedule[|schedule| - 1])
  }

  /** No request begun; the clock shows a month. */
  ghost predicate Start(s: State) {
    && IsMonth(s.clock)
    && forall i :: 0 <= i < |s.jobs| ==> s.jobs[i].phase.Idle?
  }

  // ----- conservation ----------------------------------------------------------------------

  /** What a job has put on counter `k` so far: its worst case, then the delta of its settlement. */
  function Charge(j: Job, k: Key): real {
    var r := j.request;
    match j.phase
    case Idle => 0.0
    case Begun(_) => 0.0
    case Refused => 0.0
    case Compensated(_) => 0.0
    case Parked(held) => On(k, TenantKey(r, held), r.worst)
    case Compensating(held) => On(k, TenantKey(r, held), r.worst)
    case Open(held) => On(k, TenantKey(r, held), r.worst) + OnScope(k, r, r.worst)
    case Finished(held, _, _) => On(k, TenantKey(r, held), r.worst) + OnScope(k, r, r.worst)
    case HalfSettled(held, paid, actual) =>
      On(k, TenantKey(r, held), r.worst) + On(k, TenantKey(r, paid), actual - r.worst) + OnScope(k, r, r.worst)
    case Settled(held, paid, actual) =>
      On(k, TenantKey(r, held), r.worst) + On(k, TenantKey(r, paid), actual - r.worst) + OnScope(k, r, actual)
  }

  function On(k: Key, at: Key, usd: real): real {
    if k == at then usd else 0.0
  }

  function OnScope(k: Key, r: Request, usd: real): real {
    if r.session.Some? then On(k, ScopeKey(r), usd) else 0.0
  }

  function ChargeTo(k: Key): Job -> real {
    (j: Job) => Charge(j, k)
  }

  ghost predicate Conserved(base: Table, s: State) {
    forall k :: Get(s.table, k) == Get(base, k) + Sum(s.jobs, ChargeTo(k))
  }

  /** A job's move changes a counter by exactly what it changes the job's charge. */
  lemma MoveCharges(caps: Caps, t: Table, clock: string, j: Job, step: Step, k: Key)
    requires j.phase.HalfSettled? ==> j.request.session.Some?
    ensures var m := JobMove(caps, t, clock, j, step);
            Get(Call(t, m.call), k) - Get(t, k) == Charge(j.(phase := m.phase), k) - Charge(j, k)
  {
  }

  lemma JobChargesAt(s: State, i: nat, phase: Phase, crashed: bool, k: Key)
    requires i < |s.jobs|
    ensures var j := s.jobs[i].(phase := phase, crashed := crashed);
            Sum(s.jobs[i := j], ChargeTo(k)) - Sum(s.jobs, ChargeTo(k)) == Charge(j, k) - Charge(s.jobs[i], k)
  {
    SumUpdate(s.jobs, i, s.jobs[i].(phase := phase, crashed := crashed), ChargeTo(k));
  }

  lemma MovesOne(caps: Caps, s: State, step: Step)
    requires !step.Tick? && !step.Crash? && step.job < |s.jobs|
    ensures var j := s.jobs[step.job];
            var m := JobMove(caps, s.table, s.clock, j, step);
            Take(caps, s, step) == State(Call(s.table, m.call), s.jobs[step.job := j.(phase := m.phase)], s.clock)
  {
  }

  lemma MoveChargesAt(caps: Caps, s: State, step: Step, k: Key)
    requires !step.Tick? && !step.Crash? && step.job < |s.jobs|
    requires s.jobs[step.job].phase.HalfSettled? ==> s.jobs[step.job].request.session.Some?
    ensures var s' := Take(caps, s, step);
            Get(s'.table, k) - Get(s.table, k) == Sum(s'.jobs, ChargeTo(k)) - Sum(s.jobs, ChargeTo(k))
  {
    var j := s.jobs[step.job];
    MovesOne(caps, s, step);
    MoveCharges(caps, s.table, s.clock, j, step, k);
    JobChargesAt(s, step.job, JobMove(caps, s.table, s.clock, j, step).phase, j.crashed, k);
  }

  lemma TakeChargesAt(caps: Caps, s: State, step: Step, k: Key)
    requires forall i :: 0 <= i < |s.jobs| && s.jobs[i].phase.HalfSettled? ==> s.jobs[i].request.session.Some?
    ensures var s' := Take(caps, s, step);
            Get(s'.table, k) - Get(s.table, k) == Sum(s'.jobs, ChargeTo(k)) - Sum(s.jobs, ChargeTo(k))
  {
    if !step.Tick? && step.job < |s.jobs| {
      if step.Crash? {
        JobChargesAt(s, step.job, s.jobs[step.job].phase, true, k);
      } else {
        MoveChargesAt(caps, s, step, k);
      }
    }
  }

  lemma TakeConserves(caps: Caps, base: Table, s: State, step: Step)
    requires Conserved(base, s)
    requires forall i :: 0 <= i < |s.jobs| && s.jobs[i].phase.HalfSettled? ==> s.jobs[i].request.session.Some?
    ensures Conserved(base, Take(caps, s, step))
  {
    forall k
      ensures Get(Take(caps, s, step).table, k) == Get(base, k) + Sum(Take(caps, s, step).jobs, ChargeTo(k))
    {
      assert Get(s.table, k) == Get(base, k) + Sum(s.jobs, ChargeTo(k));
      TakeChargesAt(caps, s, step, k);
    }
  }

  /** The shape every reachable state has. */
  ghost predicate WellFormed(s: State) {
    && IsMonth(s.clock)
    && forall i :: 0 <= i < |s.jobs| ==> JobWellFormed(s.jobs[i])
  }

  predicate JobWellFormed(j: Job) {
    && (j.phase.Parked? || j.phase.Compensating? || j.phase.HalfSettled? ==> j.request.session.Some?)
    && (!j.phase.Idle? && !j.phase.Refused? ==> IsMonth(j.phase.held))
    && (j.phase.Finished? || j.phase.HalfSettled? || j.phase.Settled? ==> IsMonth(j.phase.paid))
  }

  lemma MoveWellFormed(caps: Caps, t: Table, clock: string, j: Job, step: Step)
    requires JobWellFormed(j) && IsMonth(clock)
    ensures JobWellFormed(j.(phase := JobMove(caps, t, clock, j, step).phase))
  {
  }

  lemma TakeWellFormed(caps: Caps, s: State, step: Step)
    requires WellFormed(s)
    ensures WellFormed(Take(caps, s, step)) && |Take(caps, s, step).jobs| == |s.jobs|
    ensures forall i :: 0 <= i < |s.jobs| ==> Take(caps, s, step).jobs[i].request == s.jobs[i].request
  {
    if !step.Tick? && !step.Crash? && step.job < |s.jobs| {
      MoveWellFormed(caps, s.table, s.clock, s.jobs[step.job], step);
    }
  }

  lemma {:induction false} ExecWellFormed(caps: Caps, s: State, schedule: seq<Step>)
    requires Start(s)
    ensures WellFormed(Exec(caps, s, schedule))
    ensures |Exec(caps, s, schedule).jobs| == |s.jobs|
    ensures forall i :: 0 <= i < |s.jobs| ==> Exec(caps, s, schedule).jobs[i].request == s.jobs[i].request
  {
    if schedule != [] {
      var before := schedule[..|schedule| - 1];
      ExecWellFormed(caps, s, before);
      TakeWellFormed(caps, Exec(caps, s, before), schedule[|schedule| - 1]);
    }
  }

  /**
   * Conservation, at every step of every interleaving, across crashes and month ends: each
   * counter is what it started as plus what the calls have put on it.
   */
  lemma {:induction false} LedgerConserved(caps: Caps, s: State, schedule: seq<Step>)
    requires Start(s)
    ensures Conserved(s.table, Exec(caps, s, schedule))
  {
    if schedule == [] {
      forall k
        ensures Sum(s.jobs, ChargeTo(k)) == 0.0
      {
        SumZero(s.jobs, ChargeTo(k));
      }
    } else {
      var before := schedule[..|schedule| - 1];
      LedgerConserved(caps, s, before);
      ExecWellFormed(caps, s, before);
      TakeConserves(caps, s.table, Exec(caps, s, before), schedule[|schedule| - 1]);
    }
  }

  /** What a reader of the books expects a call to be on the hook for, scope by scope. */
  function Due(j: Job, k: Key): real {
    var r := j.request;
    match j.phase
    case Idle => 0.0
    case Begun(_) => 0.0
    case Refused => 0.0
    case Compensated(_) => 0.0
    case Parked(held) => On(k, TenantKey(r, held), r.worst)
    case Compensating(held) => On(k, TenantKey(r, held), r.worst)
    case Open(held) => On(k, TenantKey(r, held), r.worst) + OnScope(k, r, r.worst)
    case Finished(held, _, _) => On(k, TenantKey(r, held), r.worst) + OnScope(k, r, r.worst)
    case HalfSettled(held, _, actual) => On(k, TenantKey(r, held), actual) + OnScope(k, r, r.worst)
    case Settled(held, _, actual) => On(k, TenantKey(r, held), actual) + OnScope(k, r, actual)
  }

  function DueTo(k: Key): Job -> real {
    (j: Job) => Due(j, k)
  }

  /**
   * A call's books are right on every counter exactly when it has not been settled, or was
   * settled in the month it was reserved in, or cost exactly its worst case: settlement
   * re-reads the clock, so a call that straddles a month's end credits the wrong month.
   */
  lemma ChargeIsDue(j: Job)
    ensures (forall k :: Charge(j, k) == Due(j, k))
       <==> !(j.phase.HalfSettled? || j.phase.Settled?)
            || j.phase.paid == j.phase.held || j.phase.actual == j.request.worst
  {
    if j.phase.HalfSettled? || j.phase.Settled? {
      var k := TenantKey(j.request, j.phase.paid);
      assert j.phase.paid != j.phase.held ==> Charge(j, k) == Due(j, k) + (j.phase.actual - j.request.worst);
    }
  }

  /** Within one month: settled actuals, plus the worst cases of everything open, parked or crashed. */
  lemma {:induction false} MonthConserved(caps: Caps, s: State, schedule: seq<Step>)
    requires Start(s)
    requires forall i :: 0 <= i < |schedule| ==> !schedule[i].Tick?
    ensures var s' := Exec(caps, s, schedule);
            forall k :: Get(s'.table, k) == Get(s.table, k) + Sum(s'.jobs, DueTo(k))
  {
    LedgerConserved(caps, s, schedule);
    NoTickNoStraddle(caps, s, schedule);
    var s' := Exec(caps, s, schedule);
    forall k
      ensures Sum(s'.jobs, ChargeTo(k)) == Sum(s'.jobs, DueTo(k))
    {
      forall i | 0 <= i < |s'.jobs|
        ensures ChargeTo(k)(s'.jobs[i]) == DueTo(k)(s'.jobs[i])
      {
        ChargeIsDue(s'.jobs[i]);
      }
      SumSame(s'.jobs, ChargeTo(k), DueTo(k));
    }
  }

  predicate AtMonth(j: Job, month: string) {
    && (!j.phase.Idle? && !j.phase.Refused? ==> j.phase.held == month)
    && (j.phase.Finished? || j.phase.HalfSettled? || j.phase.Settled? ==> j.phase.paid == month)
  }

  lemma MoveAtMonth(caps: Caps, t: Table, month: string, j: Job, step: Step)
    requires AtMonth(j, month)
    ensures AtMonth(j.(phase := JobMove(caps, t, month, j, step).phase), month)
  {
  }

  lemma {:induction false} NoTickNoStraddle(caps: Caps, s: State, schedule: seq<Step>)
    requires Start(s)
    requires forall i :: 0 <= i < |schedule| ==> !schedule[i].Tick?
    ensures Exec(caps, s, schedule).clock == s.clock
    ensures forall i :: 0 <= i < |Exec(caps, s, schedule).jobs| ==> AtMonth(Exec(caps, s, schedule).jobs[i], s.clock)
  {
    if schedule != [] {
      var step, at := schedule[|schedule| - 1], Exec(caps, s, schedule[..|schedule| - 1]);
      NoTickNoStraddle(caps, s, schedule[..|schedule| - 1]);
      if !step.Crash? && step.job < |at.jobs| {
        MoveAtMonth(caps, at.table, s.clock, at.jobs[step.job], step);
      }
    }
  }

  lemma ExecAppend(caps: Caps, s: State, schedule: seq<Step>, step: Step)
    ensures Exec(caps, s, schedule + [step]) == Take(caps, Exec(caps, s, schedule), step)
  {
    assert (schedule + [step])[..|schedule|] == schedule;
  }

  lemma StepLeavesCrashed(caps: Caps, s: State, step: Step, i: nat)
    requires i < |s.jobs| && s.jobs[i].crashed
    ensures i < |Take(caps, s, step).jobs| && Take(caps, s, step).jobs[i] == s.jobs[i]
  {
  }

  /** A crashed call is where it was, for good: what it has put on each counter stays there. */
  lemma {:induction false} CrashIsForGood(caps: Caps, s: State, schedule: seq<Step>, i: nat)
    requires i < |s.jobs|
    ensures var s' := Exec(caps, Take(caps, s, Crash(i)), schedule);
            i < |s'.jobs| && s'.jobs[i].crashed && s'.jobs[i].phase == s.jobs[i].phase
            && forall k :: Charge(s'.jobs[i], k) == Charge(s.jobs[i], k)
  {
    if schedule != [] {
      var before := schedule[..|schedule| - 1];
      CrashIsForGood(caps, s, before, i);
      ExecKeepsRequest(caps, s, before, i);
      StepLeavesCrashed(caps, Exec(caps, Take(caps, s, Crash(i)), before), schedule[|schedule| - 1], i);
    }
  }

  lemma {:induction false} ExecKeepsRequest(caps: Caps, s: State, schedule: seq<Step>, i: nat)
    requires i < |s.jobs|
    ensures var s' := Exec(caps, Take(caps, s, Crash(i)), schedule);
            i < |s'.jobs| && s'.jobs[i].request == s.jobs[i].request
  {
    if schedule != [] {
      ExecKeepsRequest(caps, s, schedule[..|schedule| - 1], i);
    }
  }

  const MAY := "2026-05"
  const JUNE := "2026-06"
  const ACME := Request("acme", 2.0, None)
  const TEN_EACH := Caps(map[], 10.0, 10.0)

  /** The books with one call of acme's in some phase. */
  function OneCall(table: Table, phase: Phase, clock: string): State {
    State(table, [Job(ACME, phase, false)], clock)
  }

  lemma ReservedInMay()
    ensures Take(TEN_EACH, Take(TEN_EACH, OneCall(map[], Idle, MAY), Begin(0)), ReserveTenant(0))
         == OneCall(map[Key("acme", MAY) := 2.0], Open(MAY), MAY)
  {
    assert Take(TEN_EACH, OneCall(map[], Idle, MAY), Begin(0)) == OneCall(map[], Begun(MAY), MAY);
  }

  lemma SettledInJune(t: Table)
    ensures Take(TEN_EACH, Take(TEN_EACH, OneCall(t, Open(MAY), JUNE), Finish(0, 1.0)), SettleTenant(0))
         == OneCall(Add(t, Key("acme", JUNE), -1.0), Settled(MAY, JUNE, 1.0), JUNE)
  {
    assert Take(TEN_EACH, OneCall(t, Open(MAY), JUNE), Finish(0, 1.0)) == OneCall(t, Finished(MAY, JUNE, 1.0), JUNE);
  }

  lemma ExecTwo(caps: Caps, s: State, before: seq<Step>, first: Step, second: Step)
    ensures Exec(caps, s, before + [first] + [second]) == Take(caps, Take(caps, Exec(caps, s, before), first), second)
  {
    ExecAppend(caps, s, before, first);
    ExecAppend(caps, s, before + [first], second);
  }

  /** The straddling call, concretely: May keeps a dollar nobody spent and June goes below zero. */
  lemma StraddlingCall()
    ensures var schedule := [Begin(0)] + [ReserveTenant(0)] + [Tick(JUNE)] + [Finish(0, 1.0)] + [SettleTenant(0)];
            var s' := Exec(TEN_EACH, OneCall(map[], Idle, MAY), schedule);
            && s'.jobs == [Job(ACME, Settled(MAY, JUNE, 1.0), false)]
            && Get(s'.table, Key("acme", MAY)) == 2.0
            && Get(s'.table, Key("acme", JUNE)) == -1.0
  {
    var s0, reserved := OneCall(map[], Idle, MAY), [Begin(0)] + [ReserveTenant(0)];
    assert [] + [Begin(0)] == [Begin(0)];
    ExecTwo(TEN_EACH, s0, [], Begin(0), ReserveTenant(0));
    ReservedInMay();
    ExecAppend(TEN_EACH, s0, reserved, Tick(JUNE));
    ExecTwo(TEN_EACH, s0, reserved + [Tick(JUNE)], Finish(0, 1.0), SettleTenant(0));
    SettledInJune(map[Key("acme", MAY) := 2.0]);
    assert MAY[6] != JUNE[6];
  }

  // ----- the cap ---------------------------------------------------------------------------

  function Overrun(r: Request, actual: real): real {
    if actual > r.worst then actual - r.worst else 0.0
  }

  /**
   * By how much a call may have lifted counter `k` past its cap: what it cost beyond its worst case,
   * and what its refund put back, when its worst case was less than nothing.
   */
  function Excess(j: Job, k: Key): real {
    match j.phase
    case Compensated(held) => On(k, TenantKey(j.request, held), Overrun(j.request, 0.0))
    case HalfSettled(_, paid, actual) => On(k, TenantKey(j.request, paid), Overrun(j.request, actual))
    case Settled(_, paid, actual) =>
      On(k, TenantKey(j.request, paid), Overrun(j.request, actual)) + OnScope(k, j.request, Overrun(j.request, actual))
    case _ => 0.0
  }

  function ExcessOn(k: Key): Job -> real {
    (j: Job) => Excess(j, k)
  }

  /** The ceiling reservations on `k` are checked against. */
  function CapOf(caps: Caps, k: Key): real {
    if IsMonth(k.period) then caps.LimitFor(k.tenant) else caps.session
  }

  ghost predicate Within(caps: Caps, s: State, k: Key) {
    Get(s.table, k) <= CapOf(caps, k) + Sum(s.jobs, ExcessOn(k))
  }

  /** A move raises a counter past its cap only by an overrun it accounts for. */
  lemma MoveWithin(caps: Caps, t: Table, clock: string, j: Job, step: Step, k: Key)
    requires JobWellFormed(j)
    ensures var m := JobMove(caps, t, clock, j, step);
            var extra := Excess(j.(phase := m.phase), k) - Excess(j, k);
            && extra >= 0.0
            && (Get(Call(t, m.call), k) <= Get(t, k) + extra || Get(Call(t, m.call), k) <= CapOf(caps, k))
  {
    if j.request.session.Some? {
      assert ("session#" + j.request.session.value)[7] == '#';
      assert !IsMonth(ScopeKey(j.request).period);
    }
  }

  lemma TakeKeepsWithin(caps: Caps, s: State, step: Step, k: Key)
    requires WellFormed(s) && Within(caps, s, k)
    ensures Within(caps, Take(caps, s, step), k)
  {
    var s' := Take(caps, s, step);
    if !step.Tick? && step.job < |s.jobs| {
      SumUpdate(s.jobs, step.job, s'.jobs[step.job], ExcessOn(k));
      if !step.Crash? {
        MoveWithin(caps, s.table, s.clock, s.jobs[step.job], step, k);
        SumNonNegative(s'.jobs, ExcessOn(k));
      }
    }
  }

  /**
   * The hard stop: in every reachable state every month's counter and every session's counter
   * is at most its cap plus what settled calls cost beyond their worst cases.
   */
  lemma {:induction false} CapBound(caps: Caps, s: State, schedule: seq<Step>, k: Key)
    requires Start(s) && Get(s.table, k) <= CapOf(caps, k)
    ensures Within(caps, Exec(caps, s, schedule), k)
  {
    if schedule == [] {
      SumZero(s.jobs, ExcessOn(k));
    } else {
      CapBound(caps, s, schedule[..|schedule| - 1], k);
      ExecWellFormed(caps, s, schedule[..|schedule| - 1]);
      TakeKeepsWithin(caps, Exec(caps, s, schedule[..|schedule| - 1]), schedule[|schedule| - 1], k);
    }
  }

  // ----- one call alone is LocalGate.Reserve and Settle ------------------------------------------

  function InPhase(s: State, i: nat, phase: Phase): State
    requires i < |s.jobs|
  {
    s.(jobs := s.jobs[i := s.jobs[i].(phase := phase)])
  }

  lemma SoloTenant(caps: Caps, s: State, i: nat)
    requires i < |s.jobs| && s.jobs[i].phase.Idle? && !s.jobs[i].crashed
    ensures var r, month := s.jobs[i].request, Key(s.jobs[i].request.tenant, s.clock);
            Take(caps, Take(caps, s, Begin(i)), ReserveTenant(i))
            == if !Fits(s.table, month, r.worst, caps.LimitFor(r.tenant)) then InPhase(s, i, Refused)
               else InPhase(s, i, if r.session.Some? then Parked(s.clock) else Open(s.clock)).(table := Add(s.table, month, r.worst))
  {
    assert Take(caps, s, Begin(i)) == InPhase(s, i, Begun(s.clock));
  }

  lemma SoloSession(caps: Caps, s: State, i: nat)
    requires i < |s.jobs| && s.jobs[i].phase.Parked? && !s.jobs[i].crashed && s.jobs[i].request.session.Some?
    ensures var r, held := s.jobs[i].request, s.jobs[i].phase.held;
            Take(caps, Take(caps, s, ReserveSession(i)), Compensate(i))
            == if Fits(s.table, ScopeKey(r), r.worst, caps.session)
               then InPhase(s, i, Open(held)).(table := Add(s.table, ScopeKey(r), r.worst))
               else InPhase(s, i, Compensated(held)).(table := Add(s.table, TenantKey(r, held), -r.worst))
  {
    var r, held := s.jobs[i].request, s.jobs[i].phase.held;
    if !Fits(s.table, ScopeKey(r), r.worst, caps.session) {
      assert Take(caps, s, ReserveSession(i)) == InPhase(s, i, Compensating(held));
    }
  }

  /**
   * The four store-call steps of one job, run without interference, are the sequential
   * reservation: admitted iff every scope fits, with the same totals.
   */
  lemma SoloReservation(caps: Caps, s: State, i: nat)
    requires i < |s.jobs| && s.jobs[i].phase.Idle? && !s.jobs[i].crashed && IsMonth(s.clock)
    ensures var r, month := s.jobs[i].request, Key(s.jobs[i].request.tenant, s.clock);
            var scope := if r.session.Some? then Some(SessionKey(r.tenant, r.session.value)) else None;
            var s' := Take(caps, Take(caps, Take(caps, Take(caps, s, Begin(i)), ReserveTenant(i)), ReserveSession(i)), Compensate(i));
            var limit := if r.tenant in caps.source then caps.source[r.tenant] else caps.fallback;
            var admitted := Fits(s.table, month, r.worst, limit) && (scope.Some? ==> Fits(s.table, scope.value, r.worst, caps.session));
            && (admitted ==> s'.jobs[i].phase == Open(s.clock) && s'.table == AddScopes(s.table, month, scope, r.worst))
            && (!admitted ==> (s'.jobs[i].phase == Refused || s'.jobs[i].phase == Compensated(s.clock)) && SameTotals(s'.table, s.table))
  {
    var r := s.jobs[i].request;
    SoloTenant(caps, s, i);
    if r.session.Some? {
      NamespacesDisjoint(r.tenant, s.clock, r.tenant, r.session.value);
      if Fits(s.table, Key(r.tenant, s.clock), r.worst, caps.LimitFor(r.tenant)) {
        SoloSession(caps, Take(caps, Take(caps, s, Begin(i)), ReserveTenant(i)), i);
      }
    }
  }

  /** And the steps of its settlement, run alone, are the sequential one, in the month the clock then shows. */
  lemma SoloSettlement(caps: Caps, s: State, i: nat, actual: real)
    requires i < |s.jobs| && s.jobs[i].phase.Open? && !s.jobs[i].crashed
    ensures var r := s.jobs[i].request;
            var scope := if r.session.Some? then Some(SessionKey(r.tenant, r.session.value)) else None;
            var s' := Take(caps, Take(caps, Take(caps, s, Finish(i, actual)), SettleTenant(i)), SettleSession(i));
            && s'.jobs[i].phase == Settled(s.jobs[i].phase.held, s.clock, actual)
            && s'.table == AddScopes(s.table, Key(r.tenant, s.clock), scope, actual - r.worst)
  {
    var s1 := Take(caps, s, Finish(i, actual));
    assert s1.jobs[i].phase == Finished(s.jobs[i].phase.held, s.clock, actual) && s1.table == s.table;
  }
}
