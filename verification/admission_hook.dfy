/**
 * The LiteLLM callback: worst-case admission before the call, and a pop-once stash that whichever
 * completion hook fires first settles or refunds. Unlike the TypeScript gate, the month travels
 * with the reservation.
 */
module AdmissionHook {
  import opened Common
  import opened Pricing
  import opened SpendStores
  import opened Sums

  const HAIKU_ID := "anthropic." + "claude-haiku" + "-4-5-20251001-v1:0"

  /** USD per million tokens, by the exact name a request carries. */
  const HOOK_PRICES: seq<(string, Price)> := [
    ("claude-haiku", Price(1.0, 5.0)),
    ("eu." + HAIKU_ID, Price(1.0, 5.0)),
    ("global." + HAIKU_ID, Price(1.0, 5.0)),
    ("amazon.nova-lite-v1:0", Price(0.06, 0.24)),
    ("amazon.nova-pro-v1:0", Price(0.8, 3.2))
  ]
  const PENDING_MAX_AGE_S: real := 3600.0

  /** By exact name or the default; there is no substring search here. */
  function HookPriceOf(model: string): Price {
    var i := FindExact(model, HOOK_PRICES);
    if i < |HOOK_PRICES| then HOOK_PRICES[i].1 else DEFAULT_PRICE
  }

  function HookPriceTokensUsd(model: string, inputTokens: real, outputTokens: real): real {
    CostAt(HookPriceOf(model), inputTokens, outputTokens)
  }

  /** Zero and absent token counts are the same to the hook; what is reported may be any number. */
  datatype Usage = Usage(promptTokens: real, inputTokens: real, completionTokens: real, outputTokens: real)

  /** OpenAI names first, Anthropic's when those are absent. */
  function ActualUsd(model: string, u: Usage): real {
    HookPriceTokensUsd(model, if u.promptTokens != 0.0 then u.promptTokens else u.inputTokens,
                       if u.completionTokens != 0.0 then u.completionTokens else u.outputTokens)
  }

  /** What a usage costs by a listed row: its prompt's and its completion's share, under whichever names they are reported. */
  lemma UsageCosts(row: nat, u: Usage)
    requires row < |HOOK_PRICES|
    ensures var (model, price) := HOOK_PRICES[row];
            var byOpenAi, byAnthropic := u.(inputTokens := 0.0, outputTokens := 0.0), u.(promptTokens := 0.0, completionTokens := 0.0);
            && 1000000.0 * ActualUsd(model, byOpenAi) == price.input * u.promptTokens + price.output * u.completionTokens
            && 1000000.0 * ActualUsd(model, byAnthropic) == price.input * u.inputTokens + price.output * u.outputTokens
  {
    ListedOnce(row);
  }

  lemma ListedOnce(row: nat)
    requires row < |HOOK_PRICES|
    ensures FindExact(HOOK_PRICES[row].0, HOOK_PRICES) == row
  {
    var first := FindExact(HOOK_PRICES[row].0, HOOK_PRICES);
    if first < row {
      FirstExact(HOOK_PRICES[row].0, HOOK_PRICES, first);
      assert false;
    }
    FirstExact(HOOK_PRICES[row].0, HOOK_PRICES, row);
  }

  datatype Config = Config(defaultCap: real, sessionCap: Option<real>)

  /** A request as the pre-call hook reads it; `maxTokens` is absent when the body names no truthy one, and may be negative. */
  datatype CallData = CallData(chatRoute: bool, model: string, inputTokens: nat, maxTokens: Option<int>, tenant: string,
                               maxBudget: Option<real>, sessionId: Option<string>, callId: Option<string>)

  datatype Reservation = Reservation(tenant: string, period: string, worst: real, sessionId: Option<string>, model: string)
  datatype Parked = Parked(res: Reservation, at: real)

  datatype Hook = Hook(table: Table, pending: map<string, Parked>)

  datatype Outcome = PassedThrough | MaxTokensRequired | BudgetExceeded | SessionBudgetExceeded | StoreFaulted | Admitted

  predicate Named(s: Option<string>) {
    s.Some? && s.value != ""
  }

  function CapFor(cfg: Config, d: CallData): real {
    if d.maxBudget.Some? && d.maxBudget.value != 0.0 then d.maxBudget.value else cfg.defaultCap
  }

  function Worst(d: CallData): real {
    HookPriceTokensUsd(d.model, d.inputTokens as real, if d.maxTokens.Some? then d.maxTokens.value as real else 0.0)
  }

  function SessionOf(cfg: Config, tenant: string, sessionId: Option<string>): Option<Key> {
    if cfg.sessionCap.Some? && Named(sessionId) then Some(SessionKey(tenant, sessionId.value)) else None
  }

  /** What another process does to a counter of the shared store: it adds, or reserves under a ceiling it checked first. */
  datatype Write = Write(key: Key, usd: real, ceiling: Option<real>)

  predicate Lands(t: Table, w: Write) {
    w.ceiling.Some? ==> w.usd <= w.ceiling.value && ConditionalAdd(t, w.key, w.usd, w.ceiling.value).total.Some?
  }

  function WriteTo(t: Table, w: Write): Table {
    if Lands(t, w) then Add(t, w.key, w.usd) else t
  }

  function WriteAll(t: Table, writes: seq<Write>): Table {
    if writes == [] then t else WriteTo(WriteAll(t, writes[..|writes| - 1]), writes[|writes| - 1])
  }

  /** Which store call of a hook throws, before it takes effect; one that is not made cannot. */
  datatype Fault = NoFault | First | Second | Third

  /**
   * One admission attempt: the request, the clocks, what other processes write between its two
   * reservations, and what the store does to it. A write before the refund of a refused session
   * commutes with the refusal.
   */
  datatype Attempt = Attempt(data: CallData, now: real, month: string, between: seq<Write>, fault: Fault) {
    function MonthKey(): Key {
      Key(data.tenant, month)
    }

    function Res(): Reservation {
      Reservation(data.tenant, month, Worst(data), data.sessionId, data.model)
    }
  }

  /** The request gets as far as holding its worst case against the month. */
  predicate HoldsMonth(cfg: Config, t: Table, x: Attempt) {
    x.data.chatRoute && x.data.maxTokens.Some? && Worst(x.data) <= CapFor(cfg, x.data) && !x.fault.First?
    && ConditionalAdd(t, x.MonthKey(), Worst(x.data), CapFor(cfg, x.data)).total.Some?
  }

  /** The store as the session's reservation finds it. */
  function Held(t: Table, x: Attempt): Table {
    WriteAll(Add(t, x.MonthKey(), Worst(x.data)), x.between)
  }

  predicate SessionFits(cfg: Config, u: Table, session: Key, worst: real)
    requires cfg.sessionCap.Some?
  {
    worst <= cfg.sessionCap.value && ConditionalAdd(u, session, worst, cfg.sessionCap.value).total.Some?
  }

  /** Behind a held month: what the attempt answers and what it leaves in the store. */
  function ReserveSession(cfg: Config, u: Table, x: Attempt): (Outcome, Table) {
    var session, worst := SessionOf(cfg, x.data.tenant, x.data.sessionId), Worst(x.data);
    if session.None? then (Admitted, u)
    else if worst <= cfg.sessionCap.value && x.fault.Second? then (StoreFaulted, u)
    else if SessionFits(cfg, u, session.value, worst) then (Admitted, Add(u, session.value, worst))
    else if x.fault.Third? then (StoreFaulted, u)
    else (SessionBudgetExceeded, Add(u, x.MonthKey(), -worst))
  }

  /** The reservation alone. */
  function ReserveScopes(cfg: Config, t: Table, x: Attempt): (Outcome, Table) {
    if !x.data.chatRoute then (PassedThrough, t)
    else if x.data.maxTokens.None? then (MaxTokensRequired, t)
    else if HoldsMonth(cfg, t, x) then ReserveSession(cfg, Held(t, x), x)
    else (if Worst(x.data) <= CapFor(cfg, x.data) && x.fault.First? then StoreFaulted else BudgetExceeded, t)
  }

  function Sweep(pending: map<string, Parked>, now: real): map<string, Parked> {
    map id | id in pending && now - pending[id].at <= PENDING_MAX_AGE_S :: pending[id]
  }

  function PreCall(cfg: Config, h: Hook, x: Attempt): Hook {
    var (outcome, table) := ReserveScopes(cfg, h.table, x);
    Hook(table, if outcome.Admitted? && Named(x.data.callId)
                then Sweep(h.pending, x.now)[x.data.callId.value := Parked(x.Res(), x.now)]
                else h.pending)
  }

  /** `usd` on the scopes a reservation was held in, in its own month, as far as the store takes it. */
  function Adjust(cfg: Config, t: Table, r: Reservation, usd: real, fault: Fault): Table {
    if fault.First? then t
    else
      var u := Add(t, Key(r.tenant, r.period), usd);
      var session := SessionOf(cfg, r.tenant, r.sessionId);
      if session.Some? && !fault.Second? then Add(u, session.value, usd) else u
  }

  /** Any completion: pops the reservation, if it is still there, and adjusts it to `final`. */
  function Complete(cfg: Config, h: Hook, callId: Option<string>, final: Reservation -> real, fault: Fault): Hook {
    if Named(callId) && callId.value in h.pending then
      var r := h.pending[callId.value].res;
      Hook(Adjust(cfg, h.table, r, final(r) - r.worst, fault), h.pending - {callId.value})
    else h
  }

  function UsageCost(u: Usage): Reservation -> real {
    (r: Reservation) => ActualUsd(r.model, u)
  }

  function NoCost(): Reservation -> real {
    (r: Reservation) => 0.0
  }

  datatype Event =
    | PreCallHook(attempt: Attempt)
    | PostCallSuccess(callId: Option<string>, usage: Usage, fault: Fault)
    | LogSuccess(callId: Option<string>, usage: Usage, fault: Fault)
    | PostCallFailure(callId: Option<string>, fault: Fault)
    | LogFailure(callId: Option<string>, fault: Fault)
    | OtherProcess(write: Write)

  function Cost(e: Event): Reservation -> real {
    if e.PostCallSuccess? || e.LogSuccess? then UsageCost(e.usage) else NoCost()
  }

  predicate IsCompletion(e: Event) {
    e.PostCallSuccess? || e.LogSuccess? || e.PostCallFailure? || e.LogFailure?
  }

  function Handle(cfg: Config, h: Hook, e: Event): Hook {
    match e
    case PreCallHook(x) => PreCall(cfg, h, x)
    case OtherProcess(w) => h.(table := WriteTo(h.table, w))
    case _ => Complete(cfg, h, e.callId, Cost(e), e.fault)
  }

  /** Whichever completion hook fires first wins, even if the store fails it; any other for the same call is a no-op. */
  lemma FirstCompletionWins(cfg: Config, h: Hook, first: Event, second: Event)
    requires IsCompletion(first) && IsCompletion(second) && first.callId == second.callId
    ensures Handle(cfg, Handle(cfg, h, first), second) == Handle(cfg, h, first)
  {
  }

  /** An admission sweeps exactly the reservations parked for more than an hour. */
  lemma SweepIsByAge(cfg: Config, h: Hook, x: Attempt, late: Event)
    requires IsCompletion(late) && Named(late.callId) && late.callId.value in h.pending
    requires ReserveScopes(cfg, h.table, x).0.Admitted? && Named(x.data.callId) && x.data.callId != late.callId
    ensures var h' := PreCall(cfg, h, x);
            && (late.callId.value in h'.pending <==> x.now - h.pending[late.callId.value].at <= 3600.0)
            && (x.now - h.pending[late.callId.value].at > 3600.0 ==> Handle(cfg, h', late) == h')
            && (x.now - h.pending[late.callId.value].at <= 3600.0 ==> Handle(cfg, h', late).pending != h'.pending)
  {
    var h' := PreCall(cfg, h, x);
    var id := late.callId.value;
    if id in h'.pending {
      assert id !in Handle(cfg, h', late).pending;
    }
  }

  // ----- the books -----------------------------------------------------------------------------

  /** Half resolved: the store failed the session's correction. */
  datatype Fate = Unresolved | HalfResolved(cost: real) | Resolved(cost: real)

  /**
   * One admitted reservation and what became of it; a month's charge nobody is parked for, after a
   * store fault; a session's refusal, whose month was refunded; or another process's write.
   */
  datatype Entry =
    | Call(res: Reservation, fate: Fate)
    | Stranded(key: Key, usd: real)
    | Returned(key: Key, usd: real)
    | Foreign(write: Write)

  /** The hook with its history: every admission ever made, and which one each parked id stands for. */
  datatype Audit = Audit(hook: Hook, ledger: seq<Entry>, owner: map<string, nat>)

  function Kept(owner: map<string, nat>, pending: map<string, Parked>): map<string, nat> {
    map id | id in owner && id in pending :: owner[id]
  }

  /** A new admission: swept ids let go of theirs, and a named call owns the new entry. */
  function Admit(a: Audit, table: Table, r: Reservation, callId: Option<string>, now: real): Audit {
    var ledger := a.ledger + [Call(r, Unresolved)];
    if Named(callId) then
      var swept := Sweep(a.hook.pending, now);
      Audit(Hook(table, swept[callId.value := Parked(r, now)]), ledger,
            Kept(a.owner, swept)[callId.value := |a.ledger|])
    else Audit(a.hook.(table := table), ledger, a.owner)
  }

  /** What a completion's corrections come to. */
  function FateOf(cfg: Config, r: Reservation, cost: real, fault: Fault): Fate {
    if fault.First? then Unresolved
    else if fault.Second? && SessionOf(cfg, r.tenant, r.sessionId).Some? then HalfResolved(cost)
    else Resolved(cost)
  }

  /** A parked reservation popped, and what became of it. */
  function Resolve(a: Audit, table: Table, id: string, fate: Fate): Audit {
    if id in a.owner && id in a.hook.pending && a.owner[id] < |a.ledger|
    then Audit(Hook(table, a.hook.pending - {id}),
               a.ledger[a.owner[id] := Call(a.hook.pending[id].res, fate)], a.owner - {id})
    else a.(hook := Hook(table, a.hook.pending - {id}))
  }

  function Note(t: Table, ledger: seq<Entry>, w: Write): seq<Entry> {
    if Lands(t, w) then ledger + [Foreign(w)] else ledger
  }

  /** Other processes' writes entered into the books, as far as they took effect. */
  function Noted(t: Table, ledger: seq<Entry>, writes: seq<Write>): (noted: seq<Entry>)
    ensures ledger <= noted
  {
    if writes == [] then ledger
    else
      var before := writes[..|writes| - 1];
      Note(WriteAll(t, before), Noted(t, ledger, before), writes[|writes| - 1])
  }

  /** The books as an attempt that holds the month leaves them before it answers. */
  function Meanwhile(cfg: Config, a: Audit, x: Attempt): seq<Entry> {
    if HoldsMonth(cfg, a.hook.table, x)
    then Noted(Add(a.hook.table, x.MonthKey(), Worst(x.data)), a.ledger, x.between)
    else a.ledger
  }

  /** What an attempt that was not admitted leaves in the books. */
  function Aftermath(cfg: Config, t: Table, x: Attempt): seq<Entry> {
    if !HoldsMonth(cfg, t, x) then []
    else if ReserveScopes(cfg, t, x).0.StoreFaulted? then [Stranded(x.MonthKey(), Worst(x.data))]
    else [Returned(x.MonthKey(), Worst(x.data))]
  }

  function AuditStep(cfg: Config, a: Audit, e: Event): Audit {
    var h := Handle(cfg, a.hook, e);
    match e
    case OtherProcess(w) => Audit(h, Note(a.hook.table, a.ledger, w), a.owner)
    case PreCallHook(x) =>
      var ledger := Meanwhile(cfg, a, x);
      if ReserveScopes(cfg, a.hook.table, x).0.Admitted?
      then Admit(a.(ledger := ledger), h.table, x.Res(), x.data.callId, x.now)
      else Audit(h, ledger + Aftermath(cfg, a.hook.table, x), a.owner)
    case _ =>
      if Named(e.callId) && e.callId.value in a.hook.pending then
        var r := a.hook.pending[e.callId.value].res;
        Resolve(a, h.table, e.callId.value, FateOf(cfg, r, Cost(e)(r), e.fault))
      else a
  }

  function AuditRun(cfg: Config, a: Audit, events: seq<Event>): Audit {
    if events == [] then a
    else AuditStep(cfg, AuditRun(cfg, a, events[..|events| - 1]), events[|events| - 1])
  }

  function Run(cfg: Config, h: Hook, events: seq<Event>): Hook {
    if events == [] then h
    else Handle(cfg, Run(cfg, h, events[..|events| - 1]), events[|events| - 1])
  }

  /** Keeping the books changes nothing the hook does. */
  lemma {:induction false} AuditIsPassive(cfg: Config, a: Audit, events: seq<Event>)
    ensures AuditRun(cfg, a, events).hook == Run(cfg, a.hook, events)
  {
    if events != [] {
      AuditIsPassive(cfg, a, events[..|events| - 1]);
    }
  }

  /** Every parked id stands for its own unresolved admission. */
  ghost predicate BooksInv(a: Audit) {
    && a.owner.Keys == a.hook.pending.Keys
    && (forall id :: id in a.owner ==> && a.owner[id] < |a.ledger|
                                       && a.ledger[a.owner[id]] == Call(a.hook.pending[id].res, Unresolved))
    && (forall id, other {:trigger a.owner[id], a.owner[other]} :: id in a.owner && other in a.owner && id != other ==> a.owner[id] != a.owner[other])
  }

  /** What an entry has put on counter `k`: its cost once corrected, its worst case until then. */
  function Charge(cfg: Config, e: Entry, k: Key): real {
    match e
    case Foreign(w) => if k == w.key then w.usd else 0.0
    case Stranded(key, usd) => if k == key then usd else 0.0
    case Returned(_, _) => 0.0
    case Call(r, fate) =>
      (if k == Key(r.tenant, r.period) then if fate.Unresolved? then r.worst else fate.cost else 0.0)
      + (if SessionOf(cfg, r.tenant, r.sessionId) == Some(k) then if fate.Resolved? then fate.cost else r.worst else 0.0)
  }

  function ChargeTo(cfg: Config, k: Key): Entry -> real {
    (e: Entry) => Charge(cfg, e, k)
  }

  ghost predicate Balanced(cfg: Config, base: Table, a: Audit) {
    forall k :: Get(a.hook.table, k) == Get(base, k) + Sum(a.ledger, ChargeTo(cfg, k))
  }

  /** From one table and its books to another a counter moves by exactly what the books do. */
  ghost predicate Balances(cfg: Config, t: Table, ledger: seq<Entry>, t': Table, ledger': seq<Entry>, k: Key) {
    Get(t', k) - Get(t, k) == Sum(ledger', ChargeTo(cfg, k)) - Sum(ledger, ChargeTo(cfg, k))
  }

  lemma NoteBalances(cfg: Config, t: Table, ledger: seq<Entry>, w: Write, k: Key)
    ensures Balances(cfg, t, ledger, WriteTo(t, w), Note(t, ledger, w), k)
  {
    SumAppend(ledger, Foreign(w), ChargeTo(cfg, k));
  }

  lemma {:induction false} NotedBalances(cfg: Config, t: Table, ledger: seq<Entry>, writes: seq<Write>, k: Key)
    ensures Balances(cfg, t, ledger, WriteAll(t, writes), Noted(t, ledger, writes), k)
  {
    if writes != [] {
      var before := writes[..|writes| - 1];
      NotedBalances(cfg, t, ledger, before, k);
      NoteBalances(cfg, WriteAll(t, before), Noted(t, ledger, before), writes[|writes| - 1], k);
    }
  }

  /** What an attempt enters into the books when it answers. */
  function Booked(cfg: Config, t: Table, x: Attempt): seq<Entry> {
    if ReserveScopes(cfg, t, x).0.Admitted? then [Call(x.Res(), Unresolved)] else Aftermath(cfg, t, x)
  }

  /** An attempt enters what other processes wrote meanwhile, and then itself. */
  lemma PreCallBooks(cfg: Config, a: Audit, x: Attempt)
    ensures var b := AuditStep(cfg, a, PreCallHook(x));
            && b.hook.table == ReserveScopes(cfg, a.hook.table, x).1
            && b.ledger == Meanwhile(cfg, a, x) + Booked(cfg, a.hook.table, x)
  {
  }

  /** Behind a held month the counters move by the entry the attempt makes, its hold included. */
  lemma AnswerCharges(cfg: Config, t: Table, x: Attempt, k: Key)
    requires HoldsMonth(cfg, t, x)
    ensures |Booked(cfg, t, x)| == 1
    ensures Get(ReserveScopes(cfg, t, x).1, k) - Get(Held(t, x), k) + (if k == x.MonthKey() then Worst(x.data) else 0.0)
         == Charge(cfg, Booked(cfg, t, x)[0], k)
  {
  }

  lemma PreCallBalances(cfg: Config, a: Audit, x: Attempt, k: Key)
    ensures var b := AuditStep(cfg, a, PreCallHook(x));
            Balances(cfg, a.hook.table, a.ledger, b.hook.table, b.ledger, k)
  {
    PreCallBooks(cfg, a, x);
    if HoldsMonth(cfg, a.hook.table, x) {
      var t := Add(a.hook.table, x.MonthKey(), Worst(x.data));
      NotedBalances(cfg, t, a.ledger, x.between, k);
      AnswerCharges(cfg, a.hook.table, x, k);
      var booked := Booked(cfg, a.hook.table, x);
      assert booked == [booked[0]];
      SumAppend(Meanwhile(cfg, a, x), booked[0], ChargeTo(cfg, k));
    } else {
      assert a.ledger + [] == a.ledger;
    }
  }

  lemma CompletionCharges(cfg: Config, t: Table, r: Reservation, cost: real, fault: Fault, k: Key)
    ensures Get(Adjust(cfg, t, r, cost - r.worst, fault), k) - Get(t, k)
              == Charge(cfg, Call(r, FateOf(cfg, r, cost, fault)), k) - Charge(cfg, Call(r, Unresolved), k)
  {
  }

  lemma SweepKeepsBooks(a: Audit, now: real)
    requires BooksInv(a)
    ensures var swept := Sweep(a.hook.pending, now);
            BooksInv(Audit(a.hook.(pending := swept), a.ledger, Kept(a.owner, swept)))
  {
  }

  lemma ParkKeepsBooks(a: Audit, table: Table, r: Reservation, id: string, now: real)
    requires BooksInv(a)
    ensures BooksInv(Audit(Hook(table, a.hook.pending[id := Parked(r, now)]), a.ledger + [Call(r, Unresolved)],
                           a.owner[id := |a.ledger|]))
  {
  }

  lemma AdmitKeepsBooks(a: Audit, table: Table, r: Reservation, callId: Option<string>, now: real)
    requires BooksInv(a)
    ensures BooksInv(Admit(a, table, r, callId, now))
  {
    if Named(callId) {
      var swept := Sweep(a.hook.pending, now);
      SweepKeepsBooks(a, now);
      ParkKeepsBooks(Audit(a.hook.(pending := swept), a.ledger, Kept(a.owner, swept)), table, r, callId.value, now);
    }
  }

  lemma ResolveKeepsBooks(a: Audit, table: Table, id: string, fate: Fate)
    requires BooksInv(a) && id in a.hook.pending
    ensures BooksInv(Resolve(a, table, id, fate))
  {
  }

  lemma LongerKeepsBooks(a: Audit, table: Table, ledger: seq<Entry>)
    requires BooksInv(a) && a.ledger <= ledger
    ensures BooksInv(Audit(a.hook.(table := table), ledger, a.owner))
  {
  }

  lemma PreCallKeepsBooks(cfg: Config, a: Audit, x: Attempt)
    requires BooksInv(a)
    ensures BooksInv(AuditStep(cfg, a, PreCallHook(x)))
  {
    var table, ledger := PreCall(cfg, a.hook, x).table, Meanwhile(cfg, a, x);
    LongerKeepsBooks(a, a.hook.table, ledger);
    if ReserveScopes(cfg, a.hook.table, x).0.Admitted? {
      AdmitKeepsBooks(a.(ledger := ledger), table, x.Res(), x.data.callId, x.now);
    } else {
      LongerKeepsBooks(a, table, ledger + Aftermath(cfg, a.hook.table, x));
    }
  }

  lemma StepKeepsBooks(cfg: Config, a: Audit, e: Event)
    requires BooksInv(a)
    ensures BooksInv(AuditStep(cfg, a, e))
  {
    match e
    case OtherProcess(w) => LongerKeepsBooks(a, WriteTo(a.hook.table, w), Note(a.hook.table, a.ledger, w));
    case PreCallHook(x) => PreCallKeepsBooks(cfg, a, x);
    case _ =>
      if Named(e.callId) && e.callId.value in a.hook.pending {
        var r := a.hook.pending[e.callId.value].res;
        ResolveKeepsBooks(a, Handle(cfg, a.hook, e).table, e.callId.value, FateOf(cfg, r, Cost(e)(r), e.fault));
      }
  }

  /** One event leaves each earlier entry alone, or resolves one that was unresolved. */
  predicate Extends(a: Entry, b: Entry) {
    a == b || (a.Call? && a.fate.Unresolved? && b.Call? && b.res == a.res)
  }

  lemma StepExtends(cfg: Config, a: Audit, e: Event, i: nat)
    requires BooksInv(a) && i < |a.ledger|
    ensures i < |AuditStep(cfg, a, e).ledger| && Extends(a.ledger[i], AuditStep(cfg, a, e).ledger[i])
  {
    if e.PreCallHook? {
      PreCallBooks(cfg, a, e.attempt);
    }
  }

  /** From `a` to `b` the call parked under `id` was popped and corrected to `cost`, as far as the store let it. */
  predicate Popped(cfg: Config, a: Audit, b: Audit, id: string, cost: real, fault: Fault) {
    id in a.hook.pending &&
    var r := a.hook.pending[id].res;
    b == Resolve(a, Adjust(cfg, a.hook.table, r, cost - r.worst, fault), id, FateOf(cfg, r, cost, fault))
  }

  lemma PoppedBalances(cfg: Config, a: Audit, b: Audit, id: string, cost: real, fault: Fault, k: Key)
    requires BooksInv(a) && Popped(cfg, a, b, id, cost, fault)
    ensures Balances(cfg, a.hook.table, a.ledger, b.hook.table, b.ledger, k)
  {
    var r := a.hook.pending[id].res;
    CompletionCharges(cfg, a.hook.table, r, cost, fault, k);
    SumUpdate(a.ledger, a.owner[id], Call(r, FateOf(cfg, r, cost, fault)), ChargeTo(cfg, k));
  }

  /** A completion of a parked call pops it, at some cost. */
  lemma CompletionPops(cfg: Config, a: Audit, e: Event) returns (cost: real)
    requires IsCompletion(e) && Named(e.callId) && e.callId.value in a.hook.pending
    ensures Popped(cfg, a, AuditStep(cfg, a, e), e.callId.value, cost, e.fault)
  {
    cost := Cost(e)(a.hook.pending[e.callId.value].res);
  }

  lemma IdleCompletion(cfg: Config, a: Audit, e: Event)
    requires IsCompletion(e) && !(Named(e.callId) && e.callId.value in a.hook.pending)
    ensures AuditStep(cfg, a, e) == a
  {
  }

  lemma StepBalancesAt(cfg: Config, a: Audit, e: Event, k: Key)
    requires BooksInv(a)
    ensures var b := AuditStep(cfg, a, e);
            Balances(cfg, a.hook.table, a.ledger, b.hook.table, b.ledger, k)
  {
    if e.OtherProcess? {
      NoteBalances(cfg, a.hook.table, a.ledger, e.write, k);
    } else if e.PreCallHook? {
      PreCallBalances(cfg, a, e.attempt, k);
    } else if Named(e.callId) && e.callId.value in a.hook.pending {
      var cost := CompletionPops(cfg, a, e);
      PoppedBalances(cfg, a, AuditStep(cfg, a, e), e.callId.value, cost, e.fault, k);
    } else {
      IdleCompletion(cfg, a, e);
    }
  }

  lemma StepBalances(cfg: Config, base: Table, a: Audit, e: Event)
    requires BooksInv(a) && Balanced(cfg, base, a)
    ensures Balanced(cfg, base, AuditStep(cfg, a, e))
  {
    forall k
      ensures Get(AuditStep(cfg, a, e).hook.table, k)
           == Get(base, k) + Sum(AuditStep(cfg, a, e).ledger, ChargeTo(cfg, k))
    {
      StepBalancesAt(cfg, a, e, k);
    }
  }

  /** The hook before its first event, with empty books. */
  function Opening(table: Table): Audit {
    Audit(Hook(table, map[]), [], map[])
  }

  /**
   * For any events, in any order and multiplicity, across month ends and store faults: every counter
   * is what it was, plus the costs of the resolved admissions in the months they were reserved in, plus
   * the worst cases of the rest, plus what other processes wrote. Call ids need not even be distinct.
   */
  lemma {:induction false} HookConserves(cfg: Config, table: Table, events: seq<Event>)
    ensures var a := AuditRun(cfg, Opening(table), events);
            a.hook == Run(cfg, Hook(table, map[]), events) && BooksInv(a) && Balanced(cfg, table, a)
  {
    var a := Opening(table);
    AuditIsPassive(cfg, a, events);
    if events != [] {
      var before := events[..|events| - 1];
      HookConserves(cfg, table, before);
      StepKeepsBooks(cfg, AuditRun(cfg, a, before), events[|events| - 1]);
      StepBalances(cfg, table, AuditRun(cfg, a, before), events[|events| - 1]);
    }
  }

  /** Over any later events an entry is resolved at most once, and its terms never change. */
  lemma {:induction false} ResolvedAtMostOnce(cfg: Config, a: Audit, events: seq<Event>, i: nat)
    requires BooksInv(a) && i < |a.ledger|
    ensures BooksInv(AuditRun(cfg, a, events)) && i < |AuditRun(cfg, a, events).ledger|
    ensures Extends(a.ledger[i], AuditRun(cfg, a, events).ledger[i])
  {
    if events != [] {
      var before := AuditRun(cfg, a, events[..|events| - 1]);
      ResolvedAtMostOnce(cfg, a, events[..|events| - 1], i);
      StepKeepsBooks(cfg, before, events[|events| - 1]);
      StepExtends(cfg, before, events[|events| - 1], i);
    }
  }

  /** No parked call stands for entry `i`: it was swept, overwritten, popped, never named, or never a call. */
  ghost predicate Unowned(a: Audit, i: nat) {
    forall id :: id in a.owner ==> a.owner[id] != i
  }

  lemma AdmitLeavesUnowned(a: Audit, table: Table, r: Reservation, callId: Option<string>, now: real, i: nat)
    requires i < |a.ledger| && Unowned(a, i)
    ensures Unowned(Admit(a, table, r, callId, now), i) && Admit(a, table, r, callId, now).ledger[i] == a.ledger[i]
  {
  }

  lemma StepLeavesUnowned(cfg: Config, a: Audit, e: Event, i: nat)
    requires BooksInv(a) && i < |a.ledger| && Unowned(a, i)
    ensures var b := AuditStep(cfg, a, e);
            i < |b.ledger| && b.ledger[i] == a.ledger[i] && Unowned(b, i)
  {
    if e.PreCallHook? {
      var x := e.attempt;
      var noted := a.(ledger := Meanwhile(cfg, a, x));
      assert Unowned(noted, i) && noted.ledger[i] == a.ledger[i];
      AdmitLeavesUnowned(noted, Handle(cfg, a.hook, e).table, x.Res(), x.data.callId, x.now, i);
    } else if IsCompletion(e) && !(Named(e.callId) && e.callId.value in a.hook.pending) {
      IdleCompletion(cfg, a, e);
    }
  }

  /** What no parked call stands for never changes again, over any events in any order. */
  lemma {:induction false} UnownedForGood(cfg: Config, a: Audit, events: seq<Event>, i: nat)
    requires BooksInv(a) && i < |a.ledger| && Unowned(a, i)
    ensures var b := AuditRun(cfg, a, events);
            BooksInv(b) && i < |b.ledger| && b.ledger[i] == a.ledger[i] && Unowned(b, i)
  {
    if events != [] {
      var before := AuditRun(cfg, a, events[..|events| - 1]);
      UnownedForGood(cfg, a, events[..|events| - 1], i);
      StepKeepsBooks(cfg, before, events[|events| - 1]);
      StepLeavesUnowned(cfg, before, events[|events| - 1], i);
    }
  }

  /** An admission lets go of the entries of the ids it sweeps, and of the id it parks under. */
  lemma SweepDisowns(cfg: Config, a: Audit, x: Attempt, id: string)
    requires BooksInv(a) && id in a.hook.pending && Named(x.data.callId) && ReserveScopes(cfg, a.hook.table, x).0.Admitted?
    requires x.now - a.hook.pending[id].at > PENDING_MAX_AGE_S || x.data.callId == Some(id)
    ensures var b := AuditStep(cfg, a, PreCallHook(x));
            a.owner[id] < |b.ledger| && b.ledger[a.owner[id]] == a.ledger[a.owner[id]] && Unowned(b, a.owner[id])
  {
    var i := a.owner[id];
    var noted := a.(ledger := Meanwhile(cfg, a, x));
    var b := Admit(noted, PreCall(cfg, a.hook, x).table, x.Res(), x.data.callId, x.now);
    assert AuditStep(cfg, a, PreCallHook(x)) == b;
    forall other | other in b.owner ensures b.owner[other] != i {
      assert other != id ==> b.owner[other] == |noted.ledger| || b.owner[other] == a.owner[other];
    }
  }

  /**
   * A reservation that an admission sweeps for its age is charged its worst case for good, whatever
   * hooks, admissions and sweeps follow, in any order and multiplicity. The same holds of one whose
   * call id is used again.
   */
  lemma SweptStaysCharged(cfg: Config, a: Audit, x: Attempt, id: string, events: seq<Event>)
    requires BooksInv(a) && id in a.hook.pending && Named(x.data.callId) && ReserveScopes(cfg, a.hook.table, x).0.Admitted?
    requires x.now - a.hook.pending[id].at > PENDING_MAX_AGE_S || x.data.callId == Some(id)
    ensures var b := AuditRun(cfg, AuditStep(cfg, a, PreCallHook(x)), events);
            a.owner[id] < |b.ledger| && b.ledger[a.owner[id]] == Call(a.hook.pending[id].res, Unresolved)
  {
    SweepDisowns(cfg, a, x, id);
    StepKeepsBooks(cfg, a, PreCallHook(x));
    UnownedForGood(cfg, AuditStep(cfg, a, PreCallHook(x)), events, a.owner[id]);
  }

  /**
   * A store fault behind a held month leaves the worst case on it for good: nothing is parked, so no
   * completion hook will ever find it.
   */
  lemma StrandedForGood(cfg: Config, a: Audit, x: Attempt, events: seq<Event>)
    requires BooksInv(a) && HoldsMonth(cfg, a.hook.table, x) && ReserveScopes(cfg, a.hook.table, x).0.StoreFaulted?
    ensures var i := |Meanwhile(cfg, a, x)|;
            var b := AuditRun(cfg, AuditStep(cfg, a, PreCallHook(x)), events);
            i < |b.ledger| && b.ledger[i] == Stranded(x.MonthKey(), Worst(x.data))
  {
    var e, i := PreCallHook(x), |Meanwhile(cfg, a, x)|;
    StepKeepsBooks(cfg, a, e);
    PreCallBooks(cfg, a, x);
    UnownedForGood(cfg, AuditStep(cfg, a, e), events, i);
  }

  /** A completion whose first correction the store fails has popped its call: it stays at its worst case for good. */
  lemma FaultedStaysCharged(cfg: Config, a: Audit, e: Event, events: seq<Event>)
    requires BooksInv(a) && IsCompletion(e) && Named(e.callId) && e.callId.value in a.hook.pending && e.fault.First?
    ensures var i := a.owner[e.callId.value];
            var b := AuditRun(cfg, AuditStep(cfg, a, e), events);
            i < |b.ledger| && b.ledger[i] == Call(a.hook.pending[e.callId.value].res, Unresolved)
  {
    StepKeepsBooks(cfg, a, e);
    UnownedForGood(cfg, AuditStep(cfg, a, e), events, a.owner[e.callId.value]);
  }

  // ----- the cap ----------------------------------------------------------------------------------

  function Positive(usd: real): real {
    if usd > 0.0 then usd else 0.0
  }

  /**
   * What may lift counter `k` past a cap: what another process adds unchecked, a cost beyond its worst
   * case, or the refund of a worst case below nothing.
   */
  function Excess(cfg: Config, e: Entry, k: Key): real {
    match e
    case Foreign(w) => if k == w.key && w.ceiling.None? then Positive(w.usd) else 0.0
    case Stranded(_, _) => 0.0
    case Returned(key, usd) => if k == key then Positive(-usd) else 0.0
    case Call(r, fate) =>
      (if k == Key(r.tenant, r.period) && !fate.Unresolved? then Positive(fate.cost - r.worst) else 0.0)
      + (if SessionOf(cfg, r.tenant, r.sessionId) == Some(k) && fate.Resolved? then Positive(fate.cost - r.worst) else 0.0)
  }

  function ExcessOn(cfg: Config, k: Key): Entry -> real {
    (e: Entry) => Excess(cfg, e, k)
  }

  ghost predicate Within(cfg: Config, t: Table, ledger: seq<Entry>, k: Key, cap: real) {
    Get(t, k) <= cap + Sum(ledger, ExcessOn(cfg, k))
  }

  /** Whoever reserves on counter `k` with this write checks it against at most `cap`. */
  predicate WriteCapped(w: Write, k: Key, cap: real) {
    w.key == k && w.ceiling.Some? ==> w.ceiling.value <= cap
  }

  predicate AttemptCapped(cfg: Config, x: Attempt, k: Key, cap: real) {
    && (k == x.MonthKey() ==> CapFor(cfg, x.data) <= cap)
    && (SessionOf(cfg, x.data.tenant, x.data.sessionId) == Some(k) ==> cfg.sessionCap.value <= cap)
    && forall i :: 0 <= i < |x.between| ==> WriteCapped(x.between[i], k, cap)
  }

  /** Every reservation on counter `k`, this hook's and any other process's, is checked against at most `cap`. */
  predicate Capped(cfg: Config, e: Event, k: Key, cap: real) {
    && (e.PreCallHook? ==> AttemptCapped(cfg, e.attempt, k, cap))
    && (e.OtherProcess? ==> WriteCapped(e.write, k, cap))
  }

  lemma NoteWithin(cfg: Config, t: Table, ledger: seq<Entry>, w: Write, k: Key, cap: real)
    requires Within(cfg, t, ledger, k, cap) && WriteCapped(w, k, cap)
    ensures Within(cfg, WriteTo(t, w), Note(t, ledger, w), k, cap)
  {
    SumAppend(ledger, Foreign(w), ExcessOn(cfg, k));
    SumNonNegative(ledger, ExcessOn(cfg, k));
  }

  lemma {:induction false} NotedWithin(cfg: Config, t: Table, ledger: seq<Entry>, writes: seq<Write>, k: Key, cap: real)
    requires Within(cfg, t, ledger, k, cap) && forall i :: 0 <= i < |writes| ==> WriteCapped(writes[i], k, cap)
    ensures Within(cfg, WriteAll(t, writes), Noted(t, ledger, writes), k, cap)
  {
    if writes != [] {
      var before := writes[..|writes| - 1];
      NotedWithin(cfg, t, ledger, before, k, cap);
      NoteWithin(cfg, WriteAll(t, before), Noted(t, ledger, before), writes[|writes| - 1], k, cap);
    }
  }

  /** The last store call stays below the cap it checks, or gives back what the month lent. */
  lemma AnswerWithin(cfg: Config, t: Table, x: Attempt, k: Key, cap: real)
    requires HoldsMonth(cfg, t, x) && AttemptCapped(cfg, x, k, cap)
    ensures |Booked(cfg, t, x)| == 1
    ensures var after := Get(ReserveScopes(cfg, t, x).1, k);
            after <= cap || after <= Get(Held(t, x), k) + Excess(cfg, Booked(cfg, t, x)[0], k)
  {
  }

  lemma HoldWithin(cfg: Config, a: Audit, x: Attempt, k: Key, cap: real)
    requires HoldsMonth(cfg, a.hook.table, x) && AttemptCapped(cfg, x, k, cap) && Within(cfg, a.hook.table, a.ledger, k, cap)
    ensures Within(cfg, Held(a.hook.table, x), Meanwhile(cfg, a, x), k, cap)
  {
    SumNonNegative(a.ledger, ExcessOn(cfg, k));
    NotedWithin(cfg, Add(a.hook.table, x.MonthKey(), Worst(x.data)), a.ledger, x.between, k, cap);
  }

  lemma PreCallWithin(cfg: Config, a: Audit, x: Attempt, k: Key, cap: real)
    requires AttemptCapped(cfg, x, k, cap) && Within(cfg, a.hook.table, a.ledger, k, cap)
    ensures var b := AuditStep(cfg, a, PreCallHook(x));
            Within(cfg, b.hook.table, b.ledger, k, cap)
  {
    PreCallBooks(cfg, a, x);
    if HoldsMonth(cfg, a.hook.table, x) {
      HoldWithin(cfg, a, x, k, cap);
      AnswerWithin(cfg, a.hook.table, x, k, cap);
      var booked := Booked(cfg, a.hook.table, x);
      assert booked == [booked[0]];
      SumAppend(Meanwhile(cfg, a, x), booked[0], ExcessOn(cfg, k));
      SumNonNegative(Meanwhile(cfg, a, x), ExcessOn(cfg, k));
    } else {
      assert a.ledger + [] == a.ledger;
    }
  }

  lemma PoppedWithin(cfg: Config, a: Audit, b: Audit, id: string, cost: real, fault: Fault, k: Key, cap: real)
    requires BooksInv(a) && Popped(cfg, a, b, id, cost, fault) && Within(cfg, a.hook.table, a.ledger, k, cap)
    ensures Within(cfg, b.hook.table, b.ledger, k, cap)
  {
    var r := a.hook.pending[id].res;
    CompletionCharges(cfg, a.hook.table, r, cost, fault, k);
    SumUpdate(a.ledger, a.owner[id], Call(r, FateOf(cfg, r, cost, fault)), ExcessOn(cfg, k));
  }

  lemma StepWithin(cfg: Config, a: Audit, e: Event, k: Key, cap: real)
    requires BooksInv(a) && Capped(cfg, e, k, cap) && Within(cfg, a.hook.table, a.ledger, k, cap)
    ensures var b := AuditStep(cfg, a, e);
            Within(cfg, b.hook.table, b.ledger, k, cap)
  {
    if e.OtherProcess? {
      NoteWithin(cfg, a.hook.table, a.ledger, e.write, k, cap);
    } else if e.PreCallHook? {
      PreCallWithin(cfg, a, e.attempt, k, cap);
    } else if Named(e.callId) && e.callId.value in a.hook.pending {
      var cost := CompletionPops(cfg, a, e);
      PoppedWithin(cfg, a, AuditStep(cfg, a, e), e.callId.value, cost, e.fault, k, cap);
    } else {
      IdleCompletion(cfg, a, e);
    }
  }

  /**
   * Over any events a counter is at most the cap its reservations are checked against, here and in any
   * number of other processes, plus what resolved calls cost beyond their worst cases, what refunds of
   * worst cases below nothing put back, and what other processes added unchecked.
   */
  lemma {:induction false} HookCapBound(cfg: Config, table: Table, events: seq<Event>, k: Key, cap: real)
    requires Get(table, k) <= cap
    requires forall i :: 0 <= i < |events| ==> Capped(cfg, events[i], k, cap)
    ensures var a := AuditRun(cfg, Opening(table), events);
            Within(cfg, a.hook.table, a.ledger, k, cap)
  {
    if events != [] {
      var before := events[..|events| - 1];
      HookCapBound(cfg, table, before, k, cap);
      HookConserves(cfg, table, before);
      StepWithin(cfg, AuditRun(cfg, Opening(table), before), events[|events| - 1], k, cap);
    }
  }

  // ----- when it is a hard stop -------------------------------------------------------------------

  /** What another process adds unchecked is a correction downwards. */
  predicate Sober(w: Write) {
    w.ceiling.None? ==> w.usd <= 0.0
  }

  /** Output caps of at least nothing, and only corrections downwards from other processes. */
  predicate SoberEvent(e: Event) {
    && (e.PreCallHook? ==> && (e.attempt.data.maxTokens.Some? ==> e.attempt.data.maxTokens.value >= 0)
                           && forall i :: 0 <= i < |e.attempt.between| ==> Sober(e.attempt.between[i]))
    && (e.OtherProcess? ==> Sober(e.write))
  }

  predicate SoberEntry(e: Entry) {
    && (e.Foreign? ==> Sober(e.write))
    && (e.Returned? ==> e.usd >= 0.0)
  }

  /** An output cap of at least nothing is priced at no less. */
  lemma WorstIsNonNegative(d: CallData)
    requires d.maxTokens.Some? ==> d.maxTokens.value >= 0
    ensures Worst(d) >= 0.0
  {
    NonNegativeCost(HookPriceOf(d.model), d.inputTokens as real, if d.maxTokens.Some? then d.maxTokens.value as real else 0.0);
  }

  ghost predicate SoberBooks(ledger: seq<Entry>) {
    forall i :: 0 <= i < |ledger| ==> SoberEntry(ledger[i])
  }

  lemma NoteSober(t: Table, ledger: seq<Entry>, w: Write)
    requires SoberBooks(ledger) && Sober(w)
    ensures SoberBooks(Note(t, ledger, w))
  {
  }

  /** Every count the usage reports lies within the request's. */
  predicate UsageWithin(d: CallData, u: Usage) {
    && d.maxTokens.Some?
    && 0.0 <= u.promptTokens <= d.inputTokens as real && 0.0 <= u.inputTokens <= d.inputTokens as real
    && 0.0 <= u.completionTokens <= d.maxTokens.value as real && 0.0 <= u.outputTokens <= d.maxTokens.value as real
  }

  /** No usage within a request's counts costs more than its worst case, for any model. */
  lemma WorstCoversUsage(d: CallData, u: Usage)
    requires UsageWithin(d, u)
    ensures 0.0 <= ActualUsd(d.model, u) <= Worst(d)
  {
    var prompt := if u.promptTokens != 0.0 then u.promptTokens else u.inputTokens;
    var completion := if u.completionTokens != 0.0 then u.completionTokens else u.outputTokens;
    NonNegativeCost(HookPriceOf(d.model), prompt, completion);
    CostGrows(HookPriceOf(d.model), prompt, completion, d.inputTokens as real, d.maxTokens.value as real);
  }

  lemma {:induction false} NotedSober(t: Table, ledger: seq<Entry>, writes: seq<Write>)
    requires SoberBooks(ledger) && forall i :: 0 <= i < |writes| ==> Sober(writes[i])
    ensures SoberBooks(Noted(t, ledger, writes))
  {
    if writes != [] {
      var before := writes[..|writes| - 1];
      NotedSober(t, ledger, before);
      NoteSober(WriteAll(t, before), Noted(t, ledger, before), writes[|writes| - 1]);
    }
  }

  lemma PreCallSober(cfg: Config, a: Audit, x: Attempt)
    requires SoberEvent(PreCallHook(x)) && SoberBooks(a.ledger)
    ensures SoberBooks(AuditStep(cfg, a, PreCallHook(x)).ledger)
  {
    PreCallBooks(cfg, a, x);
    WorstIsNonNegative(x.data);
    NotedSober(Add(a.hook.table, x.MonthKey(), Worst(x.data)), a.ledger, x.between);
  }

  lemma StepSober(cfg: Config, a: Audit, e: Event)
    requires SoberEvent(e) && SoberBooks(a.ledger)
    ensures SoberBooks(AuditStep(cfg, a, e).ledger)
  {
    if e.PreCallHook? {
      PreCallSober(cfg, a, e.attempt);
    } else if e.OtherProcess? {
      NoteSober(a.hook.table, a.ledger, e.write);
    }
  }

  lemma {:induction false} RunSober(cfg: Config, a: Audit, events: seq<Event>)
    requires SoberBooks(a.ledger) && forall i :: 0 <= i < |events| ==> SoberEvent(events[i])
    ensures SoberBooks(AuditRun(cfg, a, events).ledger)
  {
    if events != [] {
      RunSober(cfg, a, events[..|events| - 1]);
      StepSober(cfg, AuditRun(cfg, a, events[..|events| - 1]), events[|events| - 1]);
    }
  }

  /**
   * With output caps of at least nothing, and other processes that reserve under the cap and correct
   * downwards, a counter is above the cap only if a call cost more than its worst case.
   */
  lemma HookHardStop(cfg: Config, table: Table, events: seq<Event>, k: Key, cap: real)
    requires Get(table, k) <= cap
    requires forall i :: 0 <= i < |events| ==> Capped(cfg, events[i], k, cap) && SoberEvent(events[i])
    ensures var a := AuditRun(cfg, Opening(table), events);
            Get(a.hook.table, k) <= cap
            || exists i :: 0 <= i < |a.ledger| && a.ledger[i].Call? && !a.ledger[i].fate.Unresolved?
                           && a.ledger[i].fate.cost > a.ledger[i].res.worst
  {
    var a := AuditRun(cfg, Opening(table), events);
    HookCapBound(cfg, table, events, k, cap);
    RunSober(cfg, Opening(table), events);
    if forall i :: 0 <= i < |a.ledger| && a.ledger[i].Call? && !a.ledger[i].fate.Unresolved? ==> a.ledger[i].fate.cost <= a.ledger[i].res.worst {
      forall i | 0 <= i < |a.ledger| ensures ExcessOn(cfg, k)(a.ledger[i]) == 0.0 {
        assert SoberEntry(a.ledger[i]);
      }
      SumZero(a.ledger, ExcessOn(cfg, k));
    }
  }

  // ----- the callback object ----------------------------------------------------------------------

  class WorstCaseBudget {
    const store: SpendStore
    const cfg: Config
    var pending: map<string, Parked>

    constructor (store: SpendStore, cfg: Config)
      ensures this.store == store && this.cfg == cfg && pending == map[]
    {
      this.store := store;
      this.cfg := cfg;
      pending := map[];
    }

    function View(): Hook
      reads this, store
    {
      Hook(store.table, pending)
    }

    method Stash(callId: string, res: Reservation, now: real)
      modifies this
      ensures pending == Sweep(old(pending), now)[callId := Parked(res, now)]
    {
      var kept: map<string, Parked> := map[];
      var left := pending.Keys;
      while left != {}
        invariant left <= old(pending).Keys && pending == old(pending)
        invariant kept == map id | id in Sweep(old(pending), now) && id !in left :: old(pending)[id]
        decreases |left|
      {
        var id :| id in left;
        if now - pending[id].at <= PENDING_MAX_AGE_S {
          kept := kept[id := pending[id]];
        }
        left := left - {id};
      }
      pending := kept[callId := Parked(res, now)];
    }

    method Pop(callId: Option<string>) returns (res: Option<Reservation>)
      modifies this
      ensures if Named(callId) && callId.value in old(pending)
              then res == Some(old(pending)[callId.value].res) && pending == old(pending) - {callId.value}
              else res == None && pending == old(pending)
    {
      res := None;
      if callId.Some? && callId.value != "" && callId.value in pending {
        res := Some(pending[callId.value].res);
        pending := pending - {callId.value};
      }
    }

    /** What other processes do to the shared store, in order. */
    method OthersWrite(writes: seq<Write>)
      modifies store
      ensures store.table == WriteAll(old(store.table), writes)
    {
      for i := 0 to |writes|
        invariant store.table == WriteAll(old(store.table), writes[..i])
      {
        assert writes[..i + 1][..i] == writes[..i];
        var w := writes[i];
        if w.ceiling.None? {
          var _ := store.AddSpend(w.key, w.usd);
        } else if w.usd <= w.ceiling.value {
          var _ := store.Reserve(w.key, w.usd, w.ceiling.value);
        }
      }
      assert writes[..|writes|] == writes;
    }

    /** The session's share of an admission, over a month already held. */
    method AdmitToSession(x: Attempt) returns (outcome: Outcome)
      modifies store
      ensures (outcome, store.table) == ReserveSession(cfg, old(store.table), x)
    {
      var worst := Worst(x.data);
      if cfg.sessionCap.Some? && x.data.sessionId.Some? && x.data.sessionId.value != "" {
        var session := SessionKey(x.data.tenant, x.data.sessionId.value);
        var fits := worst <= cfg.sessionCap.value;
        if fits {
          if x.fault.Second? {
            return StoreFaulted;
          }
          var total := store.Reserve(session, worst, cfg.sessionCap.value);
          fits := total.Some?;
        }
        if !fits {
          if x.fault.Third? {
            return StoreFaulted;
          }
          var _ := store.AddSpend(x.MonthKey(), -worst);
          return SessionBudgetExceeded;
        }
      }
      outcome := Admitted;
    }

    /**
     * Answers and charges as `ReserveScopes` says, whatever other processes write between the two
     * reservations and wherever the store throws; an admitted, named call is parked.
     */
    method PreCallHook(x: Attempt) returns (outcome: Outcome)
      modifies this, store
      ensures x.data.chatRoute && x.data.maxTokens.Some? && outcome.Admitted? ==>
                var worst := HookPriceTokensUsd(x.data.model, x.data.inputTokens as real, x.data.maxTokens.value as real);
                Get(old(store.table), Key(x.data.tenant, x.month)) + worst
                <= if x.data.maxBudget.Some? && x.data.maxBudget.value != 0.0 then x.data.maxBudget.value else cfg.defaultCap
      ensures outcome == ReserveScopes(cfg, old(store.table), x).0
      ensures View() == Handle(cfg, old(View()), Event.PreCallHook(x))
    {
      if !x.data.chatRoute {
        return PassedThrough;
      }
      if x.data.maxTokens.None? {
        return MaxTokensRequired;
      }
      var worst := HookPriceTokensUsd(x.data.model, x.data.inputTokens as real, x.data.maxTokens.value as real);
      var cap := if x.data.maxBudget.None? || x.data.maxBudget.value == 0.0 then cfg.defaultCap else x.data.maxBudget.value;
      if worst > cap {
        return BudgetExceeded;
      }
      if x.fault.First? {
        return StoreFaulted;
      }
      var total := store.Reserve(x.MonthKey(), worst, cap);
      if total.None? {
        return BudgetExceeded;
      }
      OthersWrite(x.between);
      outcome := AdmitToSession(x);
      if outcome.Admitted? && x.data.callId.Some? && x.data.callId.value != "" {
        Stash(x.data.callId.value, x.Res(), x.now);
      }
    }

    /** Moves the reservation's scopes from its worst case to `cost`, in its own month, as far as the store lets it. */
    method Settle(res: Reservation, cost: real, fault: Fault)
      modifies store
      ensures store.table == Adjust(cfg, old(store.table), res, cost - res.worst, fault)
    {
      if fault.First? {
        return;
      }
      var _ := store.AddSpend(Key(res.tenant, res.period), cost - res.worst);
      if cfg.sessionCap.Some? && res.sessionId.Some? && res.sessionId.value != "" && !fault.Second? {
        var _ := store.AddSpend(SessionKey(res.tenant, res.sessionId.value), cost - res.worst);
      }
    }

    /** The body all four completion hooks share: pop, then settle to usage or refund. */
    method CompletionHook(e: Event)
      requires IsCompletion(e)
      modifies this, store
      ensures View() == Handle(cfg, old(View()), e)
    {
      var res := Pop(e.callId);
      if res.Some? {
        var cost := 0.0;
        if e.PostCallSuccess? || e.LogSuccess? {
          var prompt := if e.usage.promptTokens == 0.0 then e.usage.inputTokens else e.usage.promptTokens;
          var completion := if e.usage.completionTokens == 0.0 then e.usage.outputTokens else e.usage.completionTokens;
          cost := HookPriceTokensUsd(res.value.model, prompt, completion);
        }
        Settle(res.value, cost, e.fault);
      }
    }
  }
}
