# Proofs about the agent runtime

The runtime lets agents spend money, write run records, push code and call models on behalf of
tenants. This project models the parts of it that have to be right under concurrency, failure and
arbitrary model behaviour, and proves what they promise.

* **The worst-case ledger.** A model call reserves its worst case against a tenant's month (and a
  session), runs, and is settled to its actual cost. `spend_stores.dfy` has the counters and their
  four backends, `local_gate.dfy` the two-scope gate, `ledger.dfy` any number of calls interleaved at
  every store call, with crashes and month ends anywhere, and `hard_stop.dfy` says when its cap is a hard
  stop. `pricing.dfy` and `price_tables.dfy` are the price tables, `numbers.dfy` the gate on prices and
  caps that are no finite number, `admission_inference.dfy`, `messages.dfy` and `admission_hook.dfy` the
  three callers that settle.
* **The optimistic counter.** `cas_store.dfy`: processes interleaved at every read and every
  preconditioned write of one Firestore document.
* **Run records.** `run_store.dfy`: the promise chain that serialises whole-document rewrites;
  `run_quota.dfy`: the run quota at the front door.
* **The agent loop.** `agent_loop.dfy` and `transcript.dfy`, the loop detector with its canonical JSON
  (`json_text.dfy`, with a reader of its own in `json_reader.dfy`, `canonical_json.dfy`, `loop_detector.dfy`), and two provider wires
  (`translations.dfy`).
* **The coder workspace** (`coder_workspace.dfy`, over the text round trip of `utf8.dfy`), **claims** (`claims.dfy`,
  `claims_controller.dfy`), **batched file writes** (`chunker.dfy`) and **the push policy**
  (`pkt_line.dfy`, after gitprotocol-common, "pkt-line Format").

Concurrent protocols are state machines with a total `Exec(state, schedule)`: a step that is not
enabled changes nothing, so a lemma about `Exec` over all schedules is about every reachable state.
Code that works by mutation is a class or a method proved against a specification; the lemmas are
about that specification. Whatever lies outside — models, tools, guards, clocks, servers that refuse
a write — is a parameter, and every statement is for all its values. Money is exact (`real`).

Where the code does not do what its comments or its purpose say, the model follows the code, and the
statement is the exact condition under which the promise holds, with an input where it does not:

* `LocalGate.settle` reads the clock again, so its "same scopes" are the same only within one month
  (`ChargeIsDue`, `SettlementAcrossMonths`, `StraddlingCall`). The Python hook carries the month along
  and conserves across month ends (`HookConserves`).
* A clone that nobody touched pushes nothing exactly when every text file it materialized is
  well-formed UTF-8: any other is rewritten by the clone itself (`UntouchedClone`, `LatinIsPushed`).
* Finalize's decision about a baseline path is right exactly when the listing's id for it does not
  hide a change (`DecisionRight`, `HiddenChange`), and whether it refuses a mass deletion can depend on
  the listing (`RefusalDependsOnListing`).
* "One document per (tenant, period)" holds of tenants without a `#` and names without a slash;
  otherwise two counters can share a Firestore document (`DocumentsShared`, `SharedDocument`).
* The cap is a hard stop for output caps of at least zero (`NonNegativeNeverOverdraws`, `HookHardStop`). All
  three entrances accept a negative one. Its worst case is below zero, lowers the counter while it is
  held, and is given back on top of whatever was admitted meanwhile. `CapIsHardStop` says exactly for which
  requests no schedule can pass a cap; `OverdrawnMonth` is a month at three times its cap.
* A model called like a name every JavaScript object inherits ("constructor") has no price at the runtime.
  Over the in-memory store such a call, and one with an infinitely negative output cap, is admitted past
  any cap and leaves a month that refuses nothing any more; no other call does (`NoMoreHardStop`,
  `BottomlessCall`).
* The hook's price table is no full mirror of the runtime's: they differ exactly on the names that the hook
  does not list and that hold a key of the runtime's table or are inherited (`TablesAgree`, `SonnetDiffers`,
  `ConstructorDiffers`).
* A store fault behind the hook's first reservation, or at a settlement, leaves the worst case charged with
  nothing parked to correct it (`StrandedForGood`, `FaultedStaysCharged`).
* The message handler's comment says that a stream the client leaves keeps its worst case. When it reported
  output usage before, sending the next event throws, and it is settled to that usage: `Relay` takes such
  a stream as a faulted one.
* A finished run can still read "failed": the engine writes that over it when its own reading back of the
  record throws (`TerminalStatusSticks`).
* The claims controller's comment speaks of the "default" allowance; the code takes the last one listed
  for the namespace.

The `SpendStore` port asks callers to check a delta against the ceiling first. `ReserveKeepsPromise`
says exactly where that matters, and every caller does. Tool signatures need no restriction on
tool names: a colon in a name cannot be taken for the separator (`SignatureDecides`).

## Model

| member | source | states |
|---|---|---|
| `SpendStores.ReserveKeepsPromise` | packages/core/src/gate.ts:177-183 | A backend's reserve is the port's conditional add exactly when the delta was pre-checked, the counter exists, or the backend checks first writes too |
| `SpendStores.BackendsEquivalent` | packages/core/src/adapters/dynamo-spend-store.ts:58-75 | Over any pre-checked run of operations every two backends give the same answers and the same totals |
| `SpendStores.LastAnswer` | packages/core/src/gate.ts:171-183 | What an operation answers is what its counter stands at afterwards, unless it was refused |
| `SpendStores.SpendStore.Reserve` | packages/core/src/adapters/postgres-spend-store.ts:61-70 | Adds iff the new total stays within the ceiling, on whichever backend, and otherwise changes nothing |
| `SpendStores.SpendStore.AddSpend` | packages/core/src/adapters/postgres-spend-store.ts:47-56 | The unconditional add: the new table, and its total as the answer |
| `SpendStores.SpendStore.Read` | packages/core/src/adapters/postgres-spend-store.ts:41-45 | A missing counter reads as zero |
| `SpendStores.NamespacesDisjoint` | packages/core/src/adapters/local-gate.ts:49-53 | Month, session and run counters never share a key |
| `SpendStores.DocumentsShared` | packages/core/src/adapters/firestore-spend-store.ts:55-59 | Two counters share a Firestore document exactly when tenant and period agree up to replaced slashes, or one tenant is the other, a `#`, and the beginning of the other's period |
| `SpendStores.DocumentsApart` | packages/core/src/adapters/firestore-spend-store.ts:55-59 | With no `#` in tenants and no slash anywhere, different counters have different documents |
| `SpendStores.SlashlessAt` | packages/core/src/adapters/firestore-spend-store.ts:57-59 | A document id is its key with every slash, and nothing else, replaced by an underscore |
| `SpendStores.SharedDocument` | packages/core/src/adapters/firestore-spend-store.ts:57-59 | A session's counter and another tenant's month in one document |
| `LocalGates.LocalGate.Reserve` | packages/core/src/adapters/local-gate.ts:91-120 | Admits iff the month has room and, when a cap is configured and the id is not empty, the session has; then moves exactly those counters by the worst case; a refusal moves none and reports the scope that refused |
| `LocalGates.LocalGate.Settle` | packages/core/src/adapters/local-gate.ts:122-126 | Moves the month the clock shows now by the delta, and the session's counter exactly when a cap is configured and the id is not empty |
| `LocalGates.LocalGate.ReserveRun` | packages/core/src/adapters/local-gate.ts:55-67 | Takes one run of the month's quota iff one is left, or the quota is off |
| `LocalGates.LocalGate.RefundRun` | packages/core/src/adapters/local-gate.ts:69-72 | Gives one run back, when the quota is on |
| `LocalGates.LocalGate.CheckQuota` | packages/core/src/adapters/local-gate.ts:74-79 | Reports what is used and what is left, which is nothing once the quota is reached or passed |
| `LocalGates.SettlementNets` | packages/core/src/gate.ts:90-92 | In one month a reservation settled to the actual cost leaves each scope that cost, and a refunded one leaves no trace |
| `LocalGates.SettlementAcrossMonths` | packages/core/src/adapters/local-gate.ts:122-124 | Across a month's end the reserved month nets to the actual cost iff the actual cost was the worst case |
| `Ledger.CapBound` | packages/core/src/adapters/local-gate.ts:99-126 | In every reachable state of every interleaving, for worst cases of either sign, each month's and each session's counter is at most its cap plus what settled calls cost beyond their worst cases and what refunds of worst cases below zero put back |
| `HardStop.CapIsHardStop` | packages/core/src/adapters/local-gate.ts:99-126 | For every start and every schedule on which calls cost at most their worst cases, no counter passes its cap: exactly when no request with a worst case below zero could be admitted to all its scopes, or be refused by its session while another request of its tenant takes what it lent |
| `HardStop.CapNeverExceeded` | packages/core/src/adapters/local-gate.ts:99-120 | One half of that, counter by counter |
| `HardStop.NonNegativeNeverOverdraws` | services/inference-gateway/messages.ts:58-59 | Requests with worst cases of at least zero are among those |
| `HardStop.ComesBackLater` | packages/core/src/adapters/local-gate.ts:122-126 | An admitted worst case below zero can come back onto the next month, which is full already |
| `HardStop.ComesBackTaken` | packages/core/src/adapters/local-gate.ts:109-116 | What a refused session's request lent its month can be taken before the refund gives it back |
| `HardStop.OverdrawnMonth` | services/inference-gateway/generate.ts:41-43 | Under a cap of 5 a request with a worst case of -10 and three of 5 are all admitted, the first one's call fails, and the month stands at 15 |
| `Ledger.LedgerConserved` | packages/core/src/adapters/admission-inference.ts:34-53 | At every step, across crashes and month ends, for worst cases of either sign, each counter is its start plus what the calls have put on it |
| `Ledger.MonthConserved` | packages/core/src/adapters/local-gate.ts:122-126 | Within one month each counter is its start plus settled actuals plus the worst cases of open, parked and crashed calls |
| `Ledger.CrashIsForGood` | packages/core/src/adapters/admission-inference.ts:34-53 | A crashed call never moves again, and what it put on each counter stays there |
| `Ledger.ChargeIsDue` | packages/core/src/adapters/local-gate.ts:122-125 | A call's books are right on every counter iff it is unsettled, or settled in its own month, or cost its worst case |
| `Ledger.StraddlingCall` | packages/core/src/adapters/local-gate.ts:123-124 | A concrete call over a month's end: one month keeps money nobody spent, the next goes negative |
| `Ledger.SoloReservation` | packages/core/src/adapters/local-gate.ts:105-118 | The interleaved steps of one call, run alone, are the sequential reservation |
| `Ledger.SoloSettlement` | packages/core/src/adapters/local-gate.ts:122-126 | The interleaved steps of one settlement, run alone, are the sequential settlement |
| `Pricing.FirstExact` | packages/core/src/gate.ts:236-242 | An exact model id is priced by the first row with that key |
| `Pricing.FirstIncluded` | packages/core/src/gate.ts:238-240 | Otherwise the first row whose key occurs in the id is taken |
| `Pricing.IncludesAnywhere` | packages/core/src/gate.ts:239 | A key occurs in an id exactly when the id is something, the key, and something |
| `Pricing.MillionTokens` | packages/core/src/gate.ts:242 | A million tokens of either kind cost what the row lists, and costs add up |
| `Pricing.WorstCaseIsWorst` | packages/core/src/gate.ts:233-242 | For every prompt no token split within the estimate and the output cap costs more than the worst case, or less than nothing: exactly when the model has a price and the output cap is at least zero, infinite ones included |
| `PriceTables.TablesAgree` | services/inference-gateway/litellm/admission_hook.py:42-60 | The hook and the runtime price a model alike exactly when the hook lists it, or no row of the runtime's table occurs in its name and no object inherits it |
| `PriceTables.PriceList` | packages/core/src/gate.ts:220-229 | What each listed model costs |
| `PriceTables.UnlistedPrice` | packages/core/src/gate.ts:230-242 | Every other model that is not inherited has the default price |
| `PriceTables.SonnetDiffers` | services/inference-gateway/litellm/admission_hook.py:59-60 | A model the runtime prices by its row and the hook by its default |
| `PriceTables.ConstructorDiffers` | packages/core/src/gate.ts:236-241 | A model that has no price at the runtime and the default at the hook |
| `Numbers.InMemorySpendStore.AddSpend` | packages/core/src/gate.ts:202-206 | The in-memory addition, on any numbers |
| `Numbers.InMemorySpendStore.Reserve` | packages/core/src/gate.ts:207-213 | The in-memory reservation, on any numbers: refused iff the sum compares above the ceiling |
| `Numbers.InMemorySpendStore.ReserveScopes` | packages/core/src/adapters/local-gate.ts:99-120 | The gate's reservation over that store |
| `Numbers.PricedReservation` | packages/core/src/adapters/local-gate.ts:99-120 | On finite amounts that is the reservation of `LocalGate.Reserve`: the same answer and the same totals |
| `Numbers.BottomlessReservation` | packages/core/src/adapters/local-gate.ts:105-117 | A worst case that is no number, or minus infinity, is admitted whatever is spent, and makes its counters such |
| `Numbers.RefusesNothing` | packages/core/src/gate.ts:209-210 | A counter refuses no amount under any ceiling exactly when it is no number or minus infinity |
| `Numbers.NoMoreHardStop` | packages/core/src/gate.ts:202-213 | After any store calls a counter refuses nothing exactly when it did before, or one of them took such an amount to it |
| `Numbers.BottomlessCall` | packages/core/src/gate.ts:236-242 | A call makes its month refuse nothing, for good, exactly when its model has no price or its output cap is minus infinity |
| `Numbers.InheritedModel` | packages/core/src/gate.ts:236-242 | A month at its cap admits a call to "constructor" |
| `AdmissionInference.AdmissionInferenceProvider.Generate` | packages/core/src/adapters/admission-inference.ts:34-53 | For any price and any finite output cap: refuses before the call iff a scope has no room; else charges the worst case and corrects it to the actual cost, to nothing on a fault, or not at all if the settlement is lost |
| `AdmissionInference.SettledInItsMonth` | packages/core/src/adapters/admission-inference.ts:50-52 | A call that returns in its month leaves every scope its actual cost and moves no other counter |
| `CasStore.CasRefinesAtomic` | packages/core/src/adapters/firestore-spend-store.ts:91-114 | Every interleaving of any number of retry loops is a sequence of atomic conditional adds with the same answers and total |
| `CasStore.PortAdds` | packages/core/src/adapters/firestore-spend-store.ts:94-95 | That atomic add is the port's: refused exactly above the ceiling, else the sum |
| `CasStore.StaysUnderCeiling` | packages/core/src/adapters/firestore-spend-store.ts:91-107 | Over every schedule, a call with a ceiling that returned a total returned one within it |
| `CasStore.NullOnlyAboveCeiling` | packages/core/src/adapters/firestore-spend-store.ts:94-95 | A call is answered null exactly by a read of a total its delta would take above the ceiling |
| `CasStore.NoLostUpdate` | packages/core/src/adapters/firestore-spend-store.ts:96-107 | The total is its start plus the deltas of exactly the calls that returned a total |
| `CasStore.ExhaustionNeedsEightForeignCommits` | packages/core/src/adapters/firestore-spend-store.ts:108-113 | A call gives up only after at least eight commits by others since it began |
| `CasStore.SpendDocument.CasAdd` | packages/core/src/adapters/firestore-spend-store.ts:91-114 | The loop commits at the first attempt nobody overtook, refuses at the first read that breaches, and gives up only after losing all eight |
| `CasStore.AttemptReads` | packages/core/src/adapters/firestore-spend-store.ts:93-95 | An attempt's read, in the machine: a breach ends the call without a write |
| `CasStore.AttemptWrites` | packages/core/src/adapters/firestore-spend-store.ts:96-113 | An attempt's PATCH commits exactly when nobody overtook its read, and otherwise retries, or gives up after the eighth |
| `CasStore.SoloCall` | packages/core/src/adapters/firestore-spend-store.ts:91-114 | A call that runs alone is one atomic conditional add |
| `AdmissionHook.FirstCompletionWins` | services/inference-gateway/litellm/admission_hook.py:343-386 | After one completion hook for a call id, any second one changes nothing |
| `AdmissionHook.StrandedForGood` | services/inference-gateway/litellm/admission_hook.py:303-312 | A store fault at the session's reservation or at the refund leaves the worst case on the month after any further events |
| `AdmissionHook.FaultedStaysCharged` | services/inference-gateway/litellm/admission_hook.py:324-341 | A completion whose first correction the store fails has popped its call, which is charged its worst case after any further events |
| `AdmissionHook.SweptStaysCharged` | services/inference-gateway/litellm/admission_hook.py:251-257 | A reservation swept for its age, or displaced by a reused call id, is charged its worst case after any further events, in any order and multiplicity |
| `AdmissionHook.SweepIsByAge` | services/inference-gateway/litellm/admission_hook.py:251-257 | An admission sweeps exactly the reservations parked for more than an hour; a completion of one is then a no-op, and of any other is not |
| `AdmissionHook.UnownedForGood` | services/inference-gateway/litellm/admission_hook.py:251-261 | An entry of the books that no parked call stands for never changes again |
| `AdmissionHook.AuditIsPassive` | services/inference-gateway/litellm/admission_hook.py:278-386 | The bookkeeping the next two rows speak of does not influence the hook |
| `AdmissionHook.HookConserves` | services/inference-gateway/litellm/admission_hook.py:278-386 | For every order of admissions, completions and sweeps, with a store fault at any store call and other processes' additions and reservations between them and between an admission's two reservations, each counter is its start plus resolved costs plus unresolved worst cases plus what those processes put on it, in the month each call was reserved in |
| `AdmissionHook.HookCapBound` | services/inference-gateway/litellm/admission_hook.py:278-341 | Over any events, with any number of other processes that reserve under the cap, a counter is at most that cap plus costs beyond worst cases, refunds of worst cases below zero, and what other processes added unchecked |
| `AdmissionHook.HookHardStop` | services/inference-gateway/litellm/admission_hook.py:287-300 | With output caps of at least zero, and other processes that reserve under the cap and correct downwards, a counter is above the cap only if some call cost more than its worst case |
| `AdmissionHook.WorstCoversUsage` | services/inference-gateway/litellm/admission_hook.py:291 | For every model, no usage within the request's prompt estimate and output cap costs more than its worst case |
| `AdmissionHook.UsageCosts` | services/inference-gateway/litellm/admission_hook.py:324-331 | A usage costs its prompt's and its completion's share of the listed row, under OpenAI's names or Anthropic's |
| `AdmissionHook.ResolvedAtMostOnce` | services/inference-gateway/litellm/admission_hook.py:259-261 | Once resolved, a call's entry never changes again |
| `AdmissionHook.WorstCaseBudget.Stash` | services/inference-gateway/litellm/admission_hook.py:251-257 | Drops exactly the entries past the age limit, then parks this one |
| `AdmissionHook.WorstCaseBudget.Pop` | services/inference-gateway/litellm/admission_hook.py:259-261 | Takes the entry out, if the id names one |
| `AdmissionHook.WorstCaseBudget.PreCallHook` | services/inference-gateway/litellm/admission_hook.py:278-322 | The admission of one call, for output caps of either sign, with any writes of other processes between its reservations and a fault at any store call: outcome, counters and stash are those of the event model |
| `AdmissionHook.WorstCaseBudget.AdmitToSession` | services/inference-gateway/litellm/admission_hook.py:306-312 | The session's share of it: admitted, refused with the month refunded, or stranded by a fault |
| `AdmissionHook.WorstCaseBudget.Settle` | services/inference-gateway/litellm/admission_hook.py:324-341 | Corrects the reserved month, and the session when it is on, to the given cost, up to the store call that fails |
| `AdmissionHook.WorstCaseBudget.CompletionHook` | services/inference-gateway/litellm/admission_hook.py:353-386 | Each of the four completion hooks is a completion event of the event model |
| `MessagesApi.PopOnce.SettleOnce` | services/inference-gateway/messages.ts:77-85 | The first settlement reaches the gate, any later one does nothing |
| `MessagesApi.PopOnce.SettleToUsage` | services/inference-gateway/messages.ts:117-121 | Settles to reported usage; with no output usage the reservation stays spent |
| `MessagesApi.PopOnce.Relay` | services/inference-gateway/messages.ts:123-148 | However the stream stops, it settles at most once, to the price of the last usage reported |
| `MessagesApi.PopOnce.Serve` | services/inference-gateway/messages.ts:89-148 | Behind an admitted request: the reply, and one settlement at most, to the final cost |
| `MessagesApi.AdmitAndServe` | services/inference-gateway/messages.ts:74-153 | The request once its worst case is priced, for any worst case |
| `MessagesApi.HandleMessages` | services/inference-gateway/messages.ts:70-153 | For any price and any finite `max_tokens`, negative and fractional ones included: refused iff a scope has no room; admitted, at most one settlement, whose amount is the price of the last usage, zero for failures before the stream opens, and none when nothing was reported or the body cannot be translated |
| `MessagesApi.FinalChargeIsExact` | services/inference-gateway/messages.ts:77-121 | What `HandleMessages` leaves in the store in one month is exactly the final cost on each scope, session on or off, unless the store refuses the settlement |
| `MessagesApi.PlainReplyCharge` | services/inference-gateway/messages.ts:98-99 | A plain reply is charged its input and its output tokens at their prices, a missing count being zero |
| `MessagesApi.StreamCharge` | services/inference-gateway/messages.ts:117-141 | A stream that is not abandoned is charged the last counts it reported |
| `RunStore.MutualExclusion` | packages/core/src/adapters/firestore-run-store.ts:43-57 | At most one mutation is between its first await and its settlement |
| `RunStore.SerialisedIsAtomic` | packages/core/src/adapters/firestore-run-store.ts:110-126 | The documents are the fold of the successful mutations in enqueue order, for every suspension and failure |
| `RunStore.NeverBlocked` | packages/core/src/adapters/firestore-run-store.ts:48-57 | The first unsettled mutation can always take its next step, whatever failed before it |
| `RunStore.LaterWriterWins` | packages/core/src/adapters/firestore-run-store.ts:110-126 | A patched field keeps its value until a later-enqueued mutation writes that field |
| `RunStore.ReplayLocal` | packages/core/src/adapters/firestore-run-store.ts:110-126 | A record is the fold of its own mutations, whatever happens to the others |
| `RunStore.TerminalStatusSticks` | services/agent-runtime/process-run.ts:84-116 | Once a run's last terminal write is accepted, be it the result or the failure written in its stead, no progress write or note of that run reverts its status, among any other runs' mutations; only an accepted failure that the engine caught after it replaces it |
| `RunStore.UnserialisedReverts` | packages/core/src/adapters/firestore-run-store.ts:43-46 | Without the chain, a progress write that read first and lands last puts a finished run back to running |
| `RunStore.FirestoreRunStore.Serialize` | packages/core/src/adapters/firestore-run-store.ts:50-57 | Enqueues behind everything enqueued before |
| `RunStore.FirestoreRunStore.ExecuteCreate` | packages/core/src/adapters/firestore-run-store.ts:90-99 | A create, from start to settlement, is those steps of the machine |
| `RunStore.FirestoreRunStore.ExecuteUpdate` | packages/core/src/adapters/firestore-run-store.ts:110-126 | An update, from start to settlement, is those steps of the machine |
| `RunQuota.QuotaBound` | services/agent-runtime/router.ts:53-76 | Over every interleaving of admissions the counter is exactly the admissions counted, at least the runs created, and never above the quota |
| `RunQuota.SoloAdmission` | services/agent-runtime/router.ts:53-75 | One admission's steps, run alone, take a slot exactly when one is left, and keep it if the record cannot be written |
| `RunQuota.FrontDoor.AuthorizeAndCreate` | services/agent-runtime/router.ts:16-78 | Which denial, in which order: 400, 401, 403, 404, then 429 or 402; a slot is taken exactly when a claude-code run is admitted, and a run is created exactly when nothing denies it and the write succeeds |
| `JsonText.StringRoundTrip` | services/claude-code-runner/loop-detector.ts:22-25 | A printed string reads back as itself, whatever text follows, lone surrogates included (section 7 of RFC 8259) |
| `JsonText.EscapeIsClean` | services/claude-code-runner/loop-detector.ts:22-25 | No string is printed with a control character or a lone surrogate in it |
| `JsonText.NoNeedlessEscape` | services/claude-code-runner/loop-detector.ts:22-25 | A string that needs no escapes is printed as it is |
| `JsonReader.StringifyReads` | packages/core/src/adapters/openai-gateway-inference.ts:84 | A reader of JSON (RFC 8259) written apart from the printer gives every value back, and nothing is left over |
| `JsonReader.ReadBack` | packages/core/src/adapters/openai-gateway-inference.ts:84 | And so it does wherever a value can stand |
| `JsonReader.SpaceIsSkipped` | packages/core/src/adapters/openai-gateway-inference.ts:84 | The reader skips exactly the four white space characters of RFC 8259, section 2 |
| `JsonReader.WholeNumbers` | packages/core/src/adapters/openai-gateway-inference.ts:84 | It takes whole numbers with an optional minus and no leading zero (section 6) |
| `JsonReader.Fractions` | packages/core/src/adapters/openai-gateway-inference.ts:84 | And a fraction after them |
| `JsonReader.Exponents` | packages/core/src/adapters/openai-gateway-inference.ts:84 | And an exponent after either |
| `JsonText.Unambiguous` | services/claude-code-runner/loop-detector.ts:21-26 | Equal texts in any context a value can stand in are texts of the same value followed by the same thing |
| `JsonText.StringifyInjective` | packages/core/src/loop.ts:109-112 | Two JSON values with one text are one value |
| `CanonicalJson.SortDecides` | services/claude-code-runner/loop-detector.ts:24-25 | Sorting by key gives the same list exactly for the same set of fields |
| `CanonicalJson.StableIsCanonical` | services/claude-code-runner/loop-detector.ts:21-26 | The stable text is the plain text of the value with its keys in order |
| `CanonicalJson.StableTextDecides` | services/claude-code-runner/loop-detector.ts:15-26 | Stable texts are equal exactly for values equal up to the order of object keys |
| `LoopDetectors.NoColonSuffix` | services/claude-code-runner/loop-detector.ts:17-19 | No value's text ends in a colon and another value's text |
| `LoopDetectors.SignatureDecides` | services/claude-code-runner/loop-detector.ts:15-19 | Signatures are equal exactly when the names are and the inputs are up to key order, for all names |
| `LoopDetectors.LoopDetector.Record` | services/claude-code-runner/loop-detector.ts:37-51 | Reports the length of the current streak from the threshold on, and not before |
| `LoopDetectors.NewLoopDetector` | services/claude-code-runner/loop-detector.ts:33-35 | A threshold below two is refused |
| `LoopDetectors.StreakMeansSameCalls` | services/claude-code-runner/loop-detector.ts:9-12 | The streak reaches k exactly when the last k calls are one and the same call |
| `Transcripts.SignatureIsProposal` | packages/core/src/loop.ts:109-112 | The no-progress guard's texts are equal exactly when the proposed names and inputs are, and differ from its initial empty text |
| `AgentLoop.RunTools` | packages/core/src/loop.ts:118-144 | One result per call, in order, under its id: a known tool's output, `error: ` and its message if it throws, `error: unknown tool` and the name if there is none, or the guard's text in place of any |
| `AgentLoop.Wording` | packages/core/src/loop.ts:129-130 | The texts of a failed and of an unknown tool |
| `AgentLoop.TakeTurn` | packages/core/src/loop.ts:84-146 | One pass: extends the conversation as recorded, and says why the loop ends or goes on |
| `AgentLoop.RunOnSession` | packages/core/src/loop.ts:58-150 | At most maxSteps turns; a user turn, then assistant and tool turns matched call by call; stuck exactly when a turn repeats its predecessor's nonempty calls, none of which are ever executed twice running; usage is the sum |
| `Translations.NameByIdFinds` | packages/core/src/adapters/vertex-gemini-inference.ts:42-47 | With distinct ids every call id maps to the name of its call |
| `Translations.GeminiPairsByName` | packages/core/src/adapters/vertex-gemini-inference.ts:104-126 | Each function response carries the name of the call it answers and stands at that call's place, right after it |
| `Translations.GeminiKeepsText` | packages/core/src/adapters/vertex-gemini-inference.ts:104-126 | A turn's content has the text of the turn and no other, no empty part, and the model's role exactly for the model's turns |
| `Translations.GeminiContentOf` | packages/core/src/adapters/vertex-gemini-inference.ts:104-126 | The content of one message |
| `Translations.GeminiContents` | packages/core/src/adapters/vertex-gemini-inference.ts:41-50 | One content per message, named from the whole conversation |
| `Translations.OpenAiPairsById` | packages/core/src/adapters/openai-gateway-inference.ts:73-94 | Each tool message's id was declared, at its own place, by the nearest assistant message before it |
| `Translations.OpenAiLosesNothing` | packages/core/src/adapters/openai-gateway-inference.ts:73-94 | Two conversations of the loop's shape with one wire form are one conversation |
| `Translations.PushResults` | packages/core/src/adapters/openai-gateway-inference.ts:88-91 | A tool turn becomes one message per result, in order |
| `Translations.OpenAiMessages` | packages/core/src/adapters/openai-gateway-inference.ts:73-94 | The loop builds that wire form |
| `CoderWorkspaces.CloneFiles` | services/agent-runtime/coder-workspace.ts:108-139 | Refuses a cut or oversized tree; else the baseline is exactly the bounded text files, and exactly they are written, each decoded as UTF-8 and encoded again |
| `CoderWorkspaces.ListWorkspace` | services/agent-runtime/coder-workspace.ts:145-153 | The one-pass ids when there are any, else a bounded plain listing |
| `CoderWorkspaces.DecideListed` | services/agent-runtime/coder-workspace.ts:157-172 | The decision about a listed path |
| `CoderWorkspaces.DecideMissed` | services/agent-runtime/coder-workspace.ts:177-193 | The decision about a baseline path the listing missed; a removal exactly when it cannot be read |
| `CoderWorkspaces.FirstPass` | services/agent-runtime/coder-workspace.ts:155-172 | Over the listed paths, in any order: exactly their decisions, one entry per path |
| `CoderWorkspaces.SecondPass` | services/agent-runtime/coder-workspace.ts:173-194 | Adds exactly the decisions about missed baseline paths, and counts the removals among them |
| `CoderWorkspaces.Finalize` | services/agent-runtime/coder-workspace.ts:144-202 | Refuses exactly a removal of more than half of a baseline of eight or more; else pushes exactly the decisions about all paths, and nothing exactly when there are none; the counter both passes keep ends at the number of entries |
| `CoderWorkspaces.DecisionRight` | services/agent-runtime/coder-workspace.ts:157-193 | The decision at a path gives the workspace's meaning exactly unless a reported id equal to the baseline's hides changed content |
| `CoderWorkspaces.HiddenChange` | services/agent-runtime/coder-workspace.ts:160 | A concrete listing whose id hides a change: the base stays and the new content is not pushed |
| `CoderWorkspaces.BytesAreText` | services/agent-runtime/coder-workspace.ts:67-88 | Ids of the bytes in the workspace are sound for what finalize reads exactly when those files are well-formed UTF-8 |
| `CoderWorkspaces.PushPreservesMeaning` | services/agent-runtime/coder-workspace.ts:155-202 | Over a sound listing the pushed tree holds at every path what the workspace means: content now under its own mode, removals, new text files, and the base everywhere else |
| `CoderWorkspaces.NoPushMeansNoChange` | services/agent-runtime/coder-workspace.ts:200 | When nothing is pushed, the base already holds that |
| `CoderWorkspaces.ListingIndependent` | services/agent-runtime/coder-workspace.ts:145-194 | Of any two sound listings, fast, slow or partial, finalize emits the same entries for every readable baseline path |
| `CoderWorkspaces.DecisionIndependent` | services/agent-runtime/coder-workspace.ts:157-193 | And decides alike about each of them: an entry exactly when its content changed |
| `CoderWorkspaces.SameRefusal` | services/agent-runtime/coder-workspace.ts:176-199 | Listings that miss the same unreadable baseline paths agree on refusing |
| `CoderWorkspaces.RefusalDependsOnListing` | services/agent-runtime/coder-workspace.ts:195-199 | Two sound listings can disagree on refusing exactly when more than half of a baseline of eight or more cannot be read |
| `CoderWorkspaces.UntouchedClone` | services/agent-runtime/coder-workspace.ts:126-194 | A clone nobody touched is never refused, and pushes nothing exactly when every text file it materialized is well-formed UTF-8 |
| `CoderWorkspaces.LatinIsPushed` | services/agent-runtime/coder-workspace.ts:127-132 | A file holding the one byte 0xE9 passes as text, and an untouched clone pushes it as the replacement character |
| `Utf8.RecodeKeeps` | services/agent-runtime/coder-workspace.ts:132 | Decoding and encoding again keeps bytes unchanged exactly when they are well-formed UTF-8 |
| `Utf8.RecodeIsWellFormed` | services/agent-runtime/coder-workspace.ts:163 | What comes back is well-formed |
| `Utf8.RecodeOnce` | services/agent-runtime/coder-workspace.ts:163 | A second round trip changes nothing more |
| `Utf8.EncodedIsKept` | services/agent-runtime/coder-workspace.ts:132 | The UTF-8 encoding of any scalar values comes back unchanged |
| `Utf8.WellFormedExactly` | services/agent-runtime/coder-workspace.ts:132 | Well-formed are exactly the encodings of sequences of scalar values |
| `Utf8.ReplacesMaximalSubpart` | services/agent-runtime/coder-workspace.ts:132 | Where no encoding stands, the longest head that begins one, or one byte, becomes U+FFFD |
| `Claims.Evaluate` | services/claims-controller/evaluate.ts:21-40 | The map of verdicts: all refused without an allowance, else the fold over the sorted claims |
| `Claims.SortIsStable` | services/claims-controller/evaluate.ts:28 | Sorting orders by creation time, loses nothing, and keeps the order among claims of one time |
| `Claims.StableOrderIsUnique` | services/claims-controller/evaluate.ts:28 | There is only one such order |
| `Claims.VerdictAt` | services/claims-controller/evaluate.ts:29-38 | With distinct names each claim is ready exactly when the total of the claims up to and including it fits, and its reason and message say so |
| `Claims.NoAllowanceRefusesAll` | services/claims-controller/evaluate.ts:23-27 | Without an allowance every claim is refused, and nothing else has a verdict |
| `Claims.GrantedIsLongest` | services/claims-controller/evaluate.ts:30-37 | The granted prefix's total is within the allowance, and no longer prefix's is |
| `Claims.ReadyIsLongestPrefix` | services/claims-controller/evaluate.ts:5-7 | With budgets of at least zero, ready claims are exactly the longest prefix in creation order that fits |
| `Claims.ListingOrderIsIrrelevant` | services/claims-controller/evaluate.ts:28-38 | With distinct creation times the verdicts do not depend on the order of the list |
| `Claims.LaterClaimsChangeNothing` | services/claims-controller/evaluate.ts:5-7 | A claim's verdict depends only on the claims created no later than it |
| `ClaimsController.CapByNamespace` | services/claims-controller/controller.ts:33-35 | The last allowance listed for a namespace counts |
| `ClaimsController.GroupByNamespace` | services/claims-controller/controller.ts:37-43 | Namespaces once each in order of first appearance, with their claims in list order; claims without one are skipped |
| `ClaimsController.Cluster.ReplaceStatus` | services/claims-controller/controller.ts:59-65 | A taken write replaces the object, a lost one nothing |
| `ClaimsController.Cluster.ReconcileClaim` | services/claims-controller/controller.ts:52-65 | Writes a claim at most once, and only when it is not at its verdict |
| `ClaimsController.WrittenSays` | services/claims-controller/controller.ts:56-59 | What is written is one Ready condition, `True` exactly when the claims up to this one fit the allowance, and nothing else of the claim changes |
| `ClaimsController.FindReady` | services/claims-controller/controller.ts:57 | The first Ready condition, if there is one |
| `ClaimsController.ToLites` | services/claims-controller/controller.ts:46-50 | The claims as the fold takes them, a missing budget as zero |
| `ClaimsController.Cluster.ReconcileNamespace` | services/claims-controller/controller.ts:45-66 | Sees to each claim of one namespace |
| `ClaimsController.Cluster.ReconcileOnce` | services/claims-controller/controller.ts:29-68 | Every claim not at its verdict is written exactly once, no other is, and exactly the taken writes show |
| `ClaimsController.DueAfterPass` | services/claims-controller/controller.ts:53-59 | After a pass a claim still needs a write exactly when its write was lost |
| `ClaimsController.SecondPassRetries` | services/claims-controller/controller.ts:29-68 | A second pass over the same claims writes exactly those whose first write was lost |
| `ClaimsController.Converges` | services/claims-controller/controller.ts:58 | After a pass whose writes all succeed, the next one writes nothing |
| `Chunker.PackKeepsFiles` | packages/core/src/adapters/agentcore-sandbox.ts:132-138 | The chunks concatenate to the files, in order |
| `Chunker.PackIsGreedy` | packages/core/src/adapters/agentcore-sandbox.ts:133 | No chunk is empty, each is within the limit or a single file, and none could have taken the next chunk's first file |
| `Chunker.FewestInvocations` | packages/core/src/adapters/agentcore-sandbox.ts:122-138 | No division of the files into such chunks has fewer of them |
| `Chunker.ChunksAre` | packages/core/src/adapters/agentcore-sandbox.ts:121-139 | Those properties hold of these chunks and of no others |
| `Chunker.Session.Flush` | packages/core/src/adapters/agentcore-sandbox.ts:126-132 | An empty chunk is not sent; any other is sent once, and fails iff the session rejects it |
| `Chunker.Session.WriteFiles` | packages/core/src/adapters/agentcore-sandbox.ts:121-139 | Sends those chunks, up to and including the first rejected one, and succeeds iff none is |
| `PktLine.ParseReceivePackCommands` | services/claude-code-runner/sidecar.ts:41-56 | The loop over offsets computes the section's meaning: cut into payloads, then read command by command |
| `PktLine.RoundTrip` | services/claude-code-runner/sidecar.ts:39-56 | Framed commands, with any capabilities and newlines, then a flush and any pack bytes, parse back to exactly those commands |
| `PktLine.Characters` | services/claude-code-runner/sidecar.ts:46-65 | The separators, the flush and the run prefix, as text |
| `PktLine.HexDigits` | services/claude-code-runner/sidecar.ts:46 | The value of a digit of either case is its place among the sixteen, and no other byte has one |
| `PktLine.TrimTakesEnds` | services/claude-code-runner/sidecar.ts:49 | Trimming takes the white space at both ends and nothing else |
| `PktLine.LaterFieldsIgnored` | services/claude-code-runner/sidecar.ts:50 | A line's fourth and later fields are not looked at |
| `PktLine.ReadAreClean` | services/claude-code-runner/sidecar.ts:49-52 | From any bytes at all, a parsed command has three nonempty fields without spaces or NULs |
| `PktLine.DenyReceivePack` | services/claude-code-runner/sidecar.ts:62-69 | Allows exactly a nonempty list of nonzero updates of run branches; otherwise names the first command that is not one |
| `PktLine.PolicePush` | services/claude-code-runner/sidecar.ts:226-236 | A push goes on exactly when it parses and every command is allowed |
| `PktLine.PolicyOnFramed` | services/claude-code-runner/sidecar.ts:39-69 | Of what a client frames, exactly the nonempty lists of allowed commands pass |
| `PktLine.PassedPushes` | services/claude-code-runner/sidecar.ts:60-69 | Of any body that passes, every command has clean fields, a ref under the run prefix and a nonzero new id |

## Left out

- HTTP, cloud SDK, SQL, Kubernetes and git clients: a remote store is an atomic step or a versioned cell, a server's refusal a parameter.
- Authentication, authorization, OAuth and credential brokering: their answers are parameters of the front door.
- Rounding: amounts are exact reals, and a verdict's message is the pair of numbers it prints.
- Token estimates (`estimateInputTokens`, `estimateAnthropicInputTokens`, `estimate_input_tokens`): the counts are parameters; the functions add up lengths.
- `checkBudget` and `recordSpend` beyond the read the front door makes: single additions and comparisons.
- CasRefinesAtomic: a PATCH whose success response is lost is not modelled; a throw is one before the write.
- SerialisedIsAtomic: likewise, a rejected write is one that did not land; other processes writing the same record are outside what the chain promises.
- CasStore: one document at a time, and the other modules take a counter per key; `DocumentsShared` says when that is not so on Firestore. The in-memory store's key separator is not modelled.
- HookConserves: a store call that throws is one before its effect; a lost success response is not modelled.
- PreCallHook: how tenant, cap and token counts are derived from key, body and environment; they are parameters, and a `max_tokens` that Python cannot turn into an integer fails before them.
- HandleMessages: request validation and claim routing come before the reservation and are left out, and so is what `toBedrockBody` makes of a body; a store failure while reserving escapes before anything is charged. Models without a price and infinite output caps are `Numbers`'.
- NoMoreHardStop: over the in-memory store; what the three remote stores' clients make of an amount that is no finite number is not modelled, and neither are caps that are none.
- RunOnSession: an `onProgress` that throws ends the run and is not modelled; neither are telemetry and the screening of the task beyond whether it blocks.
- StableTextDecides: over finite JSON values with distinct keys, numbers being their printed text; `undefined`, functions and negative zero are not JSON values.
- TerminalStatusSticks: of a run that reaches its terminal write; `processRun` does not promise that every run does. Only the engine's caught failure may follow it.
- Finalize: creating blobs, tree, commit and ref are GitHub's; a blob's id determines its content. A tree is a flat map from paths, so a file where another path has a directory is not excluded.
- SortIsStable: creation times are naturals, or missing; the controller compares their texts.
- ParseReceivePackCommands: a length is four hexadecimal digits, so `parseInt`'s laxer readings (signs, spaces, a valid prefix) are not modelled, and a byte is its own character, which holds for ASCII command lines.
- WriteFiles: paths are already relative; stripping their leading slashes is not modelled.
- ReplaceStatus: a claim's place in the listing stands for its namespace and name; transition times, other writers and conflicts are not modelled.
- Agent-spec and claim validation, the A2A mapping, the dispatch table, response parsing, schema sanitising: single branches or finite facts.
