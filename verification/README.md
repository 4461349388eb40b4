# Verified model of the trading pipeline's deterministic core

The pipeline turns market snapshots into guarded DEMO orders and shadow records. What keeps it safe is not one
function but rules that hold across modules: money at risk is bounded from sizing to fill, an intent is sent at most
once through crashes, spending caps hold through any interleaving, a readiness generation is used once, a shadow
cycle always ends in a valid record, and evaluation never looks ahead. This project states those rules in Dafny and
proves them for all inputs and all runs.

## How it is organised

- **Risk** (`RiskTypes`, `RiskSizing`, `RoundedSizing`, `RiskAccount`, `RiskProposal`, `RiskEngine`): drawdown
  states, proposal geometry, floor-to-grid sizing, and the composed decision.
- **One-shot execution** (`ExecutionTypes`, `Preflight`, `Reconciliation`, `ExecutionStore`, `ExecutionProtocol`,
  `ExecutionService`): the lifecycle, the price arithmetic that composes with the risk engine, the durable store, a
  small-step machine over all interleavings with crashes, the imperative service proved to be runs of it, concrete runs
  (`ExecutionExamples`), and the store's writes on a shared connection (`ExecutionDurability`).
- **AI budget** (`Budget`, `Router`): the reservation ledger in both implementations, and the retry loop over it.
- **Readiness** (`Readiness`, `Acceptance`): processes with caches over shared tables, one database connection per
  process, and the two-phase coordinator that composes with the execution service.
- **Shadow cycle** (`ShadowTypes`, `ShadowState`, `ShadowInvariants`, `ShadowCourse`, `ShadowCycle`, `ShadowExamples`):
  the orchestrator against the whole cycle validator, and against what the replies alone say of the cycle
  (`ShadowCourse`).
- **Numbers** (`Smoothing`, `Indicators`, `Ordering`, `Replay`, `Outcomes`, `Metrics`, `CanonicalDecimal`): loops
  over price series, replay views, first-touch evaluation, summaries, canonical printing.
- **Continuous runtime** (`ContinuousProtocol`, `ContinuousRuntime`) and **evidence** (`Evidence`).

Code that changes state step by step is modelled by classes and loops; each such method is proved against a function
or a step of a machine, and the promises are proved about that. What those functions compute is stated a second time
in terms of the inputs alone, without them. Times are microseconds in UTC, prices and money exact
reals, and content digests stand for the content they are taken of.

## Where the code does not meet the general rule

Each case names what shows the failing inputs and what gives the exact condition.

- **Shared database connection.** Threads of one process share one connection, so the rollback of a failed write takes
  back another thread's row between its insert and its commit; that call still returns normally, and another process
  can consume the generation again (`SharedConnectionReusesReadiness`). A step keeps the invariant exactly when it
  rolls back no uncommitted row of another thread (`ReadinessProtocol.StepKeepsInvIff`), as when each process writes one
  row at a time (`OneWriterRunsAreQuiet`).
- **Result before consumption.** The save check reads the cache, where a consumption stands before its insert, so a
  result can be stored first (`ResultWithoutConsumption`, `SaveOvertakesConsumption`). However the calls under way end,
  an admitted save is safe exactly when the consumption is in the shared table at the call or its run is already held by
  another generation's result (`SaveSafeIff`). The coordinator's order, saving only for a consumption that returned,
  ensures that (`ResultsFollowConsumption`).
- **Lost claims and dispatches.** The execution store shares a connection in the same way. With the claim and the
  dispatch of an execution both taken back by other threads' failed writes, its intent is submitted again by a later
  process (`LostRowsSubmitTwice`); with only the claim taken back, its source is, under another intent, by a process
  that had started before (`LostClaimReusesSource`) but never by one that starts afterwards (`RestartRefuses`). Either
  row keeps an intent from a second submission, and the claim also its source (`DispatchesKeepDispatchUnique`,
  `ClaimsKeepDispatchUnique`). A step keeps them exactly when it rolls back no such row of another thread
  (`ExecutionDurability.StepKeepsInvIff`), as with one write at a time in each process (`OneWriterIsQuiet`).
- **Cycles refused by their own validator.** With more than one round, a failure after an earlier Chief decision leaves
  such a cycle (`LateFailureHappens`), exactly as `ShadowCourse.FailsLate` says, and so do a supplied market view of another primary timeframe and a clock that
  runs backwards (`OtherTimeframeRefused`, `BackwardClockRefused`). In every other case the record is built
  (`RunShadowCycle`, `PresentedIff`).
- **ADX with period one** raises a state error for every series of three candles or more, and only then (`AdxSeries`).
- **Recovery of execution records** copies without validating; a record recovered before its claim breaks its lifecycle
  (`RecoveryBehindClaim`), which is kept exactly when the recovery clock is not behind the last event
  (`RecoveryKeepsLifecycleIff`).
- **Uncertainty after a restart.** A workflow that returns with an uncertain execution has seen control halted, but
  recovery makes executions uncertain without halting (`RestartLeavesControlEnabled`), exactly when it finds one
  dispatched or submitted while control is not halted already (`RestartWithoutHaltIff`).
- **Evidence order.** Decisions are unique by record id but sorted by decision key with a stable sort, so the sealed
  digest depends on the order of appends whenever two decisions share a key (`SharedKeyShowsOrder`, `SharedKeyHappens`)
  and never otherwise (`AppendOrderForgotten`).
- **Settlement above the reservation** raises out of the router and leaves that attempt dispatched (`RaisingCall`). A
  call raises exactly when the ledger grants its attempts up to one answered above its reservation (`Invoke`), which
  usage within the estimate and the configured output never is (`WithinLimitsNeverRaises`).

## Model

| member | source | states |
|---|---|---|
| RiskSizing.SizingIsMaximal | src/ai_trading_team/risk/sizing.py:82-118 | In exact arithmetic the sizer approves exactly when the broker minimum is affordable; the volume it selects is the largest grid point within the broker maximum and the allowed risk, the sizing record is valid, and the invariant-failed branch is never taken |
| RiskSizing.SizerRaisesIff | src/ai_trading_team/risk/sizing.py:27-61 | Building the sizing record raises exactly for a risk percentage above the schema limit on otherwise coherent inputs |
| RiskSizing.SelectedIsLargest | src/ai_trading_team/risk/sizing.py:94-98 | Flooring to the broker grid gives an affordable volume not below the minimum, and no larger grid point is affordable |
| RiskSizing.MoreRiskMoreVolume | src/ai_trading_team/risk/sizing.py:62-98 | Two sizings that differ only in the money at risk select volumes in the same order |
| RiskSizing.SizingMonotone | src/ai_trading_team/risk/sizing.py:62-118 | More equity and a larger permitted percentage keep an approval and never shrink the volume |
| RoundedSizing.ApprovedDespiteRounding | src/ai_trading_team/risk/sizing.py:62-118 | Whatever rounding of bounded relative error every operation suffers, an approved volume is within the broker's bounds and its exact loss at the stop exceeds the exact permitted risk by no more than five roundings can hide |
| RoundedSizing.RoundedSizerRaisesIff | src/ai_trading_team/risk/sizing.py:27-118 | Rounding never makes the sizer raise where exact arithmetic does not |
| RoundedSizing.ExactWithoutRounding | src/ai_trading_team/risk/sizing.py:27-118 | With no rounding error the rounded sizer is the exact one |
| RoundedSizing.FinalCheckNeeded | src/ai_trading_team/risk/sizing.py:100-117 | A rounding that lifts the raw volume over a grid point is caught by the final check: the branch exact arithmetic never takes is needed |
| RiskAccount.AccountRiskEvaluator.Evaluate | src/ai_trading_team/risk/account.py:39-155 | The evaluator that collects reasons step by step returns exactly the assessment that AccountReasonsExact and AccountBands describe |
| RiskAccount.AccountReasonsExact | src/ai_trading_team/risk/account.py:48-135 | Every account reason is reported exactly when its fault is present, once and in order: the position limit at exactly the maximum, the loss limits at exactly their percentages of the start of the day and of the peak |
| RiskAccount.AccountBands | src/ai_trading_team/risk/account.py:102-164 | Drawdown is measured against the higher of peak and equity, the daily loss against the start of the day; while trading is not stopped the state is normal below the warning level, caution from there, safe mode from its level on, and the permitted percentage is the normal one below the warning level and the minimum one from there on; a stopped account is permitted nothing |
| RiskAccount.AssessmentSound | src/ai_trading_team/risk/account.py:102-164 | Every assessment has valid metrics and is halted exactly when a stop reason is reported |
| RiskAccount.HealthierAccount | src/ai_trading_team/risk/account.py:102-164 | With only equity differing, losing less never stops trading and never lowers the permitted risk percentage |
| RiskProposal.ProposalValidator.Validate | src/ai_trading_team/risk/proposal.py:34-208 | The validator reports the specified reasons in the specified order, with the distances and the risk-reward ratio |
| RiskProposal.ProposalValidator.CheckGeometry | src/ai_trading_team/risk/proposal.py:83-130 | Directional geometry and minimum risk-reward reasons, in order |
| RiskProposal.ProposalValidator.CheckAlignment | src/ai_trading_team/risk/proposal.py:143-151 | The loop over the three prices reports a misaligned price once, and only if there is one |
| RiskProposal.ProposalValidator.CheckBroker | src/ai_trading_team/risk/proposal.py:132-166 | Broker metadata, tick alignment and minimum-distance reasons, in order |
| RiskProposal.NoReasonsIffAcceptable | src/ai_trading_team/risk/proposal.py:34-208 | The validator is silent exactly for proposals that satisfy an order-free acceptance condition |
| RiskProposal.ProposalReasonsExact | src/ai_trading_team/risk/proposal.py:34-208 | Every proposal reason is reported exactly when its fault, put in terms of the proposal's prices and the broker's data, is present, once and in order |
| RiskEngineModel.RiskEngine.Evaluate | src/ai_trading_team/risk/engine.py:26-95 | The engine's evaluation, composed of validator, account guard and sizer, is the specified decision |
| RiskEngineModel.RiskEngine.SizeAndDecide | src/ai_trading_team/risk/engine.py:50-95 | Sizing is attempted only without earlier reasons, and status, state and reasons follow from it |
| RiskEngineModel.EvaluationTotal | src/ai_trading_team/risk/engine.py:26-95 | No schema constructor on the way raises, the decision meets its schema, it is approved exactly when it has no reasons, and the invariant-failed reason never appears |
| RiskEngineModel.ApprovedExactly | src/ai_trading_team/risk/engine.py:38-81 | An approval says exactly which condition the inputs meet, and its volume is the largest affordable grid point |
| RiskEngineModel.DecisionReasonsExact | src/ai_trading_team/risk/engine.py:38-81 | Every reason of a decision is there exactly because its fault is present, those of the size only when nothing else is wrong |
| RiskEngineModel.ApprovedVolume | src/ai_trading_team/risk/sizing.py:62-118 | The approved volume lies on the broker's grid between its bounds, its loss at the stop is within the permitted percentage of equity, and one more step would break the maximum or that allowance |
| RiskEngineModel.NoRiskIncreaseAfterLosses | src/ai_trading_team/risk/engine.py:38-66 | An approval at a lower equity implies an approval at any higher equity with at least the same volume, all else equal |
| RiskEngineModel.HealthyAccountApproved | src/ai_trading_team/risk/engine.py:26-95 | Approvals exist: a concrete healthy account and proposal is approved with the volume its risk allows |
| RiskEngineModel.ApprovalAllows | src/ai_trading_team/risk/engine.py:38-81 | An approval allows its percentage, at most one, of the equity the snapshot observed, at the proposal's stop distance and the snapshot's tick |
| ExecutionTypes.ExtendValidIff | src/ai_trading_team/schemas/execution.py:553-604 | Appending an event to a valid record is valid exactly along the lifecycle graph, forward in time, and with the data the new phase needs |
| ExecutionTypes.LifecycleIsCourse | src/ai_trading_team/schemas/execution.py:553-604 | The events of a record follow the lifecycle exactly when they are one of the fourteen courses an execution can have taken so far |
| ExecutionTypes.ControlRule | src/ai_trading_team/schemas/execution.py:607-645 | A control event is valid exactly when control starts disabled, changes, leaves a halt only disabled, and pauses only while enabled |
| ExecutionTypes.AtMostSixEvents | src/ai_trading_team/schemas/execution.py:553-604 | A valid execution record holds between one and six events |
| ExecutionTypes.EachPhaseOnce | src/ai_trading_team/schemas/execution.py:553-604 | A valid record passes through each phase at most once, so it records at most one dispatch |
| ExecutionTypes.ReachedThroughDispatch | src/ai_trading_team/schemas/execution.py:553-604 | Every phase beyond dispatch was reached through a dispatch event |
| ExecutionTypes.HaltNeedsReset | src/ai_trading_team/schemas/execution.py:607-645 | In a valid control log a HALTED event is followed by ENABLED only after an explicit DISABLED event |
| PreflightModel.DeviationIsExact | src/ai_trading_team/execution/preflight.py:118-128 | A buy is measured at the ask and judged at the ask plus the tolerated slippage, a sell at the bid and the bid less it; the deviation in points times the point size is exactly that slippage, and spread and drift are those of the quote, in ticks |
| PreflightModel.FreshIff | src/ai_trading_team/execution/preflight.py:42-157 | The fresh preflight accepts exactly an observation whose times, identities, capabilities and quote, taken from bid and ask, are within the policy |
| PreflightModel.FreshRefused | src/ai_trading_team/execution/preflight.py:42-157 | Whatever category the fresh preflight raises is true of its observation |
| PreflightModel.FreshRiskIff | src/ai_trading_team/execution/service.py:332-395 | Fresh risk passes exactly when the engine approves the unchanged levels at the worst tolerated price with the unchanged volume, and says halted or rejected exactly when the decision is |
| PreflightModel.SealingSucceeds | src/ai_trading_team/execution/service.py:397-472 | After an approved fresh evaluation sealing the intent always succeeds; the sealed intent carries the identities, side, volume, levels and lifetime it should and is bound to that evaluation, the equity it observed included |
| PreflightModel.GuardPassesIff | src/ai_trading_team/execution/preflight.py:160-312 | The final guard passes exactly when every dispatch condition holds at that instant, for a buy with the ask and for a sell with the bid |
| PreflightModel.GuardRefused | src/ai_trading_team/execution/preflight.py:160-312 | Whatever category the guard refuses for is true at that instant |
| ReconciliationModel.ConfirmedIff | src/ai_trading_team/execution/reconciliation.py:19-116 | Confirmation needs exactly one broker report that proves this execution inside this dispatch window; no report means not found |
| ReconciliationModel.FailureIff | src/ai_trading_team/execution/reconciliation.py:19-116 | Each failure says exactly what the broker's reports lack |
| ReconciliationModel.FillJudged | src/ai_trading_team/execution/reconciliation.py:87-97 | A fill is outside the policy exactly when it is worse than the fresh quote by more than the tolerated slippage; a fill at the quote never is |
| ReconciliationModel.LossBounded | src/ai_trading_team/execution/reconciliation.py:45-116 | A confirmed fill closed at its protective stop loses at most the risk the fresh evaluation allowed |
| ExecutionStore.ExecutionRepository.AppendControlEvent | src/ai_trading_team/storage/execution.py:100-105 | A control event is appended exactly when it continues the current state |
| ExecutionStore.ExecutionRepository.ClaimExecution | src/ai_trading_team/storage/execution.py:119-159 | A claim succeeds at most once per intent, source digest and client trade id, and stores a validated claimed record |
| ExecutionStore.ExecutionRepository.SaveRecord | src/ai_trading_team/storage/execution.py:170-181 | A save may only append one event to the stored record of the same intent and owner |
| ExecutionStore.ExecutionRepository.RecoverIncomplete | src/ai_trading_team/storage/execution.py:190-233 | Restart recovery turns every unfinished record into a refused or unknown one and changes no other |
| ExecutionStore.ClaimIff | src/ai_trading_team/storage/execution.py:119-159 | A claim needs an unused intent, source and client identity and a clock not behind the sealing, and stores the claimed record under each of them |
| ExecutionStore.SaveIff | src/ai_trading_team/storage/execution.py:170-181 | A save succeeds exactly with the stored record of the same intent and owner and one more event, and changes only that record |
| ExecutionStore.RecoveredAs | src/ai_trading_team/storage/execution.py:190-233 | Recovery refuses what was not dispatched, makes unknown what may have been, and leaves every other record alone |
| ExecutionStore.RecoveryKeepsLifecycleIff | src/ai_trading_team/storage/execution.py:190-233 | Recovery, which copies without validating, keeps the lifecycle exactly when its clock is not behind the record's last event |
| ExecutionExamples.RecoveryBehindClaim | src/ai_trading_team/storage/execution.py:190-233 | A claimed record recovered one tick before its claim is stored and no longer meets its lifecycle |
| ExecutionExamples.RestartWithoutHaltIff | src/ai_trading_team/storage/execution.py:190-233 | Recovery leaves a newly uncertain execution without a halt exactly when it finds one dispatched or submitted while control is not halted; it never touches the control log |
| ExecutionExamples.RestartLeavesControlEnabled | src/ai_trading_team/storage/execution.py:190-233 | A run from the empty store ends with a submitted intent, an uncertain execution, control enabled and no thread left to halt it |
| ExecutionProtocol.StoredRecordsValid | src/ai_trading_team/execution/service.py:115-330 | In every run of any threads, crashes and restarts each stored record is valid, has at most six events and belongs to a sealed intent |
| ExecutionProtocol.ExactlyOnceDispatch | src/ai_trading_team/execution/service.py:115-330 | No intent, source intent or client trade identity is submitted twice, and each submission had its dispatch stored before |
| ExecutionProtocol.SubmittedOnlyPastGuard | src/ai_trading_team/execution/service.py:123-192 | Whatever was submitted had an accepted order check and a guard passed before its intent expired |
| ExecutionProtocol.ConfirmedLossBounded | src/ai_trading_team/execution/service.py:332-442 | In every run, each confirmed execution loses at most its freshly allowed risk when closed at its stop, and that is at most one percent of the equity observed before its dispatch |
| ExecutionProtocol.UncertaintyHalts | src/ai_trading_team/execution/service.py:550-565 | A workflow that returned after saving an uncertain or failed record saw the control log halted after that save |
| ExecutionProtocol.OwnedMeansUntouched | src/ai_trading_team/storage/execution.py:161-168 | The guard finds the claim owned exactly while the stored record has this workflow's owner and nothing was appended since its claim |
| ExecutionProtocol.RunKeepsInv | src/ai_trading_team/execution/service.py:80-330 | Every interleaving of every operation, crash and recovery keeps the protocol invariant |
| ExecutionDurability.StepKeepsInvIff | src/ai_trading_team/storage/execution.py:312-374 | With threads of a process on one connection, a step keeps relied-on rows durable and distinct exactly when it rolls back no such row of another thread |
| ExecutionDurability.RunKeepsInv | src/ai_trading_team/storage/execution.py:312-374 | Runs whose rollbacks take no such row of another thread keep that invariant, whatever processes, threads, restarts and failed writes they contain |
| ExecutionDurability.ClaimsKeepDispatchUnique | src/ai_trading_team/storage/execution.py:324-351 | As long as no rollback takes another thread's claim, no intent, source or client identity is submitted twice, and submitted intents are in the table |
| ExecutionDurability.DispatchesKeepDispatchUnique | src/ai_trading_team/storage/execution.py:353-374 | Even with claims lost, no intent is submitted twice as long as no rollback takes another thread's stored dispatch |
| ExecutionDurability.RestartRefuses | src/ai_trading_team/storage/execution.py:384-417 | Even with claims lost, a process that starts after a submission admits nothing that shares its intent, source or client identity, whatever happens afterwards |
| ExecutionDurability.OneWriterIsQuiet | src/ai_trading_team/storage/execution.py:312-374 | A process with one write under way at a time loses no other thread's row |
| ExecutionDurability.LostRowsSubmitTwice | src/ai_trading_team/storage/execution.py:324-374 | Counterexample for every intent: with its claim and its dispatch both lost to other threads' failed writes, a later process submits it again |
| ExecutionDurability.LostClaimReusesSource | src/ai_trading_team/storage/execution.py:324-351 | Counterexample for any two intents: with only the claim of the first lost, a process that had started before submits the second, from the same source or not |
| ExecutionService.Service.Execute | src/ai_trading_team/execution/service.py:80-257 | One call performs exactly a run of one protocol thread on the answers the outside world gives it. Its intent is priced at the fresh quote, the buy at the ask plus the slippage; the order is sent exactly when the check is accepted and the guard passes, and the phase and failure it ends in are told from the check, the guard, the receipt and the broker's reports alone |
| ExecutionService.Service.GuardAndDispatch | src/ai_trading_team/execution/service.py:142-257 | The final guard, the stored dispatch and the single submission are a run of the protocol: a failing guard refuses unsent with its category, a passing one sends once |
| ExecutionService.Service.SubmitAndSettle | src/ai_trading_team/execution/service.py:191-257 | After one submission the receipt is stored and settled as in the protocol: rejected is refused, uncertain, invalid or lost is unknown and halted, accepted is reconciled |
| ExecutionService.Service.ReconcileRecord | src/ai_trading_team/execution/service.py:269-330 | Reconciliation looks once for broker evidence and never submits: proof confirms, no report leaves or makes unknown, anything else fails the reconciliation; the latter two halt control |
| ExecutionService.Service.ReconcileUnknown | src/ai_trading_team/execution/service.py:259-268 | Only a stored unknown record is reconciled |
| ExecutionService.Service.HaltSaved | src/ai_trading_team/execution/service.py:550-565 | Behind a saved uncertain record control is halted unless it already is |
| ExecutionService.ServiceCallsAreRuns | src/ai_trading_team/execution/service.py:80-330 | A service call made at any point of any run continues that run, so its guarantees cover the imperative service |
| Budget.CapsAlwaysHold | src/ai_trading_team/runtime/budget.py:75-318 | Through any interleaving of reservations and transitions, every day, month and cycle cap of every policy holds in every reachable ledger |
| Budget.SpendingBounded | src/ai_trading_team/runtime/budget.py:75-126 | Of the unreleased rows of one policy those of one day, month or cycle never exceed its calls or its budgets, a settled row counting at its settled amount and any other at what it reserved |
| Budget.RowsOnlyAdvance | src/ai_trading_team/runtime/budget.py:128-219 | Rows are never removed, a dispatched row is never reserved again, and concluded rows never change |
| Budget.RowMoves | src/ai_trading_team/runtime/budget.py:128-212 | Each operation moves a row from exactly one state to exactly one state and leaves every other row and field alone |
| Budget.AdmitIff | src/ai_trading_team/runtime/budget.py:244-318 | A request is admitted exactly without a fault in its references, token counts, currency, pricing window and cost, and its row then reserves its input at the input price plus its configured output at the output price |
| Budget.ReserveIff | src/ai_trading_team/runtime/budget.py:75-126 | The ledger takes a row exactly when no identity, attempt order, call count or budget of the cycle, day or month stands against it, refuses with a category that is true, and otherwise only adds the row |
| Budget.GrantedRow | src/ai_trading_team/runtime/budget.py:303-318 | A granted reservation costs, per million, its input at the input price and its configured output at the output price, at most the policy's maximum per call |
| Budget.CostNonNegative | src/ai_trading_team/runtime/budget.py:359-374 | The estimated cost of valid pricing is never negative |
| Budget.InMemoryLedger.Total | src/ai_trading_team/runtime/budget.py:220-231 | Adding rows one at a time in any order gives the ledger's sum of charges |
| Budget.InMemoryLedger.ReserveIfWithin | src/ai_trading_team/runtime/budget.py:75-126 | The in-memory ledger reserves exactly when the abstract ledger does, and refuses for the same reason |
| Budget.InMemoryLedger.Move | src/ai_trading_team/runtime/budget.py:197-212 | A state change happens exactly from the expected state |
| Budget.InMemoryLedger.SettleAmount | src/ai_trading_team/runtime/budget.py:139-161 | Settlement needs a dispatched row and an amount between zero and the reservation |
| Budget.ListedTotal | src/ai_trading_team/storage/ai_budget.py:267-277 | The total over a query result is the ledger's sum, whatever order the rows come in |
| Budget.SQLiteLedger.ReserveIfWithin | src/ai_trading_team/storage/ai_budget.py:59-145 | The SQLite ledger takes exactly the same reservation step as the abstract ledger |
| Budget.SQLiteLedger.Move | src/ai_trading_team/storage/ai_budget.py:222-241 | The SQLite ledger changes states exactly as the abstract ledger does |
| Budget.SQLiteLedger.SettleAmount | src/ai_trading_team/storage/ai_budget.py:158-186 | The SQLite ledger settles exactly as the abstract ledger does |
| Router.RuntimeRouter.Invoke | src/ai_trading_team/runtime/router.py:126-305 | With other traffic before every reservation, before every dispatch and during every call: a returning call on a fresh id accounts for attempts 1..n with n within the policy, all concluded, only the last possibly settled, and reports exactly the ledger's total; a call raises exactly when the ledger grants its attempts up to one answered above its reservation, and then that attempt is the last sent and its row stays dispatched; a known id is never dispatched again and its rows stay as they were. For a fresh id it succeeds exactly when its last attempt was answered with valid output; otherwise the category is that of the expiry, the refused reservation, the last error or the invalid output, another attempt follows exactly after an error the policy retries, and every row costs what its tokens cost |
| Router.WithinLimitsNeverRaises | src/ai_trading_team/runtime/router.py:206-221 | A provider that keeps to the estimated input and the configured output never makes an invocation raise |
| Router.KnownNeverRaises | src/ai_trading_team/runtime/router.py:126-150 | An identity that already has attempts is refused at its first reservation and cannot raise |
| Router.LongAnswerRaises | src/ai_trading_team/runtime/budget.py:139-161 | One output token above the configured maximum makes a granted call on an empty ledger raise |
| Router.RuntimeRouter.RaisingCall | src/ai_trading_team/runtime/router.py:206-221 | Carried out, that call raises and leaves its row dispatched |
| Router.RuntimeRouter.Start | src/ai_trading_team/runtime/router.py:128-157 | An attempt is dispatched only after its reservation, and refused attempts change nothing |
| Router.RuntimeRouter.Fail | src/ai_trading_team/runtime/router.py:182-195 | A failed attempt becomes uncertain when it may have reached the provider and is released otherwise |
| Router.RuntimeRouter.Close | src/ai_trading_team/runtime/router.py:206-221 | An answered attempt is settled at its reported cost, or left uncertain without one; settlement above the reservation is refused and changes nothing |
| Router.RouterTotalIsLedgerTotal | src/ai_trading_team/runtime/router.py:375-386 | The router's own sum over its attempt records is the ledger's total for the invocation |
| Router.TelemetryCostIsLedgerTotal | src/ai_trading_team/runtime/router.py:362-414 | The cost in the telemetry, exact or estimated, is what the ledger holds for the invocation |
| ReadinessProtocol.StepKeepsInvIff | src/ai_trading_team/storage/execution_acceptance.py:127-187 | A step keeps the repository invariant exactly when it rolls back no other thread's uncommitted row |
| ReadinessProtocol.SingleUse | src/ai_trading_team/storage/execution_acceptance.py:36-96 | No two calls that returned normally used the same run, generation or approval twice: one registration and one result per run, one consumption per generation, one use per approval, and all of their rows are in the tables |
| ReadinessProtocol.CacheIsCovered | src/ai_trading_team/storage/execution_acceptance.py:143-187 | Every generation a process believes consumed is stored or being written by one of its threads |
| ReadinessProtocol.OneWriterRunsAreQuiet | src/ai_trading_team/storage/execution_acceptance.py:99-187 | Processes that write one row at a time never lose another thread's row |
| ReadinessProtocol.SharedConnectionReusesReadiness | src/ai_trading_team/storage/execution_acceptance.py:102-160 | Counterexample: threads sharing one connection can consume a generation twice, because a failed write rolls another thread's row back before its commit |
| ReadinessProtocol.ResultsFollowConsumption | src/ai_trading_team/execution/real_demo_acceptance.py:173-240 | In the coordinator's order every stored result has its generation's consumption in the shared table |
| ReadinessProtocol.ResultWithoutConsumption | src/ai_trading_team/storage/execution_acceptance.py:90-96 | Counterexample: without that order a result can be stored for a generation whose consumption was rolled back |
| ReadinessProtocol.SaveSafeIff | src/ai_trading_team/storage/execution_acceptance.py:90-96 | However the calls under way end, an admitted save never stores its result without the consumption exactly when, at the call, the consumption is in the shared table, not merely in the cache, or another generation's result already holds the run; with at most one open row on its connection the same holds among the endings that lose no other thread's row |
| ReadinessProtocol.OrderHoldsIff | src/ai_trading_team/storage/execution_acceptance.py:90-172 | From any state, whatever processes do next, results of a generation follow its consumption exactly when the consumption is stored |
| ReadinessProtocol.SaveOvertakesConsumption | src/ai_trading_team/storage/execution_acceptance.py:90-172 | Without the stored consumption the admitted save itself, with nothing failing, stores its result first |
| ReadinessProtocol.PopUndoesPut | src/ai_trading_team/storage/execution_acceptance.py:127-172 | Popping the cache entry of a failed write restores the cache exactly |
| ReadinessProtocol.CallAlone | src/ai_trading_team/storage/execution_acceptance.py:127-172 | A call by itself takes three protocol steps, and one that raises leaves the whole state as it was |
| ReadinessProtocol.RegisteredIff | src/ai_trading_team/storage/execution_acceptance.py:27-141 | A readiness is registered exactly when neither its run nor its generation is known or stored |
| ReadinessProtocol.ConsumedIff | src/ai_trading_team/storage/execution_acceptance.py:36-160 | A readiness is consumed exactly when it is the registered one, unexpired and unused, and its approval is effective, unused and names it and the enabled control event that is still current |
| ReadinessProtocol.SavedIff | src/ai_trading_team/storage/execution_acceptance.py:90-172 | A result is saved exactly when its run has none and its generation is known to be consumed |
| AcceptanceCoordination.AcceptanceRepository.constructor | src/ai_trading_team/storage/execution_acceptance.py:174-187 | Loading the tables row by row gives a cache that mirrors them exactly |
| AcceptanceCoordination.AcceptanceRepository.AddReadiness | src/ai_trading_team/storage/execution_acceptance.py:27-141 | Readiness is registered in cache and table together, or not at all |
| AcceptanceCoordination.AcceptanceRepository.ConsumeReadiness | src/ai_trading_team/storage/execution_acceptance.py:36-160 | Consumption is recorded in cache and table together, or not at all |
| AcceptanceCoordination.AcceptanceRepository.Save | src/ai_trading_team/storage/execution_acceptance.py:90-172 | A result is recorded in cache and table together, or not at all |
| AcceptanceCoordination.Coordinator.ExecuteOnce | src/ai_trading_team/execution/real_demo_acceptance.py:159-242 | It is refused without effect exactly when the readiness is not consumable under the current enabled control event or storage fails; otherwise the consumption is stored first, the service runs exactly once, and control ends paused after a confirmed or rejected execution, halted after any other, untouched only when the result record is invalid |
| AcceptanceCoordination.Coordinator.SetControl | src/ai_trading_team/execution/real_demo_acceptance.py:277-294 | Control is closed from ENABLED only, by one appended event |
| ShadowOrchestration.ShadowCycleOrchestrator.RunShadowCycle | src/ai_trading_team/orchestration/shadow.py:137-383 | For trace-consistent replies the record is built and stored exactly when the view's timeframe matches, the clock has not run backwards and no debate round fails after an earlier Chief decision. It then satisfies the whole cycle validator, bears the identities, views and times of its request, and tells from the replies alone which agents were called, what they left, how each of the six stages stands and lists its own calls, the disposition and its source: incompatible inputs, a stale view, aborting or too few analysts and a failed entry, quant, Skeptic or Chief call each end it in their own way. An intent exists exactly for an approved WOULD_BUY or WOULD_SELL and holds the Chief's last proposal and the risk decision on it |
| ShadowOrchestration.ShadowCycleOrchestrator.RunStages | src/ai_trading_team/orchestration/shadow.py:158-327 | Stages, retained results, final disposition and recorded stage statuses are those of the path the replies determine |
| ShadowCourse.CallMeans | src/ai_trading_team/orchestration/shadow.py:385-487 | What one call leaves behind, by its reply alone: output, audit, failure category and whether it aborts, holds or degrades the cycle |
| ShadowOrchestration.PathMeans | src/ai_trading_team/orchestration/shadow.py:158-327 | The path a cycle takes is told by the replies: incompatible and stale inputs, the analysts' verdict, the first review that stops it, or the last debate round and how it ended |
| ShadowOrchestration.LateMeans | src/ai_trading_team/orchestration/shadow.py:236-271 | A cycle is refused for a late failure exactly when its debate is reached and a Skeptic or Chief call of round two or later fails in the last round |
| ShadowOrchestration.TellsCourse | src/ai_trading_team/orchestration/shadow.py:137-383 | A record that tells its path tells what the replies make of it |
| ShadowOrchestration.ShadowCycleOrchestrator.RunStageOne | src/ai_trading_team/orchestration/shadow.py:187-219 | The three parallel analysts end the cycle exactly on an abort, an invalid output or fewer than two successes; otherwise their failures are carried on as degradations |
| ShadowOrchestration.ShadowCycleOrchestrator.RunEntryAndQuant | src/ai_trading_team/orchestration/shadow.py:221-383 | Entry and quant review stop the cycle exactly at the first failure that does not merely degrade it |
| ShadowOrchestration.ShadowCycleOrchestrator.RunRound | src/ai_trading_team/orchestration/shadow.py:239-271 | One debate round stops at a failed Skeptic or Chief, or appends the Chief's draft to the history |
| ShadowOrchestration.ShadowCycleOrchestrator.RunDebate | src/ai_trading_team/orchestration/shadow.py:236-274 | The bounded debate ends at the first failure, at a HOLD, or after the last round |
| ShadowOrchestration.ShadowCycleOrchestrator.Decide | src/ai_trading_team/orchestration/shadow.py:275-327 | A HOLD skips risk; otherwise the disposition follows the risk decision, and a raising risk stage aborts the cycle |
| ShadowOrchestration.ShadowCycleOrchestrator.Finish | src/ai_trading_team/orchestration/shadow.py:532-571 | The finished cycle is stored exactly when it is presentable, with every unrecorded stage filled in as skipped and every stage listing exactly the calls and failures of its own |
| ShadowOrchestration.ShadowCycleOrchestrator.IntentFor | src/ai_trading_team/orchestration/shadow.py:574-594 | An intent exists exactly for an approved risk decision, is valid, and is made of the Chief's proposal and that decision |
| ShadowOrchestration.PresentedIff | src/ai_trading_team/schemas/shadow.py:170-264 | A ready state satisfies the cycle validator exactly under three conditions on clock, timeframe and Chief history |
| ShadowOrchestration.LateFailureHappens | src/ai_trading_team/orchestration/shadow.py:236-271 | Counterexample for every usable request: a timeout in round two after a BUY in round one leaves a cycle its validator refuses |
| ShadowExamples.TimedOutCycle | src/ai_trading_team/orchestration/shadow.py:137-220 | A concrete request whose every call times out is recorded exactly when the market view has the snapshot's timeframe and the clock did not run backwards; otherwise the call raises and its claim stays incomplete |
| ShadowExamples.OtherTimeframeRefused | src/ai_trading_team/orchestration/shadow.py:151-157 | With a market view of another primary timeframe that cycle is refused by its own validator |
| ShadowExamples.BackwardClockRefused | src/ai_trading_team/orchestration/shadow.py:532-562 | With a completion before its start that cycle is refused by its own validator |
| ShadowOrchestration.EngineIsConsistent | src/ai_trading_team/risk/engine.py:26-95 | The risk engine always answers and meets everything the cycle needs of its risk stage |
| ShadowOrchestration.VisitedLength | src/ai_trading_team/orchestration/shadow.py:137-383 | No path makes more than six calls before the debate and two in each round |
| ShadowOrchestration.AuditRepository.ClaimCycle | src/ai_trading_team/storage/shadow_audit.py:41-54 | A cycle identity is claimed at most once |
| ShadowOrchestration.AuditRepository.FinalizeRecord | src/ai_trading_team/storage/shadow_audit.py:56-68 | Only an incomplete claim with the same snapshot is finalized |
| ShadowInvariants.AuditsDistinct | src/ai_trading_team/orchestration/identifiers.py:9-22 | Invocation identities of one cycle never repeat, and there are no more audits than calls |
| ShadowInvariants.References | src/ai_trading_team/schemas/shadow.py:201-206 | Audited outputs are exactly the retained outputs, and audited failures are retained |
| ShadowInvariants.HoldsOneMore | src/ai_trading_team/orchestration/shadow.py:709-715 | Retaining an outcome keeps the state equal to the results of exactly the calls made so far |
| ShadowInvariants.HoldsReplaced | src/ai_trading_team/orchestration/shadow.py:203-208 | Replacing stage-one failures changes exactly their disposition |
| ShadowInvariants.SetStageOk | src/ai_trading_team/orchestration/shadow.py:742-770 | Recording a stage cannot raise, because its identities are a selection of distinct ones |
| ShadowInvariants.FillFromOk | src/ai_trading_team/orchestration/shadow.py:772-775 | Filling in skipped stages completes the six stages and changes no recorded one |
| ShadowInvariants.FiledCall | src/ai_trading_team/orchestration/shadow.py:742-770 | A call of a stage that is not recorded yet leaves the lists of every recorded stage right |
| ShadowState.CycleState.RetainOutcome | src/ai_trading_team/orchestration/shadow.py:709-715 | Audit, output and failure of an outcome are appended to their lists |
| ShadowState.CycleState.Replace | src/ai_trading_team/orchestration/shadow.py:717-719 | Each failure is replaced by the last replacement with its identity, if there is one |
| ShadowState.CycleState.Stage | src/ai_trading_team/orchestration/shadow.py:742-770 | A stage records the identities of its own invocations and failures, in order |
| ShadowState.CycleState.FillMissing | src/ai_trading_team/orchestration/shadow.py:772-775 | The loop records every missing stage as skipped |
| Indicators.EmaSeries | src/ai_trading_team/features/indicators.py:13-27 | The loop returns a value at every index from period - 1 and nothing before, or rejects the period; the values start with the plain mean and then count the new price twice against period - 1 times the last value |
| Indicators.RsiSeries | src/ai_trading_team/features/indicators.py:30-52 | The loop returns a value at every index from period and nothing before, or rejects the period; each is the share of Wilder's average rise in the average rise and fall, 50 when nothing moved |
| Indicators.AtrSeries | src/ai_trading_team/features/indicators.py:55-76 | The loop returns a value at every index from period and nothing before, or rejects the period; it is Wilder's average of the greatest distances each candle spans, itself or from the close before |
| Indicators.AdxSeries | src/ai_trading_team/features/indicators.py:79-145 | For period two and longer the loop returns, exactly from index 2 x period - 1, Wilder's average of how far the two smoothed directional sums lie apart, in percent of both; period one raises the state error exactly from three candles on |
| Smoothing.EmaWithinPrefix | src/ai_trading_team/features/indicators.py:13-27 | An EMA value lies within the least and greatest price seen so far |
| Smoothing.EmaIsWeightedSum | src/ai_trading_team/features/indicators.py:13-27 | The EMA recurrence equals its closed form with geometrically decaying weights |
| Smoothing.WeightsSumToOne | src/ai_trading_team/features/indicators.py:13-27 | None of those weights is negative and together they are one |
| Smoothing.EmaAffine | src/ai_trading_team/features/indicators.py:13-27 | Rescaling and shifting the prices rescales and shifts the EMA |
| Smoothing.EmaCausal | src/ai_trading_team/features/indicators.py:13-27 | An EMA value depends only on the prices up to its index |
| Smoothing.EmaRecurs | src/ai_trading_team/features/indicators.py:19-26 | Seeded by the plain mean, the EMA counts the new price twice and the last value period - 1 times, out of period + 1 |
| Smoothing.WilderRecurs | src/ai_trading_team/features/indicators.py:40-51 | Seeded by the plain mean, Wilder's average counts the new value once and the last average period - 1 times, out of period |
| Smoothing.WilderWithin | src/ai_trading_team/features/indicators.py:40-51 | A Wilder average lies within the range of the values averaged |
| Smoothing.SmoothedIsScaledWilder | src/ai_trading_team/features/indicators.py:104-125 | The running sum used for directional movement is exactly the period times Wilder's average |
| Smoothing.SmoothedRecurs | src/ai_trading_team/features/indicators.py:104-125 | The running sum starts plain and then gives one part in period of itself for each new value |
| Smoothing.SmoothedDominated | src/ai_trading_team/features/indicators.py:104-125 | Non-negative parts that never exceed a whole still do not after smoothing |
| Indicators.RsiComplement | src/ai_trading_team/features/indicators.py:156-160 | RSI lies in [0, 100], and the RSI of negated prices is 100 minus it at every index |
| Indicators.RsiScaleFree | src/ai_trading_team/features/indicators.py:30-52 | RSI does not depend on the scale or origin of the prices |
| Indicators.RsiCausal | src/ai_trading_team/features/indicators.py:30-52 | An RSI value depends only on the prices up to its index |
| Indicators.DirectionalSumsBounded | src/ai_trading_team/features/indicators.py:88-125 | Each smoothed directional sum lies between zero and the smoothed true range, and so does their total |
| Indicators.DxCancelsRange | src/ai_trading_team/features/indicators.py:163-175 | DX equals the form in which true range cancels, and is a percentage |
| Indicators.TransitionsTold | src/ai_trading_team/features/indicators.py:88-153 | The true range is the greatest of the three distances, and of the two outward moves only the larger counts, none when they are equal or inward |
| Indicators.AdxInRange | src/ai_trading_team/features/indicators.py:79-145 | Every ADX value lies in [0, 100] |
| Indicators.AtrNonNegative | src/ai_trading_team/features/indicators.py:55-76 | ATR is never negative and times the period is the smoothed true range of ADX |
| Indicators.MirrorKeepsStrength | src/ai_trading_team/features/indicators.py:55-175 | Turning the chart upside down leaves ATR, DX and ADX unchanged |
| Indicators.CandleIndicatorsCausal | src/ai_trading_team/features/indicators.py:55-145 | ATR and ADX values depend only on the candles up to their index |
| ReplayViews.NoLookAhead | src/ai_trading_team/replay/source.py:48-79 | Two datasets that agree on the records up to the cutoff give every decision the same candles and observations |
| ReplayViews.DecisionViewIff | src/ai_trading_team/replay/source.py:138-146 | A decision view exists exactly while a partition of that identity is open at the cutoff |
| ReplayViews.SeesLastCompleted | src/ai_trading_team/replay/source.py:48-64 | A decision sees exactly the last candles, up to the count, of the series that opened in the context and closed by the cutoff; whatever else qualifies is older than all of them |
| ReplayViews.SnapshotIsLatest | src/ai_trading_team/replay/source.py:66-79 | The snapshot is the latest observation of the symbol in the context up to the cutoff, and missing exactly when there is none |
| ReplayViews.OutcomeCandlesBounded | src/ai_trading_team/replay/source.py:148-183 | An outcome view is non-empty, in strict time order, after the decision, inside the partition and inside its horizon |
| ReplayViews.OutcomeViewComplete | src/ai_trading_team/replay/source.py:148-193 | An outcome view leaves out no measurable candle unless the bars it may hold are all earlier ones, and is refused exactly when no partition is open or nothing can be measured |
| ReplayViews.DecisionAndOutcomeDisjoint | src/ai_trading_team/replay/source.py:48-183 | No candle a decision may see is used to measure its outcome |
| OutcomeEvaluation.ScanPath | src/ai_trading_team/evaluation/outcomes.py:100-124 | The loop finds the first touching candle, its status, and the excursions as peaks up to it |
| OutcomeEvaluation.ResolvedIsFinal | src/ai_trading_team/evaluation/outcomes.py:100-124 | A resolved scan is unchanged by appending candles |
| OutcomeEvaluation.MirroredTrade | src/ai_trading_team/evaluation/outcomes.py:104-113 | Selling on the negated chart is buying on the chart |
| OutcomeEvaluation.ExcursionsAgree | src/ai_trading_team/evaluation/outcomes.py:104-124 | The excursions reach a level exactly when the status says that it was touched |
| OutcomeEvaluation.CheckBoundaries | src/ai_trading_team/evaluation/outcomes.py:59-79 | The validation loop reports the first candle error, in the order the checks are made |
| OutcomeEvaluation.BoundaryAccepts | src/ai_trading_team/evaluation/outcomes.py:59-79 | That loop accepts exactly candles after the decision in strict time order |
| OutcomeEvaluation.Evaluate | src/ai_trading_team/evaluation/outcomes.py:30-208 | The evaluation reports a failing check that is true of the view, the first in order, or an outcome told from the candles: no earlier candle reaches target or stop and the last one does as the status says, the times count from the decision, the excursions are the furthest on either side, and their multiples are of the distance to the stop; an empty view that passes the checks has nothing to evaluate |
| OutcomeEvaluation.ProblemMeans | src/ai_trading_team/evaluation/outcomes.py:40-98 | Whatever check is reported as failing is false of the view, and without one only the segment facts can still be wrong |
| OutcomeEvaluation.OutcomeInUnitsOfRisk | src/ai_trading_team/schemas/evaluation.py:109-161 | A reached target was worth at least its realized R, a reached stop at least one R against, an unresolved outcome less than either |
| OutcomeEvaluation.OutcomeIsFinal | src/ai_trading_team/evaluation/outcomes.py:100-208 | A resolved outcome stays the reading of every continuation of its view |
| OutcomeEvaluation.ReadingUnique | src/ai_trading_team/evaluation/outcomes.py:100-208 | A price path has one reading |
| OutcomeEvaluation.IssuedViewsPass | src/ai_trading_team/replay/source.py:148-183 | Every view the data source issues passes every boundary check of the evaluator for the same horizon |
| PerformanceMetrics.OnePassIsMaxFall | src/ai_trading_team/evaluation/metrics.py:141-149 | The one-pass drawdown is the greatest fall between any two prefix sums, the empty prefix included |
| PerformanceMetrics.SequenceMaxDrawdown | src/ai_trading_team/evaluation/metrics.py:141-149 | The loop computes that greatest fall, which is never negative |
| PerformanceMetrics.SummaryForgetsOrder | src/ai_trading_team/evaluation/metrics.py:22-64 | The summary, its digest and its errors do not depend on the order of the outcomes |
| PerformanceMetrics.SummarizePerformance | src/ai_trading_team/evaluation/metrics.py:22-128 | The loops over the sorted outcomes and their realized results, with the identity count and the partition check in front, compute the specified summary, which holds no matter the order of the outcomes, or raise the specified error |
| PerformanceMetrics.SummarizedIff | src/ai_trading_team/evaluation/metrics.py:22-45 | Summarizing fails exactly without outcomes, with a repeated identity, or across partitions |
| PerformanceMetrics.TallyOutcomes | src/ai_trading_team/evaluation/metrics.py:47-64 | One pass counts every status and adds up realized results, holding time of the resolved and both excursions |
| PerformanceMetrics.Gross | src/ai_trading_team/evaluation/metrics.py:66-73 | One pass gives the cumulative result and what was won and lost of it |
| PerformanceMetrics.LatestEnd | src/ai_trading_team/evaluation/metrics.py:127 | The summary is dated at the latest end of an evaluation, which some outcome has |
| PerformanceMetrics.IdsCount | src/ai_trading_team/evaluation/metrics.py:30-34 | Comparing the number of different identities with the number of outcomes finds exactly the duplicates |
| PerformanceMetrics.SummaryAccounts | src/ai_trading_team/schemas/evaluation.py:209-215 | Every number is measured on the outcomes themselves: the counts partition them, the win rate is wins over resolved, the cumulative result their sum and what was won less one R per loss, as the profit factor says, drawdown the greatest fall of the results in order, holding times and excursions averages, the date the latest end |
| PerformanceMetrics.MedianHalves | src/ai_trading_team/evaluation/metrics.py:131-138 | The median is the middle value, or the mean of the two middle ones, and half of the values lie on either side |
| ContinuousProtocol.NeverDispatchedTwice | src/ai_trading_team/observation/runtime.py:100-239 | No decision key is dispatched twice, through any polls, shutdowns, storage failures and restarts |
| ContinuousProtocol.PlanMeans | src/ai_trading_team/observation/runtime.py:134-149 | A poll plans to process the newest timely unclaimed candle and to miss every other unclaimed one |
| ContinuousProtocol.OneDecisionInFlight | src/ai_trading_team/observation/runtime.py:123-163 | At most one poll runs at a time and it dispatches at most one candle |
| ContinuousProtocol.ClaimsTellTheTruth | src/ai_trading_team/observation/runtime.py:324-428 | A missed candle was never dispatched, and a completed or failed one has its decision record |
| ContinuousProtocol.ShutdownEndsStopped | src/ai_trading_team/observation/runtime.py:155-172 | A shutdown during a poll leaves the runtime never ready again before the next start, and stopped once the poll is over |
| ContinuousProtocol.RunKeepsInv | src/ai_trading_team/observation/runtime.py:100-239 | Every interleaving keeps the runtime invariant |
| ContinuousRuntime.ContinuousShadowRuntime.StartRuntime | src/ai_trading_team/observation/runtime.py:100-121 | Starting succeeds only from STOPPED for an eligible symbol, abandons exactly the unfinished claims, and otherwise ends faulted or still starting |
| ContinuousRuntime.ContinuousShadowRuntime.PollOnce | src/ai_trading_team/observation/runtime.py:123-163 | A poll raises or returns at once when it may not run; otherwise it keeps every earlier claim, marks the other unclaimed candles missed, takes up only the newest timely one, dispatches it at most once, and leaves its claim and decision record as the answers of storage, preparation and cycle say; it ends ready, or stopped after a shutdown, and is a run of the protocol |
| ContinuousRuntime.ContinuousShadowRuntime.Process | src/ai_trading_team/observation/runtime.py:196-322 | A candle is claimed, prepared, dispatched exactly when it passes, and recorded: completed when it was held or its cycle succeeded and both writes went through, failed or left open otherwise |
| ContinuousRuntime.ContinuousShadowRuntime.RecordMissed | src/ai_trading_team/observation/runtime.py:363-377 | Missed candles are discovered and marked one after the other; all of them end missed exactly when every write goes through and no key repeats |
| ContinuousRuntime.ContinuousShadowRuntime.ShutdownRuntime | src/ai_trading_team/observation/runtime.py:165-172 | Shutdown is the protocol's shutdown step: requested unless stopped, stopping while a poll runs, stopped at once otherwise |
| ContinuousRuntime.ObservationRepository.RecoverIncomplete | src/ai_trading_team/storage/observation.py:188-201 | Recovery abandons unfinished claims, all of them unless storage fails part-way |
| ContinuousRuntime.ObservationRepository.Finish | src/ai_trading_team/storage/observation.py:154-186 | A claim becomes terminal at most once |
| ContinuousRuntime.CallsAreRuns | src/ai_trading_team/observation/runtime.py:100-239 | The trace of a call, appended to any run, is a run |
| CanonicalDecimal.PrintsAlikeIffEqual | src/ai_trading_team/features/serialization.py:16-25 | Two finite decimals print the same text exactly when they are numerically equal |
| CanonicalDecimal.ParsePrint | src/ai_trading_team/features/serialization.py:16-25 | Reading the printed text gives the value back |
| CanonicalDecimal.EqualValuesPrintAlike | src/ai_trading_team/features/serialization.py:16-25 | Factors of ten moved between coefficient and exponent, and signed zeros, do not show |
| CanonicalDecimal.TextIsCanonical | src/ai_trading_team/features/serialization.py:16-25 | The text is an optional sign and a number without insignificant leading or trailing zeros, bare point or exponent, and never a signed zero |
| QualificationEvidence.AppendOrderForgotten | src/ai_trading_team/qualification/evidence.py:43-107 | With distinct decision keys any order and batching of the same valid appends seals the same content |
| QualificationEvidence.SharedKeyShowsOrder | src/ai_trading_team/qualification/evidence.py:63-65 | Whatever a dataset holds, two decisions under one key that it accepts in either order leave their order in the digest |
| Ordering.SortedBehind | src/ai_trading_team/qualification/evidence.py:63-65 | The stable sort keeps a row behind every earlier row of an equal key |
| Ordering.StringLessIff | src/ai_trading_team/qualification/evidence.py:62-82 | Keys are ordered by their first different character, a proper prefix first |
| QualificationEvidence.SharedKeyHappens | src/ai_trading_team/qualification/evidence.py:43-107 | Any two decisions under one key are accepted in either order by a concrete dataset, and the two sealed digests then differ |
| QualificationEvidence.AppendsAccumulate | src/ai_trading_team/qualification/evidence.py:43-86 | After any appends the rows are exactly what was there and what was added |
| QualificationEvidence.AppendIff | src/ai_trading_team/qualification/evidence.py:43-86 | An append is accepted exactly when the dataset is open, old and new rows together repeat no identity and fit the partition, and every outcome is bound by the last sorted decision of its link; the rows are then the old and the new ones, sorted |
| QualificationEvidence.SealIff | src/ai_trading_team/qualification/evidence.py:89-107 | A valid dataset is sealed exactly when it is open and the clock is not behind its opening, and the seal holds what it contains |
| QualificationEvidence.ChainUnbroken | src/ai_trading_team/qualification/evidence.py:58-61 | Revisions rise by one and link back without a gap |
| QualificationEvidence.SealHolds | src/ai_trading_team/qualification/evidence.py:89-146 | A sealed digest verifies before and after evaluation, evaluation succeeds exactly when it is not dated before the seal, and nothing can be appended, resealed or re-evaluated afterwards |

## Left out

- Decimal rounding to 28 or 50 digits: prices, money, indicators and metrics use exact reals; only sizing is also treated under rounding, where a remainder that raises for want of precision is not modelled.
- PreflightModel.GuardPassesIff: the digest and field-equality checks of execution authority are one `authorized` fact, and the categories of a control state that is not ENABLED are one.
- Content digests and deterministic identifiers: taken to be injective, so they stand for their content; the truncated failure identifier is treated the same way.
- ExecutionProtocol.ExactlyOnceDispatch: the execution repository is one durable store with atomic operations; when its SQLite form keeps this is stated in `ExecutionDurability`.
- ExecutionDurability.StepKeepsInvIff: the two inserts of a claim are one step, revisions beyond the dispatch are writes of other threads, and all revisions of an intent identity are taken to carry the same intent.
- ExecutionProtocol.StoredRecordsValid: restart recovery in the machine happens with a clock not behind the stored records; the exact condition is stated separately.
- Budget.SQLiteLedger.ReserveIfWithin: the text encoding of rows and the transaction mechanics are not modelled; one call is one atomic step.
- Router.RuntimeRouter.Invoke: prompts, schemas, token estimation and capability checks before the first attempt are one preflight failure, and the parsed body is valid or not.
- ReadinessProtocol.SingleUse: needs that no rollback takes another thread's row, for the reason given above; the fields an approval binds are one body, and a registered readiness is compared as a whole.
- ReadinessProtocol.CacheIsCovered: needs the same; a lost row can leave a cache entry that nothing backs.
- AcceptanceCoordination.Coordinator.ExecuteOnce: fetching the vendor audit and validating the result record are one fact; `readiness_only` is not modelled.
- ShadowOrchestration.ShadowCycleOrchestrator.RunShadowCycle: assumes trace-consistent replies; context building, output contents other than the Chief's action and proposal, and the persistence format are not modelled.
- ReplayViews.NoLookAhead: dataset digests and the file adapter are not modelled; a parsed dataset is a value.
- ContinuousProtocol.NeverDispatchedTwice: one process at a time over the claim store; snapshot identity conflicts and cycle identity conflicts appear as failed storage operations.
- QualificationEvidence.AppendOrderForgotten: both sides append at least one batch, because an untouched dataset need not be sorted.
- Swing detection and recent ranges: index scans that would add only easy members.
- Approvals, revocations, risk baselines, qualification gates, provider and broker adapters, terminal mapping, configuration loading, logging and command-line entry points.
- String lengths, patterns, time-zone checks and free-text details of the schemas.
