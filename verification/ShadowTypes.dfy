/** Records of one shadow decision cycle and everything their constructors check. */
module ShadowTypes {
  import opened Prelude
  import opened RiskTypes

  datatype Role =
    | MarketContext | TrendAnalyst | PriceAction | EntryAnalyst | QuantResearcher | SeniorQuant | Skeptic | ChiefTrader

  /** The place of one agent call in the cycle's structure; `round` is 0 outside the debate. */
  datatype Slot = Slot(stage: nat, role: Role, round: nat)

  /** Logical invocation ids are injective in the slot; a trace may also carry an id of no slot at all. */
  datatype InvocationId = Own(slot: Slot) | Alien(n: nat)

  datatype OutputId = OutputOf(invocation: InvocationId)

  datatype FailureCategory =
    | Timeout | InvalidOutput | UnavailableAgent | StaleSnapshot | SchemaMismatch | UnknownFailure

  datatype FailureDisposition = AbortCycle | HoldCycle | ContinueDegraded

  datatype FailureId = FailureOf(invocation: InvocationId) | SystemFailure(category: FailureCategory)

  datatype Action = ActBuy | ActSell | ActHold

  datatype Chief = Chief(action: Action, proposal: Option<Proposal>)

  datatype Output = Output(id: OutputId, cycleId: Identifier, snapshotId: Identifier, role: Role, chief: Chief)

  /** What the Chief's own constructors accept. */
  predicate ValidChief(o: Output) {
    match o.chief.action
    case ActHold => o.chief.proposal.None?
    case _ =>
      && o.chief.proposal.Some?
      && o.chief.proposal.value.side == (if o.chief.action == ActBuy then Buy else Sell)
      && o.chief.proposal.value.cycleId == o.cycleId && o.chief.proposal.value.snapshotId == o.snapshotId
  }

  datatype Failure = Failure(
    id: FailureId,
    cycleId: Identifier,
    snapshotId: Identifier,
    role: Option<Role>,
    category: FailureCategory,
    disposition: FailureDisposition)

  datatype Invocation = Invocation(slot: Slot, id: InvocationId, output: Option<OutputId>, failure: Option<FailureId>)

  datatype StageStatus = StageCompleted | StageDegraded | StageHold | StageAborted | StageSkipped

  datatype StageRecord = StageRecord(
    number: nat,
    status: StageStatus,
    invocations: seq<InvocationId>,
    failures: seq<FailureId>)

  predicate Distinct<T(==)>(s: seq<T>) { forall i, j :: 0 <= i < j < |s| ==> s[i] != s[j] }

  function InvocationIds(invocations: seq<Invocation>): seq<InvocationId> {
    seq(|invocations|, i requires 0 <= i < |invocations| => invocations[i].id)
  }

  function OutputIds(outputs: seq<Output>): seq<OutputId> {
    seq(|outputs|, i requires 0 <= i < |outputs| => outputs[i].id)
  }

  function FailureIds(failures: seq<Failure>): seq<FailureId> {
    seq(|failures|, i requires 0 <= i < |failures| => failures[i].id)
  }

  lemma DistinctOneMore<T>(s: seq<T>, x: T)
    requires Distinct(s) && x !in s
    ensures Distinct(s + [x])
  {}

  predicate ValidStage(r: StageRecord) { Distinct(r.invocations) && Distinct(r.failures) }

  datatype Market = Market(cycleId: Identifier, snapshotId: Identifier, symbol: Identifier, timeframe: Identifier,
                           stale: bool)

  datatype Disposition =
    | Aborted | PolicyHold | ChiefHold | RiskHalted | RiskRejected | WouldBuy | WouldSell

  datatype Source = Orchestrator | FailurePolicy | ChiefSource | RiskSource

  datatype Cycle = Cycle(
    cycleId: Identifier,
    snapshotId: Identifier,
    symbol: Identifier,
    timeframe: Identifier,
    startedAt: Instant,
    completedAt: Instant,
    market: Market,
    context: AccountContext,
    stages: seq<StageRecord>,
    invocations: seq<Invocation>,
    outputs: seq<Output>,
    failures: seq<Failure>,
    chiefDecisions: seq<Output>,
    chiefDecision: Option<Output>,
    proposal: Option<Proposal>,
    risk: Option<Decision>,
    disposition: Disposition,
    source: Source)

  function ChiefOutputs(outputs: seq<Output>): seq<Output> {
    if outputs == [] then []
    else
      var last := outputs[|outputs| - 1];
      ChiefOutputs(outputs[..|outputs| - 1]) + if last.role == ChiefTrader then [last] else []
  }

  predicate TraceMatches(c: Cycle) {
    && c.startedAt <= c.completedAt
    && c.market.cycleId == c.cycleId && c.market.snapshotId == c.snapshotId
    && c.market.symbol == c.symbol && c.market.timeframe == c.timeframe
    && ((c.context.cycleId == c.cycleId && c.context.snapshotId == c.snapshotId) || c.disposition == Aborted)
    && |c.stages| == 6 && forall i :: 0 <= i < 6 ==> c.stages[i].number == i + 1
  }

  predicate ResultsMatch(c: Cycle) {
    && Distinct(InvocationIds(c.invocations)) && Distinct(OutputIds(c.outputs)) && Distinct(FailureIds(c.failures))
    && (forall o :: o in c.outputs ==> o.cycleId == c.cycleId && o.snapshotId == c.snapshotId)
    && (forall f :: f in c.failures ==> f.cycleId == c.cycleId && f.snapshotId == c.snapshotId)
    && ReferencesMatch(c.invocations, c.outputs, c.failures)
  }

  /** Audited outputs are exactly the retained ones; audited failures are retained. */
  predicate ReferencesMatch(invocations: seq<Invocation>, outputs: seq<Output>, failures: seq<Failure>) {
    && (forall v :: v in invocations && v.output.Some? ==> v.output.value in OutputIds(outputs))
    && (forall o :: o in outputs ==> exists v :: v in invocations && v.output == Some(o.id))
    && (forall v :: v in invocations && v.failure.Some? ==> v.failure.value in FailureIds(failures))
  }

  predicate ChiefMatches(c: Cycle) {
    && (c.chiefDecisions != [] ==> c.chiefDecision == Some(c.chiefDecisions[|c.chiefDecisions| - 1]))
    && (c.chiefDecisions == [] ==> c.chiefDecision.None?)
    && ChiefOutputs(c.outputs) == c.chiefDecisions
    && c.proposal == if c.chiefDecision.Some? then c.chiefDecision.value.chief.proposal else None
  }

  predicate RiskMatches(c: Cycle) {
    c.risk.Some? ==>
      && c.proposal.Some?
      && c.risk.value.cycleId == c.cycleId && c.risk.value.snapshotId == c.snapshotId
      && c.risk.value.proposalId == c.proposal.value.proposalId
  }

  predicate DispositionMatches(c: Cycle) {
    match c.disposition
    case ChiefHold => c.chiefDecision.Some? && c.chiefDecision.value.chief.action == ActHold && c.risk.None?
    case WouldBuy => ApprovedFor(c, ActBuy)
    case WouldSell => ApprovedFor(c, ActSell)
    case RiskRejected => c.risk.Some? && c.risk.value.status == Rejected
    case RiskHalted => c.risk.Some? && c.risk.value.status == HaltedDecision
    case _ => true
  }

  predicate ApprovedFor(c: Cycle, action: Action) {
    && c.chiefDecision.Some? && c.chiefDecision.value.chief.action == action
    && c.risk.Some? && c.risk.value.status == Approved
  }

  /** The cycle validator. */
  predicate ValidCycle(c: Cycle) {
    TraceMatches(c) && ResultsMatch(c) && ChiefMatches(c) && RiskMatches(c) && DispositionMatches(c)
  }

  /** What an approved proposal would have requested; it cannot be executed. */
  datatype ShadowIntent = ShadowIntent(
    cycleId: Identifier,
    snapshotId: Identifier,
    proposal: Proposal,
    risk: Decision,
    volume: real,
    entry: real,
    stopLoss: real,
    takeProfit: real)

  predicate ValidIntent(i: ShadowIntent) {
    && i.risk.status == Approved && i.risk.sizing.Some? && i.risk.sizing.value.selectedVolume == Some(i.volume)
    && 0.0 < i.volume
    && i.proposal.entry == Some(i.entry) && i.proposal.stopLoss == Some(i.stopLoss)
    && i.proposal.takeProfit == Some(i.takeProfit)
    && i.cycleId == i.proposal.cycleId == i.risk.cycleId && i.snapshotId == i.proposal.snapshotId == i.risk.snapshotId
  }

  datatype ShadowRecord = ShadowRecord(cycle: Cycle, intent: Option<ShadowIntent>)

  predicate IsApproved(c: Cycle) { c.risk.Some? && c.risk.value.status == Approved }

  predicate ValidShadowRecord(r: ShadowRecord) {
    && ValidCycle(r.cycle)
    && (forall i :: 0 <= i < |r.cycle.stages| ==> ValidStage(r.cycle.stages[i]))
    && (IsApproved(r.cycle) <==> r.intent.Some?)
    && (r.intent.Some? ==> ValidIntent(r.intent.value)
                           && r.intent.value.cycleId == r.cycle.cycleId
                           && r.intent.value.snapshotId == r.cycle.snapshotId)
  }
}
