/** Fresh price and risk preflight, intent sealing, and the final dispatch guard. */
module PreflightModel {
  import opened Prelude
  import opened RiskTypes
  import opened ExecutionTypes
  import P = RiskProposal
  import R = RiskEngineModel
  import Z = RiskSizing

  datatype Outcome<+T> =
    | Ok(value: T)
    | Raised(category: Category)     // a typed execution error
    | InvalidValue                   // a ValueError or schema error

  datatype Policy = Policy(
    maximumTickAge: int,
    maximumDecisionAge: int,
    maximumPreflight: int,
    intentTtl: int,
    maximumSpreadTicks: real,
    maximumDriftTicks: real,
    maximumSlippageTicks: real)

  predicate ValidPolicy(p: Policy) {
    && 0 < p.maximumTickAge && 0 < p.maximumDecisionAge && 0 < p.maximumPreflight && 0 < p.intentTtl
    && 0.0 < p.maximumSpreadTicks && 0.0 <= p.maximumDriftTicks && 0.0 <= p.maximumSlippageTicks
  }

  datatype Acceptance = Acceptance(accountRef: Identifier, environmentRef: Identifier)

  /** The approved shadow intent a candidate carries. */
  datatype ShadowIntent = ShadowIntent(
    cycleId: Identifier,
    snapshotId: Identifier,
    proposal: Proposal,
    selectedVolume: real,
    hypotheticalEntry: real)

  datatype Candidate = Candidate(
    symbol: Identifier,
    recordedAt: Instant,
    shadow: ShadowIntent,
    sourceDigest: Identifier,
    intentId: Identifier,        // derived from source digest, environment and policy
    clientTradeId: Identifier,   // derived from the intent id
    revalidationId: Identifier)  // derived from source proposal and execution snapshot

  /** A shadow intent only exists with all three prices present. */
  predicate ValidShadow(i: ShadowIntent) {
    i.proposal.entry.Some? && i.proposal.stopLoss.Some? && i.proposal.takeProfit.Some? && 0.0 < i.selectedVolume
  }

  datatype Tick = Tick(sourceTime: Instant, bid: real, ask: real, spread: real)

  /** Broker capability facts, each as the one fact its check tests. */
  datatype Capabilities = Capabilities(
    bindsSymbolInfo: bool,
    matchesAcceptance: bool,
    modeSupported: bool,
    fillingAvailable: bool,
    protectionAllowed: bool,
    selectedAndVisible: bool)

  datatype Observation = Observation(
    snapshot: Snapshot,
    context: AccountContext,
    tick: Tick,
    environmentRef: Identifier,
    demoAccount: bool,
    accountPositions: nat,
    capabilities: Capabilities)

  function CheckCapabilities(c: Capabilities, mode: TradeMode): Option<Category> {
    if !c.bindsSymbolInfo || !c.matchesAcceptance then Some(BrokerMetadataChanged)
    else if !c.modeSupported then Some(UnsupportedExecutionMode)
    else if !c.fillingAvailable then Some(UnsupportedFillingMode)
    else if !c.protectionAllowed then Some(ProtectionUnsupported)
    else if !c.selectedAndVisible || mode == Disabled || mode == CloseOnly then Some(UnsupportedExecutionMode)
    else None
  }

  /** Spread and drift of a quote in ticks, or the limit it breaks. */
  function CheckQuote(tick: Tick, reference: real, comparison: real, tickSize: real, policy: Policy, now: Instant)
    : Outcome<(real, real)>
  {
    if tickSize <= 0.0 then Raised(BrokerMetadataChanged)
    else if now < tick.sourceTime || policy.maximumTickAge < now - tick.sourceTime then Raised(StaleExecutionTick)
    else
      var spreadTicks := tick.spread / tickSize;
      var driftTicks := AbsReal(reference - comparison) / tickSize;
      if policy.maximumSpreadTicks < spreadTicks then Raised(SpreadLimitExceeded)
      else if policy.maximumDriftTicks < driftTicks then Raised(PriceDriftExceeded)
      else Ok((spreadTicks, driftTicks))
  }

  /** Slippage in ticks as a whole number of points; fails rather than rounding. */
  function ExactDeviationPoints(slippageTicks: real, tickSize: real, point: real): Outcome<int> {
    if tickSize <= 0.0 || point <= 0.0 then InvalidValue
    else
      var value := slippageTicks * tickSize / point;
      if value.Floor as real != value || value.Floor < 0 then InvalidValue else Ok(value.Floor)
  }

  /** The tolerated slippage as a price distance. */
  function Slippage(policy: Policy, tickSize: real): real { policy.maximumSlippageTicks * tickSize }

  function ReferencePrice(side: Side, tick: Tick): real { if side == Buy then tick.ask else tick.bid }

  /** The worst price the policy tolerates on the trade's own side. */
  function WorstPrice(side: Side, reference: real, adverse: real): real {
    if side == Buy then reference + adverse else reference - adverse
  }

  function ValidateFresh(c: Candidate, o: Observation, acceptance: Acceptance, policy: Policy,
                         started: Instant, completed: Instant): Outcome<Preflight>
  {
    var snapshot, shadow := o.snapshot, c.shadow;
    var side, info := shadow.proposal.side, snapshot.symbolInfo;
    if shadow.snapshotId == snapshot.snapshotId then InvalidValue
    else if completed < started || policy.maximumPreflight < completed - started then Raised(PreflightExpired)
    else if policy.maximumDecisionAge < completed - c.recordedAt then Raised(DecisionExpired)
    else if snapshot.cycleId != shadow.cycleId || snapshot.symbol != shadow.proposal.symbol then
      Raised(CycleOrSymbolMismatch)
    else if snapshot.accountRef != acceptance.accountRef || o.context.accountRef != acceptance.accountRef then
      Raised(AccountMismatch)
    else if o.environmentRef != acceptance.environmentRef then Raised(EnvironmentMismatch)
    else if !o.demoAccount then Raised(NonDemoAccount)
    else if o.accountPositions != 0 then Raised(OpenPositionConflict)
    else
      var capability := CheckCapabilities(o.capabilities, info.mode);
      if capability.Some? then Raised(capability.value)
      else
        var reference := ReferencePrice(side, o.tick);
        var quote := CheckQuote(o.tick, reference, shadow.hypotheticalEntry, info.tickSize, policy, completed);
        match quote
        case Raised(category) => Raised(category)
        case InvalidValue => InvalidValue
        case Ok((spreadTicks, driftTicks)) =>
          var riskPrice := WorstPrice(side, reference, Slippage(policy, info.tickSize));
          var deviation := ExactDeviationPoints(policy.maximumSlippageTicks, info.tickSize, info.point);
          if !deviation.Ok? || reference <= 0.0 || riskPrice <= 0.0 || spreadTicks < 0.0 then InvalidValue
          else Ok(Preflight(started, completed, shadow.snapshotId, snapshot.snapshotId, reference, riskPrice,
                            spreadTicks, driftTicks, deviation.value))
  }

  /** The immutable shadow levels re-evaluated at the worst tolerated price. */
  function RevalidationProposal(c: Candidate, o: Observation, preflight: Preflight): Proposal {
    var source := c.shadow.proposal;
    Proposal(o.snapshot.cycleId, o.snapshot.snapshotId, o.snapshot.completedAt, c.revalidationId,
             source.symbol, source.side, Some(preflight.riskPrice), source.stopLoss, source.takeProfit)
  }

  function FreshRisk(s: Settings, c: Candidate, o: Observation, preflight: Preflight): Outcome<Revalidation>
    requires ValidContext(o.context)
  {
    var proposal := RevalidationProposal(c, o, preflight);
    var decision := R.Evaluation(s, proposal, o.snapshot, o.context, preflight.completedAt);
    if decision.None? then InvalidValue
    else if decision.value.status.HaltedDecision? then Raised(RiskHalted)
    else if !decision.value.status.Approved? || decision.value.sizing.None? then Raised(RiskRejected)
    else if decision.value.sizing.value.selectedVolume != Some(c.shadow.selectedVolume) then Raised(FreshVolumeMismatch)
    else Ok(Revalidation(proposal, decision.value, preflight.completedAt))
  }

  function SealIntent(c: Candidate, acceptance: Acceptance, policy: Policy, preflight: Preflight,
                      revalidation: Revalidation, createdAt: Instant): Outcome<Intent>
    requires ValidShadow(c.shadow)
  {
    var sizing := revalidation.decision.sizing;
    if sizing.None? || sizing.value.selectedVolume.None? then Raised(RiskRejected)
    else
      var proposal := c.shadow.proposal;
      var intent :=
        Intent(c.intentId, c.clientTradeId, c.sourceDigest, acceptance.accountRef, acceptance.environmentRef,
                           c.symbol, proposal.side, sizing.value.selectedVolume.value,
                           preflight.referencePrice, preflight.riskPrice, proposal.stopLoss.value,
                           proposal.takeProfit.value,
                           preflight.deviationPoints, createdAt, createdAt + policy.intentTtl);
      if ValidIntent(intent) then Ok(intent) else InvalidValue
  }

  /** The risk the decision allows is its percentage, at most one, of the equity it observed. */
  predicate RiskFromEquity(d: Decision) {
    && 0.0 < d.metrics.currentEquity && 0.0 <= d.metrics.permittedRiskPercent <= 1.0
    && d.sizing.Some?
    && d.sizing.value.allowedRisk == d.metrics.currentEquity * d.metrics.permittedRiskPercent / 100.0
  }

  lemma AtMostOnePercent(d: Decision)
    requires RiskFromEquity(d)
    ensures d.sizing.value.allowedRisk <= d.metrics.currentEquity / 100.0
  {
    MulLe(d.metrics.permittedRiskPercent, 1.0, d.metrics.currentEquity);
  }

  /** What a sealed intent owes to the preflight and the fresh risk decision it was built from. */
  predicate Sealed(i: Intent, preflight: Preflight, revalidation: Revalidation) {
    var d := revalidation.decision;
    && ValidIntent(i)
    && d.status.Approved? && d.sizing.Some? && ValidSizing(d.sizing.value) && d.sizing.value.status.SizeApproved?
    && i.volume == d.sizing.value.selectedVolume.value
    && d.sizing.value.stopDistance == AbsReal(i.riskPrice - i.stopLoss)
    && RiskFromEquity(d)
    && i.riskPrice == preflight.riskPrice && i.referencePrice == preflight.referencePrice
    && (if i.side == Buy then i.referencePrice <= i.riskPrice else i.riskPrice <= i.referencePrice)
    && i.deviationPoints == preflight.deviationPoints
    && revalidation.proposal.entry == Some(i.riskPrice) && revalidation.proposal.stopLoss == Some(i.stopLoss)
    && revalidation.proposal.takeProfit == Some(i.takeProfit) && revalidation.proposal.side == i.side
  }

  /**
   * After an approved fresh evaluation sealing always succeeds: the approved geometry already is the
   * geometry the sealed-intent constructor demands.
   */
  lemma SealingSucceeds(s: Settings, c: Candidate, o: Observation, acceptance: Acceptance, policy: Policy,
                        started: Instant, completed: Instant, createdAt: Instant)
    requires ValidSettings(s) && ValidPolicy(policy) && ValidShadow(c.shadow) && ValidContext(o.context)
    requires ValidateFresh(c, o, acceptance, policy, started, completed).Ok?
    requires var preflight := ValidateFresh(c, o, acceptance, policy, started, completed).value;
             FreshRisk(s, c, o, preflight).Ok?
    ensures var preflight := ValidateFresh(c, o, acceptance, policy, started, completed).value;
            var revalidation := FreshRisk(s, c, o, preflight).value;
            && SealIntent(c, acceptance, policy, preflight, revalidation, createdAt).Ok?
            && Sealed(SealIntent(c, acceptance, policy, preflight, revalidation, createdAt).value, preflight,
                      revalidation)
            && revalidation.decision.sizing.value.tickSize == o.snapshot.symbolInfo.tickSize
            && revalidation.decision.sizing.value.tickValue == o.snapshot.symbolInfo.tickValue
            && revalidation.decision.metrics.currentEquity == o.snapshot.equity
    ensures var i := SealIntent(c, acceptance, policy,
                                ValidateFresh(c, o, acceptance, policy, started, completed).value,
                                FreshRisk(s, c, o, ValidateFresh(c, o, acceptance, policy, started, completed).value)
                                .value, createdAt).value;
            && i.intentId == c.intentId && i.clientTradeId == c.clientTradeId && i.sourceDigest == c.sourceDigest
            && i.accountRef == acceptance.accountRef && i.environmentRef == acceptance.environmentRef
            && i.symbol == c.symbol && i.side == c.shadow.proposal.side && i.volume == c.shadow.selectedVolume
            && Some(i.stopLoss) == c.shadow.proposal.stopLoss && Some(i.takeProfit) == c.shadow.proposal.takeProfit
            && i.createdAt == createdAt && i.expiresAt == createdAt + policy.intentTtl
  {
    var preflight := ValidateFresh(c, o, acceptance, policy, started, completed).value;
    var proposal := RevalidationProposal(c, o, preflight);
    ApprovedFacts(s, proposal, o.snapshot, o.context, preflight.completedAt);
    DeviationIsExact(c, o, acceptance, policy, started, completed);
  }

  lemma ApprovedFacts(s: Settings, p: Proposal, snapshot: Snapshot, context: AccountContext, at: Instant)
    requires ValidSettings(s) && ValidContext(context)
    requires R.Evaluation(s, p, snapshot, context, at).Some?
    requires R.Evaluation(s, p, snapshot, context, at).value.status.Approved?
    ensures P.Acceptable(s, p, snapshot)
    ensures var d := R.Evaluation(s, p, snapshot, context, at).value;
            && d.sizing.Some? && ValidSizing(d.sizing.value) && d.sizing.value.status.SizeApproved?
            && d.sizing.value.stopDistance == AbsReal(p.entry.value - p.stopLoss.value)
            && d.sizing.value.tickSize == snapshot.symbolInfo.tickSize
            && d.sizing.value.tickValue == snapshot.symbolInfo.tickValue
            && d.metrics.currentEquity == snapshot.equity && RiskFromEquity(d)
  {
    hide *;
    R.EvaluationTotal(s, p, snapshot, context, at);
    R.ApprovalAllows(s, p, snapshot, context, at);
    R.ApprovedExactly(s, p, snapshot, context, at, 0);
    R.EarlyReasonsEmpty(s, p, snapshot, context, at);
    DistanceOf(p);
    AllowanceIsFromEquity(R.Evaluation(s, p, snapshot, context, at).value);
  }

  lemma DistanceOf(p: Proposal)
    requires P.StopDistance(p).Some?
    ensures p.entry.Some? && p.stopLoss.Some? && P.StopDistance(p).value == AbsReal(p.entry.value - p.stopLoss.value)
  {}

  lemma AllowanceIsFromEquity(d: Decision)
    requires 0.0 < d.metrics.currentEquity && 0.0 <= d.metrics.permittedRiskPercent <= 1.0 && d.sizing.Some?
    requires d.sizing.value.allowedRisk == d.metrics.currentEquity * d.metrics.permittedRiskPercent / 100.0
    ensures RiskFromEquity(d)
  {}

  /**
   * A buy is measured at the ask and judged at the ask plus the tolerated slippage, a sell at the bid and the bid
   * less that; the broker deviation, in points, is exactly that slippage. Spread and drift are those of the quote.
   */
  lemma DeviationIsExact(c: Candidate, o: Observation, acceptance: Acceptance, policy: Policy,
                         started: Instant, completed: Instant)
    requires ValidPolicy(policy)
    requires ValidateFresh(c, o, acceptance, policy, started, completed).Ok?
    ensures var f := ValidateFresh(c, o, acceptance, policy, started, completed).value;
            var info := o.snapshot.symbolInfo;
            var slippage := policy.maximumSlippageTicks * info.tickSize;
            && (c.shadow.proposal.side == Buy ==>
                  f.referencePrice == o.tick.ask && f.riskPrice == o.tick.ask + slippage)
            && (c.shadow.proposal.side == Sell ==>
                  f.referencePrice == o.tick.bid && f.riskPrice == o.tick.bid - slippage)
            && 0.0 <= slippage && 0.0 < f.referencePrice && 0.0 < f.riskPrice
            && 0 <= f.deviationPoints && f.deviationPoints as real * info.point == slippage
            && f.spreadTicks * info.tickSize == o.tick.spread
            && f.driftTicks * info.tickSize == AbsReal(f.referencePrice - c.shadow.hypotheticalEntry)
            && f.startedAt == started && f.completedAt == completed
            && f.analysisSnapshotId == c.shadow.snapshotId && f.executionSnapshotId == o.snapshot.snapshotId
  {
    var info := o.snapshot.symbolInfo;
    var slippage := policy.maximumSlippageTicks * info.tickSize;
    DivMul(slippage, info.point);
    MulLe(0.0, policy.maximumSlippageTicks, info.tickSize);
    DivMul(o.tick.spread, info.tickSize);
    DivMul(AbsReal(ReferencePrice(c.shadow.proposal.side, o.tick) - c.shadow.hypotheticalEntry), info.tickSize);
  }

  /** What a fresh preflight asks of the quote, the slippage it tolerates and the tick grid. */
  predicate FreshQuote(side: Side, tick: Tick, comparison: real, info: SymbolInfo, policy: Policy, now: Instant) {
    var slippage := Slippage(policy, info.tickSize);
    var quote := if side == Buy then tick.ask else tick.bid;
    && 0.0 < info.tickSize && 0.0 < info.point
    && (slippage / info.point).Floor as real * info.point == slippage
    && 0 <= now - tick.sourceTime <= policy.maximumTickAge
    && 0.0 <= tick.spread <= policy.maximumSpreadTicks * info.tickSize
    && AbsReal(quote - comparison) <= policy.maximumDriftTicks * info.tickSize
    && 0.0 < quote && (side == Sell ==> slippage < quote)
  }

  /** Everything a fresh preflight asks of its observation, in no order. */
  predicate Fresh(c: Candidate, o: Observation, acceptance: Acceptance, policy: Policy, started: Instant,
                  completed: Instant) {
    var snapshot, shadow := o.snapshot, c.shadow;
    && shadow.snapshotId != snapshot.snapshotId
    && 0 <= completed - started <= policy.maximumPreflight && completed - c.recordedAt <= policy.maximumDecisionAge
    && snapshot.cycleId == shadow.cycleId && snapshot.symbol == shadow.proposal.symbol
    && snapshot.accountRef == acceptance.accountRef == o.context.accountRef
    && o.environmentRef == acceptance.environmentRef && o.demoAccount && o.accountPositions == 0
    && o.capabilities == Capabilities(true, true, true, true, true, true)
    && snapshot.symbolInfo.mode != Disabled && snapshot.symbolInfo.mode != CloseOnly
    && FreshQuote(shadow.proposal.side, o.tick, shadow.hypotheticalEntry, snapshot.symbolInfo, policy, completed)
  }

  /** The fresh preflight accepts exactly a fresh observation. */
  lemma FreshIff(c: Candidate, o: Observation, acceptance: Acceptance, policy: Policy,
                 started: Instant, completed: Instant)
    requires ValidPolicy(policy)
    ensures ValidateFresh(c, o, acceptance, policy, started, completed).Ok?
            <==> Fresh(c, o, acceptance, policy, started, completed)
  {
    hide CheckQuote, ExactDeviationPoints, CheckCapabilities, WorstPrice, ReferencePrice, FreshQuote, Slippage;
    CapableIff(o.capabilities, o.snapshot.symbolInfo.mode);
    FreshQuoteIff(c.shadow.proposal.side, o.tick, c.shadow.hypotheticalEntry, o.snapshot.symbolInfo, policy, completed);
  }

  lemma FreshQuoteIff(side: Side, tick: Tick, comparison: real, info: SymbolInfo, policy: Policy, now: Instant)
    requires ValidPolicy(policy)
    ensures var quote := CheckQuote(tick, ReferencePrice(side, tick), comparison, info.tickSize, policy, now);
            && quote != InvalidValue
            && (FreshQuote(side, tick, comparison, info, policy, now) <==>
                  && quote.Ok? && 0.0 <= quote.value.0 && 0.0 < ReferencePrice(side, tick)
                  && ExactDeviationPoints(policy.maximumSlippageTicks, info.tickSize, info.point).Ok?
                  && 0.0 < WorstPrice(side, ReferencePrice(side, tick), Slippage(policy, info.tickSize)))
  {
    hide CheckQuote, ExactDeviationPoints, AbsReal, Slippage;
    QuoteIff(tick, ReferencePrice(side, tick), comparison, info.tickSize, policy, now);
    if 0.0 < info.tickSize {
      DeviationIff(policy, info.tickSize, info.point);
    }
  }

  lemma QuoteIff(tick: Tick, reference: real, comparison: real, tickSize: real, policy: Policy, now: Instant)
    ensures CheckQuote(tick, reference, comparison, tickSize, policy, now).Ok? <==>
              && 0.0 < tickSize && 0 <= now - tick.sourceTime <= policy.maximumTickAge
              && tick.spread <= policy.maximumSpreadTicks * tickSize
              && AbsReal(reference - comparison) <= policy.maximumDriftTicks * tickSize
    ensures CheckQuote(tick, reference, comparison, tickSize, policy, now).Ok? ==>
              (0.0 <= CheckQuote(tick, reference, comparison, tickSize, policy, now).value.0 <==> 0.0 <= tick.spread)
    ensures CheckQuote(tick, reference, comparison, tickSize, policy, now) != InvalidValue
  {
    if 0.0 < tickSize {
      AtMostRatio(tick.spread, tickSize, policy.maximumSpreadTicks);
      AtMostRatio(AbsReal(reference - comparison), tickSize, policy.maximumDriftTicks);
      DivMul(tick.spread, tickSize);
      DivPositive(tick.spread, tickSize);
      if 0.0 <= tick.spread / tickSize { MulLe(0.0, tick.spread / tickSize, tickSize); }
    }
  }

  lemma CapableIff(c: Capabilities, mode: TradeMode)
    ensures CheckCapabilities(c, mode).None? <==>
              c == Capabilities(true, true, true, true, true, true) && mode != Disabled && mode != CloseOnly
  {}

  lemma DeviationIff(policy: Policy, tickSize: real, point: real)
    requires ValidPolicy(policy) && 0.0 < tickSize
    ensures 0.0 <= Slippage(policy, tickSize)
    ensures ExactDeviationPoints(policy.maximumSlippageTicks, tickSize, point).Ok? <==>
              0.0 < point && (Slippage(policy, tickSize) / point).Floor as real * point == Slippage(policy, tickSize)
  {
    MulLe(0.0, policy.maximumSlippageTicks, tickSize);
    WholePoints(policy.maximumSlippageTicks, tickSize, Slippage(policy, tickSize), point);
  }

  lemma WholePoints(slippageTicks: real, tickSize: real, slippage: real, point: real)
    requires 0.0 < tickSize && slippage == slippageTicks * tickSize && 0.0 <= slippage
    ensures ExactDeviationPoints(slippageTicks, tickSize, point).Ok? <==>
              0.0 < point && (slippage / point).Floor as real * point == slippage
  {
    if 0.0 < point {
      DivPositive(slippage, point);
      OnGridMeans(slippage, point, (slippage / point).Floor);
    }
  }

  /** What is wrong with a terminal when it is refused for this reason: the quote or the broker's capabilities. */
  predicate TerminalFault(k: Category, side: Side, tick: Tick, comparison: real, tickSize: real, policy: Policy,
                          now: Instant, c: Capabilities, mode: TradeMode) {
    match k
    case BrokerMetadataChanged => tickSize <= 0.0 || !c.bindsSymbolInfo || !c.matchesAcceptance
    case StaleExecutionTick => now < tick.sourceTime || policy.maximumTickAge < now - tick.sourceTime
    case SpreadLimitExceeded => 0.0 < tickSize && policy.maximumSpreadTicks * tickSize < tick.spread
    case PriceDriftExceeded =>
      && 0.0 < tickSize
      && policy.maximumDriftTicks * tickSize < AbsReal((if side == Buy then tick.ask else tick.bid) - comparison)
    case UnsupportedExecutionMode => !c.modeSupported || !c.selectedAndVisible || mode == Disabled || mode == CloseOnly
    case UnsupportedFillingMode => !c.fillingAvailable
    case ProtectionUnsupported => !c.protectionAllowed
    case _ => false
  }

  lemma TerminalRefused(side: Side, tick: Tick, comparison: real, tickSize: real, policy: Policy, now: Instant,
                        c: Capabilities, mode: TradeMode)
    ensures var quote := CheckQuote(tick, ReferencePrice(side, tick), comparison, tickSize, policy, now);
            quote.Raised? ==> TerminalFault(quote.category, side, tick, comparison, tickSize, policy, now, c, mode)
    ensures CheckCapabilities(c, mode).Some? ==>
              TerminalFault(CheckCapabilities(c, mode).value, side, tick, comparison, tickSize, policy, now, c, mode)
  {
    if 0.0 < tickSize {
      AtMostRatio(tick.spread, tickSize, policy.maximumSpreadTicks);
      AtMostRatio(AbsReal(ReferencePrice(side, tick) - comparison), tickSize, policy.maximumDriftTicks);
    }
  }

  /** What is wrong with an observation when the fresh preflight is refused for this reason. */
  predicate FreshFault(k: Category, c: Candidate, o: Observation, acceptance: Acceptance, policy: Policy,
                       started: Instant, completed: Instant) {
    match k
    case PreflightExpired => completed < started || policy.maximumPreflight < completed - started
    case DecisionExpired => policy.maximumDecisionAge < completed - c.recordedAt
    case CycleOrSymbolMismatch =>
      o.snapshot.cycleId != c.shadow.cycleId || o.snapshot.symbol != c.shadow.proposal.symbol
    case AccountMismatch => !(o.snapshot.accountRef == acceptance.accountRef == o.context.accountRef)
    case EnvironmentMismatch => o.environmentRef != acceptance.environmentRef
    case NonDemoAccount => !o.demoAccount
    case OpenPositionConflict => o.accountPositions != 0
    case _ => TerminalFault(k, c.shadow.proposal.side, o.tick, c.shadow.hypotheticalEntry,
                            o.snapshot.symbolInfo.tickSize, policy, completed, o.capabilities,
                            o.snapshot.symbolInfo.mode)
  }

  /** A category the fresh preflight raises is always true of its observation. */
  lemma FreshRefused(c: Candidate, o: Observation, acceptance: Acceptance, policy: Policy,
                     started: Instant, completed: Instant)
    ensures var checked := ValidateFresh(c, o, acceptance, policy, started, completed);
            checked.Raised? ==> FreshFault(checked.category, c, o, acceptance, policy, started, completed)
  {
    hide CheckQuote, ExactDeviationPoints, CheckCapabilities, WorstPrice, ReferencePrice, Slippage, TerminalFault;
    TerminalRefused(c.shadow.proposal.side, o.tick, c.shadow.hypotheticalEntry, o.snapshot.symbolInfo.tickSize, policy,
                    completed, o.capabilities, o.snapshot.symbolInfo.mode);
    NoOtherTerminalFault(c.shadow.proposal.side, o.tick, c.shadow.hypotheticalEntry, o.snapshot.symbolInfo.tickSize,
                         policy, completed, o.capabilities, o.snapshot.symbolInfo.mode);
  }

  lemma NoOtherTerminalFault(side: Side, tick: Tick, comparison: real, tickSize: real, policy: Policy, now: Instant,
                             c: Capabilities, mode: TradeMode)
    ensures forall k :: TerminalFault(k, side, tick, comparison, tickSize, policy, now, c, mode) ==>
              k in {BrokerMetadataChanged, StaleExecutionTick, SpreadLimitExceeded, PriceDriftExceeded,
                    UnsupportedExecutionMode, UnsupportedFillingMode, ProtectionUnsupported}
  {}

  /** Fresh risk is the decision on the immutable levels at the worst tolerated price, with the volume unchanged. */
  lemma FreshRiskIff(s: Settings, c: Candidate, o: Observation, preflight: Preflight)
    requires ValidSettings(s) && ValidContext(o.context)
    ensures var source := c.shadow.proposal;
            var p := Proposal(o.snapshot.cycleId, o.snapshot.snapshotId, o.snapshot.completedAt, c.revalidationId,
                              source.symbol, source.side, Some(preflight.riskPrice), source.stopLoss,
                              source.takeProfit);
            var d := R.Evaluation(s, p, o.snapshot, o.context, preflight.completedAt);
            var risk := FreshRisk(s, c, o, preflight);
            && d.Some?
            && (risk.Ok? ==> risk.value == Revalidation(p, d.value, preflight.completedAt))
            && (risk.Ok? <==> d.value.status.Approved? && d.value.sizing.Some?
                              && d.value.sizing.value.selectedVolume == Some(c.shadow.selectedVolume))
            && (risk == Raised(RiskHalted) <==> d.value.status.HaltedDecision?)
            && (risk == Raised(RiskRejected) <==> d.value.status.Rejected?)
  {
    var p := RevalidationProposal(c, o, preflight);
    R.EvaluationTotal(s, p, o.snapshot, o.context, preflight.completedAt);
    hide R.Evaluation, ValidSizing;
  }

  /** What the guard reads about authority, approval and the last terminal observation. */
  datatype FinalObservation = FinalObservation(
    authorized: bool,          // every qualification, acceptance and approval check other than the control state
    demoAccount: bool,
    accountRef: Identifier,
    environmentRef: Identifier,
    positions: nat,
    terminalReady: bool,
    symbol: Identifier,
    tick: Tick,
    tickSize: real,
    mode: TradeMode,
    capabilities: Capabilities,
    linkageIntact: bool)

  function GuardFailure(i: Intent, acceptance: Acceptance, policy: Policy, o: FinalObservation,
                        claimOwned: bool, control: Control, now: Instant): Option<Category>
  {
    if !claimOwned then Some(ClaimNotOwned)
    else if i.expiresAt <= now then Some(IntentExpired)
    else if control != ControlEnabled then Some(ControlNotEnabled)
    else if !o.authorized then Some(NotAuthorized)
    else if !o.demoAccount then Some(NonDemoAccount)
    else if o.accountRef != i.accountRef || o.accountRef != acceptance.accountRef then Some(AccountMismatch)
    else if o.environmentRef != i.environmentRef || o.environmentRef != acceptance.environmentRef then
      Some(EnvironmentMismatch)
    else if o.positions != 0 then Some(OpenPositionConflict)
    else if !o.terminalReady then Some(EnvironmentMismatch)
    else if o.symbol != i.symbol then Some(CycleOrSymbolMismatch)
    else
      var quote := CheckQuote(o.tick, ReferencePrice(i.side, o.tick), i.referencePrice, o.tickSize, policy, now);
      if quote.Raised? then Some(quote.category)
      else
        var capability := CheckCapabilities(o.capabilities, o.mode);
        if capability.Some? then capability
        else if !o.linkageIntact then Some(AcceptanceChainInvalid)
        else None
  }

  /** The guard lets an order through exactly when every dispatch condition holds at that instant. */
  lemma GuardPassesIff(i: Intent, acceptance: Acceptance, policy: Policy, o: FinalObservation,
                       claimOwned: bool, control: Control, now: Instant)
    ensures GuardFailure(i, acceptance, policy, o, claimOwned, control, now).None? <==>
      && claimOwned && now < i.expiresAt && control == ControlEnabled && o.authorized && o.demoAccount
      && o.accountRef == i.accountRef == acceptance.accountRef
      && o.environmentRef == i.environmentRef == acceptance.environmentRef
      && o.positions == 0 && o.terminalReady && o.symbol == i.symbol
      && 0.0 < o.tickSize && 0 <= now - o.tick.sourceTime <= policy.maximumTickAge
      && o.tick.spread <= policy.maximumSpreadTicks * o.tickSize
      && AbsReal((if i.side == Buy then o.tick.ask else o.tick.bid) - i.referencePrice)
         <= policy.maximumDriftTicks * o.tickSize
      && o.capabilities == Capabilities(true, true, true, true, true, true)
      && o.mode != Disabled && o.mode != CloseOnly && o.linkageIntact
  {
    if 0.0 < o.tickSize {
      AtMostRatio(o.tick.spread, o.tickSize, policy.maximumSpreadTicks);
      AtMostRatio(AbsReal(ReferencePrice(i.side, o.tick) - i.referencePrice), o.tickSize, policy.maximumDriftTicks);
    }
  }

  /** What is wrong at the moment of dispatch when the guard refuses for this reason. */
  predicate GuardFault(k: Category, i: Intent, acceptance: Acceptance, policy: Policy, o: FinalObservation,
                       claimOwned: bool, control: Control, now: Instant) {
    match k
    case ClaimNotOwned => !claimOwned
    case IntentExpired => i.expiresAt <= now
    case ControlNotEnabled => control != ControlEnabled
    case NotAuthorized => !o.authorized
    case NonDemoAccount => !o.demoAccount
    case AccountMismatch => !(i.accountRef == o.accountRef == acceptance.accountRef)
    case EnvironmentMismatch =>
      !(i.environmentRef == o.environmentRef == acceptance.environmentRef) || !o.terminalReady
    case OpenPositionConflict => o.positions != 0
    case CycleOrSymbolMismatch => o.symbol != i.symbol
    case AcceptanceChainInvalid => !o.linkageIntact
    case _ => TerminalFault(k, i.side, o.tick, i.referencePrice, o.tickSize, policy, now, o.capabilities, o.mode)
  }

  /** A category the guard refuses for is always true at that instant. */
  lemma GuardRefused(i: Intent, acceptance: Acceptance, policy: Policy, o: FinalObservation,
                     claimOwned: bool, control: Control, now: Instant)
    ensures var failure := GuardFailure(i, acceptance, policy, o, claimOwned, control, now);
            failure.Some? ==> GuardFault(failure.value, i, acceptance, policy, o, claimOwned, control, now)
  {
    hide CheckQuote, CheckCapabilities, ReferencePrice, TerminalFault;
    TerminalRefused(i.side, o.tick, i.referencePrice, o.tickSize, policy, now, o.capabilities, o.mode);
    NoOtherTerminalFault(i.side, o.tick, i.referencePrice, o.tickSize, policy, now, o.capabilities, o.mode);
  }

  lemma AtMostRatio(amount: real, unit: real, limit: real)
    requires 0.0 < unit
    ensures amount / unit <= limit <==> amount <= limit * unit
  {
    var q := amount / unit;
    assert q * unit == amount;
    assert (limit - q) * unit == limit * unit - amount;
  }
}
