/** Values exchanged by the deterministic risk stage, with the schema rules their constructors enforce. */
module RiskTypes {
  import opened Prelude

  type Identifier = string
  // Instants are microseconds since a fixed epoch, in UTC.
  type Instant = int

  datatype Side = Buy | Sell

  datatype TradeMode = Disabled | LongOnly | ShortOnly | CloseOnly | Full

  datatype RiskState = Normal | Caution | SafeMode | Halted

  datatype Status = Approved | Rejected | HaltedDecision

  datatype Reason =
    | TraceabilityMismatch
    | SymbolMismatch
    | AccountContextMismatch
    | AccountContextFutureDated
    | AccountContextPredatesSnapshot
    | TradingDayContextInvalid
    | AccountPositionCountInconsistent
    | MaximumPositionsReached
    | NonPositiveEquity
    | DailyLossLimitReached
    | MaximumDrawdownReached
    | EntryPriceRequired
    | EntryPriceInvalid
    | StopLossRequired
    | StopLossInvalid
    | TakeProfitRequired
    | TakeProfitInvalid
    | InvalidStopGeometry
    | InvalidTakeProfitGeometry
    | RiskRewardBelowMinimum
    | InvalidBrokerRiskMetadata
    | PriceNotAlignedToTickSize
    | StopDistanceBelowBrokerMinimum
    | TakeProfitDistanceBelowBrokerMinimum
    | SymbolTradingDisabled
    | TradeSideNotAllowed
    | AccountTradingDisabled
    | ExpertTradingDisabled
    | EvaluationTimestampInvalid
    | MinimumVolumeExceedsRisk
    | PositionSizeInvariantFailed

  datatype Settings = Settings(
    minimumRiskPercent: real,
    normalRiskPercent: real,
    maximumRiskPercent: real,
    maximumOpenPositions: int,
    maximumDailyLossPercent: real,
    drawdownWarningPercent: real,
    drawdownSafeModePercent: real,
    drawdownStopPercent: real,
    minimumRiskReward: real)

  /** What the settings constructor accepts. */
  predicate ValidSettings(s: Settings) {
    && 0.0 <= s.minimumRiskPercent <= s.normalRiskPercent <= s.maximumRiskPercent <= 1.0
    && 0 < s.maximumOpenPositions
    && 0.0 <= s.maximumDailyLossPercent <= 100.0
    && 0.0 <= s.drawdownWarningPercent < s.drawdownSafeModePercent < s.drawdownStopPercent <= 100.0
    && 0.0 < s.minimumRiskReward
  }

  datatype SymbolInfo = SymbolInfo(
    point: real,
    tickSize: real,
    tickValue: real,
    contractSize: real,
    volumeMin: real,
    volumeMax: real,
    volumeStep: real,
    stopsLevel: nat,
    mode: TradeMode)

  datatype Snapshot = Snapshot(
    cycleId: Identifier,
    snapshotId: Identifier,
    symbol: Identifier,
    completedAt: Instant,
    accountRef: Identifier,
    equity: real,
    tradeAllowed: bool,
    expertAllowed: bool,
    openPositions: nat,
    symbolInfo: SymbolInfo)

  datatype Proposal = Proposal(
    cycleId: Identifier,
    snapshotId: Identifier,
    timestamp: Instant,
    proposalId: Identifier,
    symbol: Identifier,
    side: Side,
    entry: Option<real>,
    stopLoss: Option<real>,
    takeProfit: Option<real>)

  datatype AccountContext = AccountContext(
    cycleId: Identifier,
    snapshotId: Identifier,
    accountRef: Identifier,
    asOf: Instant,
    tradingDayStartedAt: Instant,
    peakEquity: real,
    dayStartEquity: real,
    openPositionCount: nat)

  /** What the account-context constructor accepts. */
  predicate ValidContext(c: AccountContext) {
    0.0 < c.peakEquity && 0.0 < c.dayStartEquity && c.tradingDayStartedAt <= c.asOf
  }

  datatype Metrics = Metrics(
    accountRef: Identifier,
    currentEquity: real,
    effectivePeak: real,
    drawdownAmount: real,
    drawdownPercent: real,
    dailyLossAmount: real,
    dailyLossPercent: real,
    openPositionCount: nat,
    permittedRiskPercent: real)

  predicate ValidMetrics(m: Metrics) {
    && 0.0 < m.effectivePeak
    && 0.0 <= m.drawdownAmount && 0.0 <= m.drawdownPercent
    && 0.0 <= m.dailyLossAmount && 0.0 <= m.dailyLossPercent
    && 0.0 <= m.permittedRiskPercent <= 1.0
  }

  datatype SizingStatus = SizeApproved | SizeRejected

  datatype Sizing = Sizing(
    status: SizingStatus,
    riskPercent: real,
    allowedRisk: real,
    stopDistance: real,
    tickSize: real,
    tickValue: real,
    contractSize: real,
    ticksToStop: real,
    lossPerLot: real,
    rawVolume: real,
    volumeMin: real,
    volumeMax: real,
    volumeStep: real,
    minimumVolumeRisk: real,
    selectedVolume: Option<real>,
    estimatedRisk: Option<real>)

  /** Field ranges of the sizing record. */
  predicate SizingFieldsInRange(s: Sizing) {
    && 0.0 <= s.riskPercent <= 1.0
    && 0.0 < s.allowedRisk && 0.0 < s.stopDistance
    && 0.0 < s.tickSize && 0.0 < s.tickValue && 0.0 < s.contractSize
    && 0.0 < s.ticksToStop && 0.0 < s.lossPerLot && 0.0 < s.rawVolume
    && 0.0 < s.volumeMin && 0.0 < s.volumeMax && 0.0 < s.volumeStep
    && 0.0 < s.minimumVolumeRisk
    && (s.selectedVolume.Some? ==> 0.0 < s.selectedVolume.value)
    && (s.estimatedRisk.Some? ==> 0.0 < s.estimatedRisk.value)
  }

  /** The whole sizing schema: ranges, recomputed arithmetic, and the final broker-grid rules. */
  predicate ValidSizing(s: Sizing) {
    && SizingFieldsInRange(s)
    && s.volumeMin <= s.volumeMax
    && s.ticksToStop == s.stopDistance / s.tickSize
    && s.lossPerLot == s.ticksToStop * s.tickValue
    && s.rawVolume == s.allowedRisk / s.lossPerLot
    && s.minimumVolumeRisk == s.lossPerLot * s.volumeMin
    && match s.status {
         case SizeRejected => s.selectedVolume.None? && s.estimatedRisk.None?
         case SizeApproved =>
           && s.selectedVolume.Some? && s.estimatedRisk.Some?
           && s.volumeMin <= s.selectedVolume.value <= s.volumeMax
           && OnGrid(s.selectedVolume.value - s.volumeMin, s.volumeStep)
           && s.estimatedRisk.value == s.lossPerLot * s.selectedVolume.value
           && s.estimatedRisk.value <= s.allowedRisk
       }
  }

  datatype Decision = Decision(
    cycleId: Identifier,
    snapshotId: Identifier,
    timestamp: Instant,
    proposalId: Identifier,
    accountRef: Identifier,
    symbol: Identifier,
    status: Status,
    riskState: RiskState,
    reasons: seq<Reason>,
    metrics: Metrics,
    sizing: Option<Sizing>)

  /** The decision schema: an approval carries approved sizing and nothing else does. */
  predicate ValidDecision(d: Decision) {
    && d.metrics.accountRef == d.accountRef
    && if d.status.Approved? then
         && d.reasons == []
         && d.sizing.Some? && d.sizing.value.status.SizeApproved?
         && !d.riskState.Halted?
       else
         && d.reasons != []
         && (d.status.HaltedDecision? <==> d.riskState.Halted?)
         && (d.sizing.Some? ==> d.sizing.value.status.SizeRejected?)
  }
}
