/** Account guards: drawdown and daily-loss states, and every account-wide rejection reason. */
module RiskAccount {
  import opened Prelude
  import opened RiskTypes

  datatype Assessment = Assessment(state: RiskState, metrics: Metrics, reasons: seq<Reason>)

  /** The reasons so far, followed by one more when its condition holds. */
  function Also(reasons: seq<Reason>, condition: bool, reason: Reason): seq<Reason> {
    if condition then reasons + [reason] else reasons
  }

  /** The place of a reason in the order they are declared and reported. */
  function Rank(r: Reason): nat {
    match r
    case TraceabilityMismatch => 0
    case SymbolMismatch => 1
    case AccountContextMismatch => 2
    case AccountContextFutureDated => 3
    case AccountContextPredatesSnapshot => 4
    case TradingDayContextInvalid => 5
    case AccountPositionCountInconsistent => 6
    case MaximumPositionsReached => 7
    case NonPositiveEquity => 8
    case DailyLossLimitReached => 9
    case MaximumDrawdownReached => 10
    case EntryPriceRequired => 11
    case EntryPriceInvalid => 12
    case StopLossRequired => 13
    case StopLossInvalid => 14
    case TakeProfitRequired => 15
    case TakeProfitInvalid => 16
    case InvalidStopGeometry => 17
    case InvalidTakeProfitGeometry => 18
    case RiskRewardBelowMinimum => 19
    case InvalidBrokerRiskMetadata => 20
    case PriceNotAlignedToTickSize => 21
    case StopDistanceBelowBrokerMinimum => 22
    case TakeProfitDistanceBelowBrokerMinimum => 23
    case SymbolTradingDisabled => 24
    case TradeSideNotAllowed => 25
    case AccountTradingDisabled => 26
    case ExpertTradingDisabled => 27
    case EvaluationTimestampInvalid => 28
    case MinimumVolumeExceedsRisk => 29
    case PositionSizeInvariantFailed => 30
  }

  /** The reasons below rank n whose fault is present, each once and in order. */
  ghost predicate Exactly(r: seq<Reason>, fault: Reason -> bool, n: nat) {
    && (forall i, j :: 0 <= i < j < |r| ==> Rank(r[i]) < Rank(r[j]))
    && forall x :: x in r <==> Rank(x) < n && fault(x)
  }

  lemma ExactlyNone(fault: Reason -> bool)
    ensures Exactly([], fault, 0)
  {}

  /** One more reason behind those below it. */
  lemma ExactlyAlso(r: seq<Reason>, fault: Reason -> bool, n: nat, reason: Reason)
    requires Exactly(r, fault, n) && n <= Rank(reason) && forall x :: n <= Rank(x) < Rank(reason) ==> !fault(x)
    ensures Exactly(Also(r, fault(reason), reason), fault, Rank(reason) + 1)
  {
    hide Rank;
    forall i | 0 <= i < |r| ensures Rank(r[i]) < Rank(reason) { assert r[i] in r; }
    RankInjective();
  }

  lemma RankInjective()
    ensures forall x, y :: Rank(x) == Rank(y) ==> x == y
  {}

  function DrawdownPercent(peakEquity: real, equity: real): real
    requires 0.0 < peakEquity
  {
    var peak := MaxReal(peakEquity, equity);
    MaxReal(0.0, peak - equity) / peak * 100.0
  }

  function DailyLossPercent(dayStart: real, equity: real): real
    requires 0.0 < dayStart
  {
    MaxReal(0.0, dayStart - equity) / dayStart * 100.0
  }

  function DrawdownState(s: Settings, drawdown: real): RiskState {
    if s.drawdownStopPercent <= drawdown then Halted
    else if s.drawdownSafeModePercent <= drawdown then SafeMode
    else if s.drawdownWarningPercent <= drawdown then Caution
    else Normal
  }

  /** The three conditions that stop the account, whatever the drawdown band says. */
  predicate StopsTrading(s: Settings, c: AccountContext, equity: real)
    requires ValidContext(c)
  {
    || equity <= 0.0
    || s.maximumDailyLossPercent <= DailyLossPercent(c.dayStartEquity, equity)
    || s.drawdownStopPercent <= DrawdownPercent(c.peakEquity, equity)
  }

  function AccountState(s: Settings, c: AccountContext, equity: real): RiskState
    requires ValidContext(c)
  {
    if StopsTrading(s, c, equity) then Halted else DrawdownState(s, DrawdownPercent(c.peakEquity, equity))
  }

  function PermittedPercent(s: Settings, state: RiskState): real {
    match state
    case Halted => 0.0
    case Normal => s.normalRiskPercent
    case _ => s.minimumRiskPercent
  }

  /** Reasons that do not depend on equity, in the order they are reported. */
  function ContextReasons(s: Settings, snapshot: Snapshot, c: AccountContext, at: Instant): seq<Reason> {
    var r1 := Also([], c.cycleId != snapshot.cycleId || c.snapshotId != snapshot.snapshotId, TraceabilityMismatch);
    var r2 := Also(r1, c.accountRef != snapshot.accountRef, AccountContextMismatch);
    var r3 := Also(r2, at < c.asOf, AccountContextFutureDated);
    var r4 := Also(r3, c.asOf < snapshot.completedAt, AccountContextPredatesSnapshot);
    var r5 := Also(r4, c.asOf < c.tradingDayStartedAt, TradingDayContextInvalid);
    var r6 := Also(r5, c.openPositionCount < snapshot.openPositions, AccountPositionCountInconsistent);
    Also(r6, s.maximumOpenPositions <= c.openPositionCount, MaximumPositionsReached)
  }

  /** The stop reasons, appended to those already collected. */
  function WithEquityReasons(r: seq<Reason>, s: Settings, c: AccountContext, equity: real): seq<Reason>
    requires ValidContext(c)
  {
    var r1 := Also(r, equity <= 0.0, NonPositiveEquity);
    var r2 := Also(r1, s.maximumDailyLossPercent <= DailyLossPercent(c.dayStartEquity, equity), DailyLossLimitReached);
    Also(r2, s.drawdownStopPercent <= DrawdownPercent(c.peakEquity, equity), MaximumDrawdownReached)
  }

  function AccountMetrics(s: Settings, c: AccountContext, equity: real): Metrics
    requires ValidContext(c)
  {
    var peak := MaxReal(c.peakEquity, equity);
    Metrics(c.accountRef, equity, peak,
            MaxReal(0.0, peak - equity), DrawdownPercent(c.peakEquity, equity),
            MaxReal(0.0, c.dayStartEquity - equity), DailyLossPercent(c.dayStartEquity, equity),
            c.openPositionCount, PermittedPercent(s, AccountState(s, c, equity)))
  }

  function Assess(s: Settings, snapshot: Snapshot, c: AccountContext, at: Instant): Assessment
    requires ValidContext(c)
  {
    Assessment(AccountState(s, c, snapshot.equity), AccountMetrics(s, c, snapshot.equity),
               WithEquityReasons(ContextReasons(s, snapshot, c, at), s, c, snapshot.equity))
  }

  class AccountRiskEvaluator {
    const settings: Settings

    constructor (settings: Settings)
      ensures this.settings == settings
    {
      this.settings := settings;
    }

    /** Collects reasons in place and lets each stop condition override the drawdown band. */
    method Evaluate(snapshot: Snapshot, context: AccountContext, at: Instant) returns (a: Assessment)
      requires ValidSettings(settings) && ValidContext(context)
      ensures a == Assess(settings, snapshot, context, at)
    {
      var reasons: seq<Reason> := [];
      if context.cycleId != snapshot.cycleId || context.snapshotId != snapshot.snapshotId {
        reasons := reasons + [TraceabilityMismatch];
      }
      if context.accountRef != snapshot.accountRef {
        reasons := reasons + [AccountContextMismatch];
      }
      if context.asOf > at {
        reasons := reasons + [AccountContextFutureDated];
      }
      if context.asOf < snapshot.completedAt {
        reasons := reasons + [AccountContextPredatesSnapshot];
      }
      if context.tradingDayStartedAt > context.asOf {
        reasons := reasons + [TradingDayContextInvalid];
      }
      if context.openPositionCount < snapshot.openPositions {
        reasons := reasons + [AccountPositionCountInconsistent];
      }
      if context.openPositionCount >= settings.maximumOpenPositions {
        reasons := reasons + [MaximumPositionsReached];
      }
      assert reasons == ContextReasons(settings, snapshot, context, at);

      var equity := snapshot.equity;
      var effectivePeak := MaxReal(context.peakEquity, equity);
      var drawdownAmount := MaxReal(0.0, effectivePeak - equity);
      var drawdownPercent := drawdownAmount / effectivePeak * 100.0;
      var dailyLossAmount := MaxReal(0.0, context.dayStartEquity - equity);
      var dailyLossPercent := dailyLossAmount / context.dayStartEquity * 100.0;
      var state := DrawdownState(settings, drawdownPercent);
      ghost var contextual := reasons;
      if equity <= 0.0 {
        reasons := reasons + [NonPositiveEquity];
        state := Halted;
      }
      if dailyLossPercent >= settings.maximumDailyLossPercent {
        reasons := reasons + [DailyLossLimitReached];
        state := Halted;
      }
      if drawdownPercent >= settings.drawdownStopPercent {
        reasons := reasons + [MaximumDrawdownReached];
        state := Halted;
      }
      assert reasons == WithEquityReasons(contextual, settings, context, equity);
      a := Assessment(state,
                      Metrics(context.accountRef, equity, effectivePeak, drawdownAmount, drawdownPercent,
                              dailyLossAmount, dailyLossPercent, context.openPositionCount,
                              if state.Halted? then 0.0
                              else if state.Normal? then settings.normalRiskPercent
                              else settings.minimumRiskPercent),
                      reasons);
    }
  }

  lemma PercentagesNonNegative(c: AccountContext, equity: real)
    requires ValidContext(c)
    ensures 0.0 <= DrawdownPercent(c.peakEquity, equity)
    ensures 0.0 <= DailyLossPercent(c.dayStartEquity, equity)
  {
    var peak := MaxReal(c.peakEquity, equity);
    DivPositive(MaxReal(0.0, peak - equity), peak);
    DivPositive(MaxReal(0.0, c.dayStartEquity - equity), c.dayStartEquity);
  }

  predicate StopReason(r: Reason) {
    r == NonPositiveEquity || r == DailyLossLimitReached || r == MaximumDrawdownReached
  }

  lemma StopReasonsAppended(r: seq<Reason>, s: Settings, c: AccountContext, equity: real)
    requires ValidContext(c) && forall i :: 0 <= i < |r| ==> !StopReason(r[i])
    ensures r <= WithEquityReasons(r, s, c, equity)
    ensures StopsTrading(s, c, equity) <==> WithEquityReasons(r, s, c, equity) != r
    ensures StopsTrading(s, c, equity) <==> exists x :: x in WithEquityReasons(r, s, c, equity) && StopReason(x)
  {
    var all := WithEquityReasons(r, s, c, equity);
    if StopsTrading(s, c, equity) {
      assert StopReason(all[|r|]) && all[|r|] in all;
    } else {
      assert all == r;
    }
  }

  predicate NoStops(r: seq<Reason>) { forall i :: 0 <= i < |r| ==> !StopReason(r[i]) }

  lemma AlsoNoStops(r: seq<Reason>, condition: bool, reason: Reason)
    requires NoStops(r) && !StopReason(reason)
    ensures NoStops(Also(r, condition, reason))
  {}

  lemma NoneIsNoStop()
    ensures NoStops([])
  {}

  lemma ContextReasonsAreNotStops(s: Settings, snapshot: Snapshot, c: AccountContext, at: Instant)
    ensures NoStops(ContextReasons(s, snapshot, c, at))
  {
    hide NoStops, Also;
    NoneIsNoStop();
    var r1 := Also([], c.cycleId != snapshot.cycleId || c.snapshotId != snapshot.snapshotId, TraceabilityMismatch);
    AlsoNoStops([], c.cycleId != snapshot.cycleId || c.snapshotId != snapshot.snapshotId, TraceabilityMismatch);
    var r2 := Also(r1, c.accountRef != snapshot.accountRef, AccountContextMismatch);
    AlsoNoStops(r1, c.accountRef != snapshot.accountRef, AccountContextMismatch);
    var r3 := Also(r2, at < c.asOf, AccountContextFutureDated);
    AlsoNoStops(r2, at < c.asOf, AccountContextFutureDated);
    var r4 := Also(r3, c.asOf < snapshot.completedAt, AccountContextPredatesSnapshot);
    AlsoNoStops(r3, c.asOf < snapshot.completedAt, AccountContextPredatesSnapshot);
    var r5 := Also(r4, c.asOf < c.tradingDayStartedAt, TradingDayContextInvalid);
    AlsoNoStops(r4, c.asOf < c.tradingDayStartedAt, TradingDayContextInvalid);
    var r6 := Also(r5, c.openPositionCount < snapshot.openPositions, AccountPositionCountInconsistent);
    AlsoNoStops(r5, c.openPositionCount < snapshot.openPositions, AccountPositionCountInconsistent);
    AlsoNoStops(r6, s.maximumOpenPositions <= c.openPositionCount, MaximumPositionsReached);
  }

  /** Every assessment builds valid metrics, and it is halted exactly when a stop reason is reported. */
  lemma AssessmentSound(s: Settings, snapshot: Snapshot, c: AccountContext, at: Instant)
    requires ValidSettings(s) && ValidContext(c)
    ensures ValidMetrics(Assess(s, snapshot, c, at).metrics)
    ensures Assess(s, snapshot, c, at).state.Halted? <==>
            exists r :: r in Assess(s, snapshot, c, at).reasons && StopReason(r)
  {
    PercentagesNonNegative(c, snapshot.equity);
    ContextReasonsAreNotStops(s, snapshot, c, at);
    StopReasonsAppended(ContextReasons(s, snapshot, c, at), s, c, snapshot.equity);
  }

  lemma DrawdownAntitone(peakEquity: real, e1: real, e2: real)
    requires 0.0 < peakEquity && e1 <= e2
    ensures DrawdownPercent(peakEquity, e2) <= DrawdownPercent(peakEquity, e1)
  {
    if e2 < peakEquity {
      DivLe(peakEquity - e2, peakEquity - e1, peakEquity);
    } else {
      var peak := MaxReal(peakEquity, e1);
      DivPositive(MaxReal(0.0, peak - e1), peak);
    }
  }

  lemma DailyLossAntitone(dayStart: real, e1: real, e2: real)
    requires 0.0 < dayStart && e1 <= e2
    ensures DailyLossPercent(dayStart, e2) <= DailyLossPercent(dayStart, e1)
  {
    DivLe(MaxReal(0.0, dayStart - e2), MaxReal(0.0, dayStart - e1), dayStart);
  }

  /** With equity the only difference, losing less never stops the account or lowers the permitted risk. */
  lemma HealthierAccount(s: Settings, c: AccountContext, e1: real, e2: real)
    requires ValidSettings(s) && ValidContext(c) && e1 <= e2 && !StopsTrading(s, c, e1)
    ensures !StopsTrading(s, c, e2)
    ensures forall r :: WithEquityReasons(r, s, c, e2) == r
    ensures PermittedPercent(s, AccountState(s, c, e1)) <= PermittedPercent(s, AccountState(s, c, e2))
  {
    DrawdownAntitone(c.peakEquity, e1, e2);
    DailyLossAntitone(c.dayStartEquity, e1, e2);
  }

  /** What is wrong with the account when this reason is reported. */
  predicate AccountFault(r: Reason, s: Settings, snapshot: Snapshot, c: AccountContext, at: Instant) {
    var equity := snapshot.equity;
    match r
    case TraceabilityMismatch => c.cycleId != snapshot.cycleId || c.snapshotId != snapshot.snapshotId
    case AccountContextMismatch => c.accountRef != snapshot.accountRef
    case AccountContextFutureDated => at < c.asOf
    case AccountContextPredatesSnapshot => c.asOf < snapshot.completedAt
    case TradingDayContextInvalid => c.asOf < c.tradingDayStartedAt
    case AccountPositionCountInconsistent => c.openPositionCount < snapshot.openPositions
    case MaximumPositionsReached => s.maximumOpenPositions <= c.openPositionCount
    case NonPositiveEquity => equity <= 0.0
    case DailyLossLimitReached =>
      s.maximumDailyLossPercent * c.dayStartEquity
      <= if equity < c.dayStartEquity then 100.0 * (c.dayStartEquity - equity) else 0.0
    case MaximumDrawdownReached =>
      if equity < c.peakEquity then s.drawdownStopPercent * c.peakEquity <= 100.0 * (c.peakEquity - equity)
      else s.drawdownStopPercent <= 0.0
    case _ => false
  }

  lemma PercentReached(amount: real, whole: real, limit: real)
    requires 0.0 < whole
    ensures amount / whole * 100.0 * whole == 100.0 * amount
    ensures limit <= amount / whole * 100.0 <==> limit * whole <= 100.0 * amount
  {
    DivMul(amount, whole);
    assert amount / whole * 100.0 * whole == 100.0 * amount;
    LimitReached(amount / whole * 100.0, 100.0 * amount, whole, limit);
  }

  lemma LimitReached(percent: real, scaled: real, whole: real, limit: real)
    requires 0.0 < whole && percent * whole == scaled
    ensures limit <= percent <==> limit * whole <= scaled
  {
    if limit <= percent { MulLe(limit, percent, whole); } else { MulLess(percent, limit, whole); }
  }

  lemma MulLess(a: real, b: real, c: real)
    requires a < b && 0.0 < c
    ensures a * c < b * c
  {}

  lemma LimitsReached(s: Settings, snapshot: Snapshot, c: AccountContext, at: Instant)
    requires ValidContext(c)
    ensures AccountFault(DailyLossLimitReached, s, snapshot, c, at)
            <==> s.maximumDailyLossPercent <= DailyLossPercent(c.dayStartEquity, snapshot.equity)
    ensures AccountFault(MaximumDrawdownReached, s, snapshot, c, at)
            <==> s.drawdownStopPercent <= DrawdownPercent(c.peakEquity, snapshot.equity)
  {
    var peak := MaxReal(c.peakEquity, snapshot.equity);
    PercentReached(MaxReal(0.0, c.dayStartEquity - snapshot.equity), c.dayStartEquity, s.maximumDailyLossPercent);
    PercentReached(MaxReal(0.0, peak - snapshot.equity), peak, s.drawdownStopPercent);
    if c.peakEquity <= snapshot.equity { DivOfMul(0.0, peak); }
  }

  /** Every account reason is reported exactly when its fault is present, once, and in the declared order. */
  lemma AccountReasonsExact(s: Settings, snapshot: Snapshot, c: AccountContext, at: Instant)
    requires ValidContext(c)
    ensures Exactly(Assess(s, snapshot, c, at).reasons, r => AccountFault(r, s, snapshot, c, at), 31)
  {
    var fault := r => AccountFault(r, s, snapshot, c, at);
    AllReported(s, snapshot, c, at, fault);
    hide Exactly, AccountFault, Assess;
  }

  lemma AccountReported(s: Settings, snapshot: Snapshot, c: AccountContext, at: Instant, r: Reason)
    requires ValidContext(c)
    ensures r in Assess(s, snapshot, c, at).reasons <==> AccountFault(r, s, snapshot, c, at)
  {
    AccountReasonsExact(s, snapshot, c, at);
    hide AccountFault, Assess;
  }

  lemma AllReported(s: Settings, snapshot: Snapshot, c: AccountContext, at: Instant, fault: Reason -> bool)
    requires ValidContext(c) && forall r :: fault(r) == AccountFault(r, s, snapshot, c, at)
    ensures Exactly(Assess(s, snapshot, c, at).reasons, fault, 31)
  {
    hide Exactly, Also, DailyLossPercent, DrawdownPercent, ContextReasons, AccountMetrics, AccountState;
    var context := ContextReasons(s, snapshot, c, at);
    ContextReported(s, snapshot, c, at, fault);
    LimitsReached(s, snapshot, c, at);
    ExactlyAlso(context, fault, 8, NonPositiveEquity);
    var r1 := Also(context, fault(NonPositiveEquity), NonPositiveEquity);
    ExactlyAlso(r1, fault, 9, DailyLossLimitReached);
    var r2 := Also(r1, fault(DailyLossLimitReached), DailyLossLimitReached);
    ExactlyAlso(r2, fault, 10, MaximumDrawdownReached);
    NothingBeyond(Also(r2, fault(MaximumDrawdownReached), MaximumDrawdownReached), fault, 11);
  }

  lemma NothingBeyond(r: seq<Reason>, fault: Reason -> bool, n: nat)
    requires Exactly(r, fault, n) && forall x :: n <= Rank(x) ==> !fault(x)
    ensures Exactly(r, fault, 31)
  {}

  lemma ContextReported(s: Settings, snapshot: Snapshot, c: AccountContext, at: Instant, fault: Reason -> bool)
    requires forall r :: fault(r) == AccountFault(r, s, snapshot, c, at)
    ensures Exactly(ContextReasons(s, snapshot, c, at), fault, 8)
  {
    hide Exactly, Also;
    ExactlyNone(fault);
    var r1 := Also([], fault(TraceabilityMismatch), TraceabilityMismatch);
    ExactlyAlso([], fault, 0, TraceabilityMismatch);
    var r2 := Also(r1, fault(AccountContextMismatch), AccountContextMismatch);
    ExactlyAlso(r1, fault, 1, AccountContextMismatch);
    var r3 := Also(r2, fault(AccountContextFutureDated), AccountContextFutureDated);
    ExactlyAlso(r2, fault, 3, AccountContextFutureDated);
    var r4 := Also(r3, fault(AccountContextPredatesSnapshot), AccountContextPredatesSnapshot);
    ExactlyAlso(r3, fault, 4, AccountContextPredatesSnapshot);
    var r5 := Also(r4, fault(TradingDayContextInvalid), TradingDayContextInvalid);
    ExactlyAlso(r4, fault, 5, TradingDayContextInvalid);
    var r6 := Also(r5, fault(AccountPositionCountInconsistent), AccountPositionCountInconsistent);
    ExactlyAlso(r5, fault, 6, AccountPositionCountInconsistent);
    var r7 := Also(r6, fault(MaximumPositionsReached), MaximumPositionsReached);
    ExactlyAlso(r6, fault, 7, MaximumPositionsReached);
  }

  /**
   * The account in plain terms: what its percentages measure, what stops it, and which state and which permitted
   * percentage a drawdown leads to while it is not stopped.
   */
  lemma AccountBands(s: Settings, snapshot: Snapshot, c: AccountContext, at: Instant)
    requires ValidSettings(s) && ValidContext(c)
    ensures var a := Assess(s, snapshot, c, at);
            var m, equity := a.metrics, snapshot.equity;
            var stopped := || equity <= 0.0 || s.maximumDailyLossPercent <= m.dailyLossPercent
                           || s.drawdownStopPercent <= m.drawdownPercent;
            && m.accountRef == c.accountRef && m.currentEquity == equity && m.openPositionCount == c.openPositionCount
            && m.effectivePeak == (if c.peakEquity < equity then equity else c.peakEquity)
            && m.drawdownAmount == m.effectivePeak - equity
            && m.drawdownPercent * m.effectivePeak == 100.0 * m.drawdownAmount
            && m.dailyLossAmount == (if equity < c.dayStartEquity then c.dayStartEquity - equity else 0.0)
            && m.dailyLossPercent * c.dayStartEquity == 100.0 * m.dailyLossAmount
            && (stopped <==> a.state == Halted) && (stopped ==> m.permittedRiskPercent == 0.0)
            && (!stopped && m.drawdownPercent < s.drawdownWarningPercent ==>
                  a.state == Normal && m.permittedRiskPercent == s.normalRiskPercent)
            && (!stopped && s.drawdownWarningPercent <= m.drawdownPercent ==>
                  && m.permittedRiskPercent == s.minimumRiskPercent
                  && a.state == if m.drawdownPercent < s.drawdownSafeModePercent then Caution else SafeMode)
  {
    var peak := MaxReal(c.peakEquity, snapshot.equity);
    PercentReached(MaxReal(0.0, c.dayStartEquity - snapshot.equity), c.dayStartEquity, 0.0);
    PercentReached(MaxReal(0.0, peak - snapshot.equity), peak, 0.0);
  }
}
