/** The composed risk decision: validation, account guards, sizing, and the decision schema. */
module RiskEngineModel {
  import opened Prelude
  import opened RiskTypes
  import A = RiskAccount
  import P = RiskProposal
  import Z = RiskSizing

  /** Reasons collected before sizing is attempted. */
  function EarlyReasons(s: Settings, p: Proposal, snapshot: Snapshot, c: AccountContext, at: Instant): seq<Reason>
    requires ValidContext(c)
  {
    A.Also(P.Judge(s, p, snapshot).reasons + A.Assess(s, snapshot, c, at).reasons,
           at < snapshot.completedAt || at < p.timestamp, EvaluationTimestampInvalid)
  }

  function SizingFor(s: Settings, p: Proposal, snapshot: Snapshot, c: AccountContext): Z.SizingOutcome
    requires ValidContext(c)
  {
    if P.StopDistance(p).None? then Z.Sized(None, [])
    else Z.Calculate(snapshot.equity, A.AccountMetrics(s, c, snapshot.equity).permittedRiskPercent,
                     P.StopDistance(p).value, snapshot.symbolInfo)
  }

  function StatusFor(state: RiskState, reasons: seq<Reason>): Status {
    if state.Halted? then HaltedDecision else if reasons != [] then Rejected else Approved
  }

  function DecisionFrom(p: Proposal, snapshot: Snapshot, c: AccountContext, at: Instant,
                        account: A.Assessment, reasons: seq<Reason>, sizing: Option<Sizing>): Decision {
    Decision(snapshot.cycleId, snapshot.snapshotId, at, p.proposalId, c.accountRef, snapshot.symbol,
             StatusFor(account.state, reasons), account.state, reasons, account.metrics, sizing)
  }

  /** The decision, or None when a schema constructor on the way raises. */
  function Evaluation(s: Settings, p: Proposal, snapshot: Snapshot, c: AccountContext, at: Instant): Option<Decision>
    requires ValidContext(c)
  {
    var account := A.Assess(s, snapshot, c, at);
    var early := EarlyReasons(s, p, snapshot, c, at);
    var outcome := if early == [] then SizingFor(s, p, snapshot, c) else Z.Sized(None, []);
    if outcome.SchemaError? then None
    else
      var d := DecisionFrom(p, snapshot, c, at, account, early + outcome.reasons, outcome.result);
      if ValidDecision(d) then Some(d) else None
  }

  class RiskEngine {
    const settings: Settings
    const account: A.AccountRiskEvaluator
    const proposal: P.ProposalValidator

    ghost predicate Valid() {
      ValidSettings(settings) && account.settings == settings && proposal.settings == settings
    }

    constructor (settings: Settings)
      requires ValidSettings(settings)
      ensures Valid() && this.settings == settings
    {
      this.settings := settings;
      this.account := new A.AccountRiskEvaluator(settings);
      this.proposal := new P.ProposalValidator(settings);
    }

    method Evaluate(p: Proposal, snapshot: Snapshot, context: AccountContext, at: Instant)
      returns (decision: Option<Decision>)
      requires Valid() && ValidContext(context)
      ensures decision == Evaluation(settings, p, snapshot, context, at)
    {
      var proposalResult := proposal.Validate(p, snapshot);
      var accountResult := account.Evaluate(snapshot, context, at);
      var reasons := proposalResult.reasons;
      reasons := reasons + accountResult.reasons;
      if at < snapshot.completedAt || at < p.timestamp {
        reasons := reasons + [EvaluationTimestampInvalid];
      }
      assert reasons == EarlyReasons(settings, p, snapshot, context, at);
      decision := SizeAndDecide(p, snapshot, context, at, reasons, proposalResult.stopDistance, accountResult);
    }

    /** The sizing and decision section of `Evaluate`. */
    method SizeAndDecide(p: Proposal, snapshot: Snapshot, context: AccountContext, at: Instant,
                         early: seq<Reason>, stopDistance: Option<real>, accountResult: A.Assessment)
      returns (decision: Option<Decision>)
      requires ValidContext(context) && accountResult == A.Assess(settings, snapshot, context, at)
      requires early == EarlyReasons(settings, p, snapshot, context, at) && stopDistance == P.StopDistance(p)
      ensures decision == Evaluation(settings, p, snapshot, context, at)
    {
      var reasons := early;
      var sizing: Option<Sizing> := None;
      ghost var outcome := Z.Sized(None, []);
      if reasons == [] && stopDistance.Some? {
        var sized := Z.Calculate(accountResult.metrics.currentEquity, accountResult.metrics.permittedRiskPercent,
                                 stopDistance.value, snapshot.symbolInfo);
        outcome := sized;
        if sized.SchemaError? {
          return None;
        }
        sizing := sized.result;
        reasons := reasons + sized.reasons;
      }
      assert outcome == if early == [] then SizingFor(settings, p, snapshot, context) else Z.Sized(None, []);
      assert reasons == early + outcome.reasons;
      var status := if accountResult.state.Halted? then HaltedDecision
                    else if reasons != [] then Rejected else Approved;
      var d := Decision(snapshot.cycleId, snapshot.snapshotId, at, p.proposalId, context.accountRef, snapshot.symbol,
                        status, accountResult.state, reasons, accountResult.metrics, sizing);
      decision := if ValidDecision(d) then Some(d) else None;
    }
  }

  /** Silent validation always leaves a positive stop distance to size. */
  lemma SilentValidationHasStop(s: Settings, p: Proposal, snapshot: Snapshot)
    requires P.Judge(s, p, snapshot).reasons == []
    ensures P.StopDistance(p).Some? && 0.0 < P.StopDistance(p).value
  {
    P.NoReasonsIffAcceptable(s, p, snapshot);
  }

  lemma EarlyReasonsEmpty(s: Settings, p: Proposal, snapshot: Snapshot, c: AccountContext, at: Instant)
    requires ValidSettings(s) && ValidContext(c)
    ensures EarlyReasons(s, p, snapshot, c, at) == [] <==>
            && P.Acceptable(s, p, snapshot)
            && A.ContextReasons(s, snapshot, c, at) == []
            && !A.StopsTrading(s, c, snapshot.equity)
            && snapshot.completedAt <= at && p.timestamp <= at
    ensures A.StopsTrading(s, c, snapshot.equity) ==> A.Assess(s, snapshot, c, at).reasons != []
  {
    P.NoReasonsIffAcceptable(s, p, snapshot);
    A.ContextReasonsAreNotStops(s, snapshot, c, at);
    A.StopReasonsAppended(A.ContextReasons(s, snapshot, c, at), s, c, snapshot.equity);
  }

  /** What the sizer may return on the engine's inputs: a valid record, and no reasons exactly with an approval. */
  predicate SizedSoundly(outcome: Z.SizingOutcome) {
    && outcome.Sized?
    && (outcome.result.Some? ==> ValidSizing(outcome.result.value))
    && (outcome.reasons == [] <==> outcome.result.Some? && outcome.result.value.status.SizeApproved?)
    && PositionSizeInvariantFailed !in outcome.reasons
  }

  lemma SizerSound(equity: real, percent: real, stop: real, info: SymbolInfo)
    requires percent <= 1.0
    ensures SizedSoundly(Z.Calculate(equity, percent, stop, info))
  {
    if Z.CoherentInputs(equity, percent, stop, info) {
      Z.SizingIsMaximal(equity, percent, stop, info, 0);
    }
  }

  /**
   * Totality: in exact arithmetic no schema constructor on the way ever raises, the decision is approved
   * exactly when it has no reasons, its sizing is valid, and the sizer's invariant-failed reason never appears.
   */
  lemma EvaluationTotal(s: Settings, p: Proposal, snapshot: Snapshot, c: AccountContext, at: Instant)
    requires ValidSettings(s) && ValidContext(c)
    ensures Evaluation(s, p, snapshot, c, at).Some?
    ensures var d := Evaluation(s, p, snapshot, c, at).value;
            && ValidDecision(d) && ValidMetrics(d.metrics)
            && (d.status.Approved? <==> d.reasons == [])
            && (d.sizing.Some? ==> ValidSizing(d.sizing.value))
            && PositionSizeInvariantFailed !in d.reasons
  {
    A.AssessmentSound(s, snapshot, c, at);
    EarlyReasonsEmpty(s, p, snapshot, c, at);
    EarlyReasonsOmitSizing(s, p, snapshot, c, at);
    if EarlyReasons(s, p, snapshot, c, at) == [] {
      SilentValidationHasStop(s, p, snapshot);
      SizerSound(snapshot.equity, A.AccountMetrics(s, c, snapshot.equity).permittedRiskPercent,
                 P.StopDistance(p).value, snapshot.symbolInfo);
    }
    SizedDecisionValid(s, p, snapshot, c, at);
  }

  /** Whatever the sizer soundly returned, the decision built from it meets its schema. */
  lemma SizedDecisionValid(s: Settings, p: Proposal, snapshot: Snapshot, c: AccountContext, at: Instant)
    requires ValidContext(c)
    requires var account, early := A.Assess(s, snapshot, c, at), EarlyReasons(s, p, snapshot, c, at);
             && ValidMetrics(account.metrics) && account.metrics.accountRef == c.accountRef
             && (account.state.Halted? ==> early != [])
             && PositionSizeInvariantFailed !in early
             && (early == [] ==> SizedSoundly(SizingFor(s, p, snapshot, c)))
    ensures Evaluation(s, p, snapshot, c, at).Some?
    ensures var d := Evaluation(s, p, snapshot, c, at).value;
            && ValidDecision(d) && ValidMetrics(d.metrics)
            && (d.status.Approved? <==> d.reasons == [])
            && (d.sizing.Some? ==> ValidSizing(d.sizing.value))
            && PositionSizeInvariantFailed !in d.reasons
  {
    hide A.Assess, EarlyReasons, SizingFor, ValidSizing, ValidMetrics;
    var early := EarlyReasons(s, p, snapshot, c, at);
    if early == [] {
      var outcome := SizingFor(s, p, snapshot, c);
      assert early + outcome.reasons == outcome.reasons;
    } else {
      assert early + [] == early;
    }
  }

  lemma EarlyReasonsOmitSizing(s: Settings, p: Proposal, snapshot: Snapshot, c: AccountContext, at: Instant)
    requires ValidContext(c)
    ensures PositionSizeInvariantFailed !in EarlyReasons(s, p, snapshot, c, at)
  {
    ProposalReasonsOmitSizing(s, p, snapshot);
    AccountReasonsOmitSizing(s, snapshot, c, at);
    hide P.Judge, A.Assess;
  }

  lemma ProposalReasonsOmitSizing(s: Settings, p: Proposal, snapshot: Snapshot)
    ensures PositionSizeInvariantFailed !in P.Judge(s, p, snapshot).reasons
  {
    var present := P.WithPresenceReasons(P.TraceReasons(p, snapshot), p);
    var shaped := P.WithGeometryReasons(present, s, p);
    var brokered := P.WithBrokerReasons(shaped, p, snapshot.symbolInfo);
    PresenceOmitsSizing(p, snapshot);
    GeometryOmitsSizing(present, s, p);
    BrokerOmitsSizing(shaped, p, snapshot.symbolInfo);
    PermissionOmitsSizing(brokered, p, snapshot);
    hide P.WithPresenceReasons, P.WithGeometryReasons, P.WithBrokerReasons, P.WithPermissionReasons;
  }

  lemma PresenceOmitsSizing(p: Proposal, snapshot: Snapshot)
    ensures PositionSizeInvariantFailed !in P.WithPresenceReasons(P.TraceReasons(p, snapshot), p)
  {}

  lemma GeometryOmitsSizing(r: seq<Reason>, s: Settings, p: Proposal)
    requires PositionSizeInvariantFailed !in r
    ensures PositionSizeInvariantFailed !in P.WithGeometryReasons(r, s, p)
  {
    hide P.StopDistance, P.RewardDistance, P.AllPresent;
  }

  lemma BrokerOmitsSizing(r: seq<Reason>, p: Proposal, info: SymbolInfo)
    requires PositionSizeInvariantFailed !in r
    ensures PositionSizeInvariantFailed !in P.WithBrokerReasons(r, p, info)
  {
    hide P.StopDistance, P.RewardDistance, P.SomeMisaligned, P.TooClose;
  }

  lemma PermissionOmitsSizing(r: seq<Reason>, p: Proposal, snapshot: Snapshot)
    requires PositionSizeInvariantFailed !in r
    ensures PositionSizeInvariantFailed !in P.WithPermissionReasons(r, p, snapshot)
  {
    hide P.SideForbidden;
  }

  lemma AccountReasonsOmitSizing(s: Settings, snapshot: Snapshot, c: AccountContext, at: Instant)
    requires ValidContext(c)
    ensures PositionSizeInvariantFailed !in A.Assess(s, snapshot, c, at).reasons
  {
    hide A.DrawdownPercent, A.DailyLossPercent;
    assert PositionSizeInvariantFailed !in A.ContextReasons(s, snapshot, c, at);
  }

  /** An approval says exactly this about the inputs, and its volume is the largest affordable grid point. */
  lemma ApprovedExactly(s: Settings, p: Proposal, snapshot: Snapshot, c: AccountContext, at: Instant, k: int)
    requires ValidSettings(s) && ValidContext(c)
    ensures Evaluation(s, p, snapshot, c, at).Some?
    ensures var d := Evaluation(s, p, snapshot, c, at).value;
            d.status.Approved? <==>
              && EarlyReasons(s, p, snapshot, c, at) == []
              && P.StopDistance(p).Some?
              && Z.CoherentInputs(snapshot.equity, d.metrics.permittedRiskPercent, P.StopDistance(p).value,
                                  snapshot.symbolInfo)
              && Z.Affordable(Z.Base(snapshot.equity, d.metrics.permittedRiskPercent, P.StopDistance(p).value,
                                     snapshot.symbolInfo), snapshot.symbolInfo.volumeMin)
    ensures var d := Evaluation(s, p, snapshot, c, at).value;
            d.status.Approved? ==>
              var base := Z.Base(snapshot.equity, d.metrics.permittedRiskPercent, P.StopDistance(p).value,
                                 snapshot.symbolInfo);
              var n := Z.Increments(base);
              && d.sizing == Some(Z.WithVolume(base, Z.GridPoint(base, n)))
              && 0 <= n && Z.Affordable(base, Z.GridPoint(base, n))
              && (Z.Affordable(base, Z.GridPoint(base, k)) ==> k <= n)
  {
    EvaluationTotal(s, p, snapshot, c, at);
    var percent := A.AccountMetrics(s, c, snapshot.equity).permittedRiskPercent;
    if EarlyReasons(s, p, snapshot, c, at) == [] {
      SilentValidationHasStop(s, p, snapshot);
      var stop, info := P.StopDistance(p).value, snapshot.symbolInfo;
      if Z.CoherentInputs(snapshot.equity, percent, stop, info) {
        Z.SizingIsMaximal(snapshot.equity, percent, stop, info, k);
      }
    }
  }

  /** An approval allows its percentage, at most one, of the equity it observed. */
  lemma ApprovalAllows(s: Settings, p: Proposal, snapshot: Snapshot, c: AccountContext, at: Instant)
    requires ValidSettings(s) && ValidContext(c)
    requires Evaluation(s, p, snapshot, c, at).Some? && Evaluation(s, p, snapshot, c, at).value.status.Approved?
    ensures var d := Evaluation(s, p, snapshot, c, at).value;
            && d.metrics.currentEquity == snapshot.equity && 0.0 < snapshot.equity
            && 0.0 <= d.metrics.permittedRiskPercent <= 1.0 && d.sizing.Some?
            && d.sizing.value.allowedRisk == snapshot.equity * d.metrics.permittedRiskPercent / 100.0
            && P.StopDistance(p) == Some(d.sizing.value.stopDistance) && d.sizing.value.status.SizeApproved?
            && d.sizing.value.tickSize == snapshot.symbolInfo.tickSize
            && d.sizing.value.tickValue == snapshot.symbolInfo.tickValue
  {
    hide *;
    EvaluationTotal(s, p, snapshot, c, at);
    ApprovedExactly(s, p, snapshot, c, at, 0);
    MetricsObserveEquity(s, p, snapshot, c, at);
    var m := Evaluation(s, p, snapshot, c, at).value.metrics;
    PercentAtMostOne(m);
    var stop, info := P.StopDistance(p).value, snapshot.symbolInfo;
    Z.BaseFields(snapshot.equity, m.permittedRiskPercent, stop, info);
    var base := Z.Base(snapshot.equity, m.permittedRiskPercent, stop, info);
    Z.VolumeKeepsFields(base, Z.GridPoint(base, Z.Increments(base)));
  }

  /** What is wrong before any sizing is attempted, when this reason is reported. */
  predicate EarlyFault(r: Reason, s: Settings, p: Proposal, snapshot: Snapshot, c: AccountContext, at: Instant) {
    || P.ProposalFault(r, s, p, snapshot)
    || A.AccountFault(r, s, snapshot, c, at)
    || (r == EvaluationTimestampInvalid && (at < snapshot.completedAt || at < p.timestamp))
  }

  /** The broker gives no volume grid to size on, or the account may risk nothing. */
  predicate Unsizable(info: SymbolInfo, percent: real) {
    || percent <= 0.0 || info.tickValue <= 0.0 || info.contractSize <= 0.0
    || info.volumeMin <= 0.0 || info.volumeMax < info.volumeMin || info.volumeStep <= 0.0
  }

  /** What is wrong with the size of an otherwise acceptable trade, when this reason is reported. */
  predicate SizeFault(r: Reason, equity: real, percent: real, stop: real, info: SymbolInfo)
    requires 0.0 < info.tickSize
  {
    match r
    case InvalidBrokerRiskMetadata => Unsizable(info, percent)
    case MinimumVolumeExceedsRisk =>
      && !Unsizable(info, percent)
      && equity * percent / 100.0 < stop / info.tickSize * info.tickValue * info.volumeMin
    case _ => false
  }

  /**
   * Every reason of a decision is there exactly because its fault is present: those of the proposal, the account and
   * the time always, those of the size only when nothing else is wrong.
   */
  lemma DecisionReasonsExact(s: Settings, p: Proposal, snapshot: Snapshot, c: AccountContext, at: Instant, r: Reason)
    requires ValidSettings(s) && ValidContext(c)
    ensures Evaluation(s, p, snapshot, c, at).Some?
    ensures var d := Evaluation(s, p, snapshot, c, at).value;
            if exists x :: EarlyFault(x, s, p, snapshot, c, at)
            then r in d.reasons <==> EarlyFault(r, s, p, snapshot, c, at)
            else
              && p.entry.Some? && p.stopLoss.Some? && 0.0 < snapshot.symbolInfo.tickSize
              && (r in d.reasons <==>
                    SizeFault(r, snapshot.equity, d.metrics.permittedRiskPercent,
                              AbsReal(p.entry.value - p.stopLoss.value), snapshot.symbolInfo))
  {
    EvaluationTotal(s, p, snapshot, c, at);
    var early := EarlyReasons(s, p, snapshot, c, at);
    forall x ensures x in early <==> EarlyFault(x, s, p, snapshot, c, at) {
      EarlyReported(s, p, snapshot, c, at, x);
    }
    hide EarlyFault, EarlyReasons, ValidDecision, ValidSizing, ValidMetrics, A.Assess;
    if early == [] {
      EarlyParts(s, p, snapshot, c, at);
      var percent := A.AccountMetrics(s, c, snapshot.equity).permittedRiskPercent;
      SizeReported(snapshot.equity, percent, P.StopDistance(p).value, snapshot.symbolInfo, r);
    } else {
      assert early[0] in early;
    }
  }

  lemma EarlyReported(s: Settings, p: Proposal, snapshot: Snapshot, c: AccountContext, at: Instant, r: Reason)
    requires ValidContext(c)
    ensures r in EarlyReasons(s, p, snapshot, c, at) <==> EarlyFault(r, s, p, snapshot, c, at)
  {
    hide P.ProposalFault, A.AccountFault, P.Judge, A.Assess;
    P.ProposalReported(s, p, snapshot, r);
    A.AccountReported(s, snapshot, c, at, r);
  }

  lemma EarlyParts(s: Settings, p: Proposal, snapshot: Snapshot, c: AccountContext, at: Instant)
    requires ValidSettings(s) && ValidContext(c) && EarlyReasons(s, p, snapshot, c, at) == []
    ensures 0.0 < snapshot.equity && 0.0 < snapshot.symbolInfo.tickSize && P.StopDistance(p).Some?
            && p.entry.Some? && p.stopLoss.Some? && 0.0 < P.StopDistance(p).value
            && P.StopDistance(p).value == AbsReal(p.entry.value - p.stopLoss.value)
  {
    EarlyReasonsEmpty(s, p, snapshot, c, at);
  }

  lemma SizeReported(equity: real, percent: real, stop: real, info: SymbolInfo, r: Reason)
    requires 0.0 < equity && 0.0 < stop && 0.0 < info.tickSize && percent <= 1.0
    ensures var sized := Z.Calculate(equity, percent, stop, info);
            sized.Sized? && (r in sized.reasons <==> SizeFault(r, equity, percent, stop, info))
  {
    if Z.CoherentInputs(equity, percent, stop, info) {
      Z.SizingIsMaximal(equity, percent, stop, info, 0);
      hide ValidSizing;
    }
  }

  /**
   * The approved volume in plain terms: on the broker's grid between its bounds, its loss at the stop within the
   * permitted percentage of equity, and one more step would break the maximum or that allowance.
   */
  lemma ApprovedVolume(s: Settings, p: Proposal, snapshot: Snapshot, c: AccountContext, at: Instant)
    requires ValidSettings(s) && ValidContext(c)
    requires Evaluation(s, p, snapshot, c, at).Some? && Evaluation(s, p, snapshot, c, at).value.status.Approved?
    ensures p.entry.Some? && p.stopLoss.Some? && 0.0 < snapshot.symbolInfo.tickSize
    ensures var d, info := Evaluation(s, p, snapshot, c, at).value, snapshot.symbolInfo;
            var loss := AbsReal(p.entry.value - p.stopLoss.value) / info.tickSize * info.tickValue;
            var allowed := snapshot.equity * d.metrics.permittedRiskPercent / 100.0;
            && 0.0 < info.volumeStep && d.sizing.Some? && d.sizing.value.selectedVolume.Some?
            && var v := d.sizing.value.selectedVolume.value;
               && info.volumeMin <= v <= info.volumeMax && OnGrid(v - info.volumeMin, info.volumeStep)
               && loss * v <= allowed
               && (info.volumeMax < v + info.volumeStep || allowed < loss * (v + info.volumeStep))
               && d.sizing.value.riskPercent == d.metrics.permittedRiskPercent
               && d.sizing.value.lossPerLot == loss && d.sizing.value.allowedRisk == allowed
               && d.sizing.value.estimatedRisk.Some? && d.sizing.value.estimatedRisk.value == loss * v
  {
    hide *;
    ApprovedExactly(s, p, snapshot, c, at, 0);
    EarlyParts(s, p, snapshot, c, at);
    var percent := Evaluation(s, p, snapshot, c, at).value.metrics.permittedRiskPercent;
    var stop, info := P.StopDistance(p).value, snapshot.symbolInfo;
    Z.BaseFields(snapshot.equity, percent, stop, info);
    var n := Z.Increments(Z.Base(snapshot.equity, percent, stop, info));
    ApprovedExactly(s, p, snapshot, c, at, n + 1);
    VolumeFacts(Z.Base(snapshot.equity, percent, stop, info), n, stop / info.tickSize * info.tickValue,
                snapshot.equity * percent / 100.0);
  }

  lemma VolumeFacts(base: Sizing, n: int, loss: real, allowed: real)
    requires 0.0 < base.volumeStep && loss == base.lossPerLot && allowed == base.allowedRisk
    requires 0 <= n && Z.Affordable(base, Z.GridPoint(base, n)) && !Z.Affordable(base, Z.GridPoint(base, n + 1))
    ensures var sizing, v := Z.WithVolume(base, Z.GridPoint(base, n)), Z.GridPoint(base, n);
            && sizing.selectedVolume == Some(v) && sizing.estimatedRisk.Some?
            && sizing.estimatedRisk.value == loss * v
            && sizing.riskPercent == base.riskPercent && sizing.lossPerLot == loss && sizing.allowedRisk == allowed
            && base.volumeMin <= v <= base.volumeMax && OnGrid(v - base.volumeMin, base.volumeStep)
            && loss * v <= allowed && (base.volumeMax < v + base.volumeStep || allowed < loss * (v + base.volumeStep))
  {
    Z.GridPointOnGrid(base, n);
    Z.GridPointMonotone(base, 0, n);
    assert Z.GridPoint(base, 0) == base.volumeMin;
    assert Z.GridPoint(base, n + 1) == Z.GridPoint(base, n) + base.volumeStep;
  }

  lemma PercentAtMostOne(m: Metrics)
    requires ValidMetrics(m)
    ensures 0.0 <= m.permittedRiskPercent <= 1.0
  {}

  lemma MetricsObserveEquity(s: Settings, p: Proposal, snapshot: Snapshot, c: AccountContext, at: Instant)
    requires ValidContext(c) && Evaluation(s, p, snapshot, c, at).Some?
    ensures Evaluation(s, p, snapshot, c, at).value.metrics.currentEquity == snapshot.equity
  {
    hide SizingFor, ValidDecision;
  }

  const SAMPLE_SETTINGS := Settings(0.25, 0.5, 1.0, 3, 3.0, 5.0, 8.0, 10.0, 1.5)
  const SAMPLE_SYMBOL := SymbolInfo(1.0, 1.0, 1.0, 1.0, 1.0, 10.0, 1.0, 0, Full)
  const SAMPLE_SNAPSHOT := Snapshot("c", "s", "EURUSD", 0, "a", 10000.0, true, true, 0, SAMPLE_SYMBOL)
  const SAMPLE_PROPOSAL := Proposal("c", "s", 0, "p", "EURUSD", Buy, Some(100.0), Some(90.0), Some(120.0))
  const SAMPLE_CONTEXT := AccountContext("c", "s", "a", 0, 0, 10000.0, 10000.0, 0)

  /** A healthy account with a well-formed proposal is approved, and may lose fifty at a stop ten away: five lots. */
  lemma HealthyAccountApproved()
    ensures ValidSettings(SAMPLE_SETTINGS) && ValidContext(SAMPLE_CONTEXT)
    ensures var e := Evaluation(SAMPLE_SETTINGS, SAMPLE_PROPOSAL, SAMPLE_SNAPSHOT, SAMPLE_CONTEXT, 0);
            && e.Some? && e.value.status.Approved?
            && e.value.sizing.Some? && e.value.sizing.value.selectedVolume == Some(5.0)
  {
    var s, p, n, c := SAMPLE_SETTINGS, SAMPLE_PROPOSAL, SAMPLE_SNAPSHOT, SAMPLE_CONTEXT;
    HealthyAccountUnrestricted();
    EarlyReasonsEmpty(s, p, n, c, 0);
    ApprovedExactly(s, p, n, c, 0, 0);
    var base := Z.Base(10000.0, 0.5, 10.0, SAMPLE_SYMBOL);
    assert base.lossPerLot == 10.0 && base.allowedRisk == 50.0 && base.rawVolume == 5.0;
    assert Z.Increments(base) == 4;
    assert Z.GridPoint(base, 4) == 5.0;
  }

  lemma HealthyAccountUnrestricted()
    ensures P.Acceptable(SAMPLE_SETTINGS, SAMPLE_PROPOSAL, SAMPLE_SNAPSHOT)
    ensures A.ContextReasons(SAMPLE_SETTINGS, SAMPLE_SNAPSHOT, SAMPLE_CONTEXT, 0) == []
    ensures !A.StopsTrading(SAMPLE_SETTINGS, SAMPLE_CONTEXT, 10000.0)
    ensures A.AccountMetrics(SAMPLE_SETTINGS, SAMPLE_CONTEXT, 10000.0).permittedRiskPercent == 0.5
  {
    assert A.DrawdownPercent(10000.0, 10000.0) == 0.0;
    assert A.DailyLossPercent(10000.0, 10000.0) == 0.0;
  }

  /** Only equity separates the two evaluations: approval survives a gain, and the volume never shrinks. */
  lemma NoRiskIncreaseAfterLosses(s: Settings, p: Proposal, snapshot: Snapshot, c: AccountContext, at: Instant,
                                  richer: real)
    requires ValidSettings(s) && ValidContext(c) && snapshot.equity <= richer
    requires Evaluation(s, p, snapshot, c, at).Some? && Evaluation(s, p, snapshot, c, at).value.status.Approved?
    ensures var d1 := Evaluation(s, p, snapshot, c, at).value;
            var e2 := Evaluation(s, p, snapshot.(equity := richer), c, at);
            && e2.Some? && e2.value.status.Approved?
            && d1.sizing.Some? && d1.sizing.value.selectedVolume.Some?
            && e2.value.sizing.Some? && e2.value.sizing.value.selectedVolume.Some?
            && d1.sizing.value.selectedVolume.value <= e2.value.sizing.value.selectedVolume.value
            && d1.metrics.permittedRiskPercent <= e2.value.metrics.permittedRiskPercent
  {
    var later := snapshot.(equity := richer);
    EvaluationTotal(s, p, snapshot, c, at);
    EvaluationTotal(s, p, later, c, at);
    EarlyReasonsEmpty(s, p, snapshot, c, at);
    EarlyReasonsEmpty(s, p, later, c, at);
    A.HealthierAccount(s, c, snapshot.equity, richer);
    assert P.Acceptable(s, p, later);
    assert A.ContextReasons(s, later, c, at) == A.ContextReasons(s, snapshot, c, at);
    SilentValidationHasStop(s, p, snapshot);
    Z.SizingMonotone(snapshot.equity, A.AccountMetrics(s, c, snapshot.equity).permittedRiskPercent,
                     richer, A.AccountMetrics(s, c, richer).permittedRiskPercent,
                     P.StopDistance(p).value, snapshot.symbolInfo);
  }
}
