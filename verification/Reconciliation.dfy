/** Composite broker reconciliation and the loss bound it completes. */
module ReconciliationModel {
  import opened Prelude
  import opened RiskTypes
  import opened ExecutionTypes
  import F = PreflightModel

  predicate IdentityMatches(i: Intent, receipt: Receipt, e: Evidence) {
    && e.accountRef == i.accountRef && e.environmentRef == i.environmentRef
    && e.symbol == i.symbol && e.side == i.side
    && receipt.startedAt <= e.dispatchStartedAt
    && e.dispatchCompletedAt <= e.observedAt
    && (e.orderId.Some? || e.dealId.Some?)
    && e.positionId.Some?
  }

  predicate AdverseFill(i: Intent, fill: real) {
    if i.side == Buy then i.riskPrice < fill else fill < i.riskPrice
  }

  function Failed(match_: Match, category: Category, at: Instant, evidence: seq<Evidence>): Reconciliation {
    Reconciliation(match_, at, evidence, Some(category))
  }

  function Reconcile(i: Intent, receipt: Receipt, evidence: seq<Evidence>, at: Instant): Reconciliation {
    if evidence == [] then Failed(NotFound, ReconciliationTimeout, at, [])
    else if |evidence| != 1 then Failed(Mismatch, BrokerIdentityMismatch, at, evidence)
    else
      var e := evidence[0];
      if IdentityMatches(i, receipt, e) && e.volume != i.volume then Failed(Mismatch, PartialFill, at, evidence)
      else if !IdentityMatches(i, receipt, e) || e.volume != i.volume then
        Failed(Mismatch, BrokerIdentityMismatch, at, evidence)
      else if e.fillPrice.None? then Failed(Mismatch, ReconciliationMismatch, at, evidence)
      else if AdverseFill(i, e.fillPrice.value) then Failed(Mismatch, FillOutsidePolicy, at, evidence)
      else if e.stopLoss != Some(i.stopLoss) || e.takeProfit != Some(i.takeProfit) then
        Failed(Mismatch, ProtectiveLevelMismatch, at, evidence)
      else Reconciliation(MatchConfirmed, at, evidence, None)
  }

  /** The whole of what a confirmation proves about the broker's report. */
  predicate ProvesExecution(i: Intent, e: Evidence) {
    && e.accountRef == i.accountRef && e.environmentRef == i.environmentRef
    && e.symbol == i.symbol && e.side == i.side && e.volume == i.volume
    && (e.orderId.Some? || e.dealId.Some?) && e.positionId.Some?
    && e.fillPrice.Some?
    && (if i.side == Buy then e.fillPrice.value <= i.riskPrice else i.riskPrice <= e.fillPrice.value)
    && e.stopLoss == Some(i.stopLoss) && e.takeProfit == Some(i.takeProfit)
  }

  /** Confirmation needs one report that proves this execution within this dispatch window, and only that. */
  lemma ConfirmedIff(i: Intent, receipt: Receipt, evidence: seq<Evidence>, at: Instant)
    ensures Reconcile(i, receipt, evidence, at).match_ == MatchConfirmed <==>
            && |evidence| == 1 && ProvesExecution(i, evidence[0])
            && receipt.startedAt <= evidence[0].dispatchStartedAt
            && evidence[0].dispatchCompletedAt <= evidence[0].observedAt
    ensures Reconcile(i, receipt, evidence, at).match_ == NotFound <==> evidence == []
    ensures Reconcile(i, receipt, evidence, at).evidence == evidence
    ensures Reconcile(i, receipt, evidence, at).match_ == MatchConfirmed
            <==> Reconcile(i, receipt, evidence, at).failure.None?
  {}

  /** Each failure says exactly what the broker's reports lack. */
  lemma FailureIff(i: Intent, receipt: Receipt, evidence: seq<Evidence>, at: Instant)
    ensures var failure := Reconcile(i, receipt, evidence, at).failure;
            && (failure == Some(ReconciliationTimeout) <==> evidence == [])
            && (|evidence| == 1 ==>
                  var e := evidence[0];
                  var same :=
                    && e.accountRef == i.accountRef && e.environmentRef == i.environmentRef && e.symbol == i.symbol
                    && e.side == i.side && (e.orderId.Some? || e.dealId.Some?) && e.positionId.Some?
                    && receipt.startedAt <= e.dispatchStartedAt && e.dispatchCompletedAt <= e.observedAt;
                  var whole := same && e.volume == i.volume;
                  var worse := e.fillPrice.Some? && if i.side == Buy then i.riskPrice < e.fillPrice.value
                                                    else e.fillPrice.value < i.riskPrice;
                  var held := e.stopLoss == Some(i.stopLoss) && e.takeProfit == Some(i.takeProfit);
                  && (failure == Some(PartialFill) <==> same && e.volume != i.volume)
                  && (failure == Some(BrokerIdentityMismatch) <==> !same)
                  && (failure == Some(ReconciliationMismatch) <==> whole && e.fillPrice.None?)
                  && (failure == Some(FillOutsidePolicy) <==> whole && worse)
                  && (failure == Some(ProtectiveLevelMismatch) <==> whole && e.fillPrice.Some? && !worse && !held))
            && (1 < |evidence| ==> failure == Some(BrokerIdentityMismatch))
  {}

  /**
   * A fill is outside the policy exactly when it is worse than the fresh quote by more than the tolerated slippage:
   * a fill at the quote never is.
   */
  lemma FillJudged(s: Settings, c: F.Candidate, o: F.Observation, acceptance: F.Acceptance, policy: F.Policy,
                   started: Instant, completed: Instant, createdAt: Instant, fill: real)
    requires ValidSettings(s) && F.ValidPolicy(policy) && F.ValidShadow(c.shadow) && ValidContext(o.context)
    requires F.ValidateFresh(c, o, acceptance, policy, started, completed).Ok?
    requires F.FreshRisk(s, c, o, F.ValidateFresh(c, o, acceptance, policy, started, completed).value).Ok?
    ensures var f := F.ValidateFresh(c, o, acceptance, policy, started, completed).value;
            var intent := F.SealIntent(c, acceptance, policy, f, F.FreshRisk(s, c, o, f).value, createdAt);
            var slippage := policy.maximumSlippageTicks * o.snapshot.symbolInfo.tickSize;
            && intent.Ok? && 0.0 <= slippage
            && (AdverseFill(intent.value, fill) <==>
                  if c.shadow.proposal.side == Buy then o.tick.ask + slippage < fill else fill < o.tick.bid - slippage)
            && (intent.value.side == Buy ==> !AdverseFill(intent.value, o.tick.ask))
            && (intent.value.side == Sell ==> !AdverseFill(intent.value, o.tick.bid))
  {
    hide F.ValidateFresh, F.FreshRisk, F.SealIntent;
    F.SealingSucceeds(s, c, o, acceptance, policy, started, completed, createdAt);
    F.DeviationIsExact(c, o, acceptance, policy, started, completed);
  }

  /** Money lost if a position filled at `fill` is closed at `stop`, in the account's currency. */
  function LossAtStop(side: Side, fill: real, stop: real, volume: real, tickSize: real, tickValue: real): real
    requires tickSize != 0.0
  {
    (if side == Buy then fill - stop else stop - fill) / tickSize * tickValue * volume
  }

  /**
   * The end-to-end loss bound: a confirmed fill of a sealed intent, closed at its protective stop, loses
   * no more than the fresh risk evaluation allowed.
   */
  lemma LossBounded(i: Intent, preflight: Preflight, revalidation: Revalidation, e: Evidence)
    requires F.Sealed(i, preflight, revalidation) && ProvesExecution(i, e)
    ensures var sizing := revalidation.decision.sizing.value;
            LossAtStop(e.side, e.fillPrice.value, e.stopLoss.value, e.volume, sizing.tickSize, sizing.tickValue)
            <= sizing.allowedRisk
  {
    SealedLoss(i, preflight, revalidation);
    SealedLevels(i, preflight, revalidation, e);
    hide F.Sealed, ProvesExecution;
    var sizing := revalidation.decision.sizing.value;
    var distance :=
      if e.side == Buy then e.fillPrice.value - e.stopLoss.value else e.stopLoss.value - e.fillPrice.value;
    ScaledLoss(distance, sizing.stopDistance, sizing.tickSize, sizing.tickValue, e.volume);
  }

  /** The sizing behind a sealed intent covers its volume from the risk price to the stop. */
  lemma SealedLoss(i: Intent, preflight: Preflight, revalidation: Revalidation)
    requires F.Sealed(i, preflight, revalidation)
    ensures revalidation.decision.sizing.Some?
    ensures var sizing := revalidation.decision.sizing.value;
            && 0.0 < sizing.tickSize && 0.0 < sizing.tickValue && 0.0 < i.volume
            && sizing.stopDistance / sizing.tickSize * sizing.tickValue * i.volume <= sizing.allowedRisk
  {
    hide OnGrid;
  }

  /** A proving fill lies no further from the stop than the price the sizing used. */
  lemma SealedLevels(i: Intent, preflight: Preflight, revalidation: Revalidation, e: Evidence)
    requires F.Sealed(i, preflight, revalidation) && ProvesExecution(i, e)
    ensures revalidation.decision.sizing.Some? && e.fillPrice.Some? && e.stopLoss.Some? && e.volume == i.volume
    ensures (if e.side == Buy then e.fillPrice.value - e.stopLoss.value else e.stopLoss.value - e.fillPrice.value)
            <= revalidation.decision.sizing.value.stopDistance
  {
    hide ValidSizing;
  }

  lemma ScaledLoss(d: real, limit: real, tickSize: real, tickValue: real, volume: real)
    requires d <= limit && 0.0 < tickSize && 0.0 < tickValue && 0.0 < volume
    ensures d / tickSize * tickValue * volume <= limit / tickSize * tickValue * volume
  {
    DivLe(d, limit, tickSize);
    MulLe(d / tickSize, limit / tickSize, tickValue);
    MulLe(d / tickSize * tickValue, limit / tickSize * tickValue, volume);
  }
}
