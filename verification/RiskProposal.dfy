/** Proposal geometry and broker-capability validation. */
module RiskProposal {
  import opened Prelude
  import opened RiskTypes
  import opened RiskAccount

  datatype Validation = Validation(
    reasons: seq<Reason>,
    stopDistance: Option<real>,
    rewardDistance: Option<real>,
    riskReward: Option<real>)

  predicate Present(price: Option<real>) { price.Some? && 0.0 < price.value }

  predicate StopSideValid(side: Side, entry: real, stop: real) {
    match side case Buy => stop < entry case Sell => entry < stop
  }

  predicate TargetSideValid(side: Side, entry: real, target: real) {
    match side case Buy => entry < target case Sell => target < entry
  }

  function StopDistance(p: Proposal): Option<real> {
    if Present(p.entry) && Present(p.stopLoss) && Present(p.takeProfit)
       && StopSideValid(p.side, p.entry.value, p.stopLoss.value)
    then Some(AbsReal(p.entry.value - p.stopLoss.value)) else None
  }

  function RewardDistance(p: Proposal): Option<real> {
    if Present(p.entry) && Present(p.stopLoss) && Present(p.takeProfit)
       && TargetSideValid(p.side, p.entry.value, p.takeProfit.value)
    then Some(AbsReal(p.takeProfit.value - p.entry.value)) else None
  }

  predicate Misaligned(price: Option<real>, tickSize: real)
    requires tickSize != 0.0
  {
    Present(price) && !OnGrid(price.value, tickSize)
  }

  predicate SideForbidden(mode: TradeMode, side: Side) {
    (mode == LongOnly && side == Sell) || (mode == ShortOnly && side == Buy)
  }

  function WithPriceReasons(r: seq<Reason>, price: Option<real>, missing: Reason, invalid: Reason): seq<Reason> {
    if price.None? then r + [missing] else Also(r, price.value <= 0.0, invalid)
  }

  predicate AllPresent(p: Proposal) { Present(p.entry) && Present(p.stopLoss) && Present(p.takeProfit) }

  function TraceReasons(p: Proposal, snapshot: Snapshot): seq<Reason> {
    var r1 := Also([], p.cycleId != snapshot.cycleId || p.snapshotId != snapshot.snapshotId, TraceabilityMismatch);
    Also(r1, p.symbol != snapshot.symbol, SymbolMismatch)
  }

  function WithPresenceReasons(r: seq<Reason>, p: Proposal): seq<Reason> {
    var r1 := WithPriceReasons(r, p.entry, EntryPriceRequired, EntryPriceInvalid);
    var r2 := WithPriceReasons(r1, p.stopLoss, StopLossRequired, StopLossInvalid);
    WithPriceReasons(r2, p.takeProfit, TakeProfitRequired, TakeProfitInvalid)
  }

  function WithGeometryReasons(r: seq<Reason>, s: Settings, p: Proposal): seq<Reason> {
    if !AllPresent(p) then r
    else
      var r1 := Also(r, StopDistance(p).None?, InvalidStopGeometry);
      var r2 := Also(r1, RewardDistance(p).None?, InvalidTakeProfitGeometry);
      Also(r2, StopDistance(p).Some? && RewardDistance(p).Some?
               && RewardDistance(p).value / StopDistance(p).value < s.minimumRiskReward, RiskRewardBelowMinimum)
  }

  predicate SomeMisaligned(p: Proposal, tickSize: real)
    requires tickSize != 0.0
  {
    Misaligned(p.entry, tickSize) || Misaligned(p.stopLoss, tickSize) || Misaligned(p.takeProfit, tickSize)
  }

  predicate TooClose(distance: Option<real>, info: SymbolInfo) {
    distance.Some? && distance.value < info.stopsLevel as real * info.point
  }

  function WithBrokerReasons(r: seq<Reason>, p: Proposal, info: SymbolInfo): seq<Reason> {
    if info.tickSize <= 0.0 || info.point <= 0.0 then r + [InvalidBrokerRiskMetadata]
    else
      var r1 := Also(r, SomeMisaligned(p, info.tickSize), PriceNotAlignedToTickSize);
      var r2 := Also(r1, TooClose(StopDistance(p), info), StopDistanceBelowBrokerMinimum);
      Also(r2, TooClose(RewardDistance(p), info), TakeProfitDistanceBelowBrokerMinimum)
  }

  function WithPermissionReasons(r: seq<Reason>, p: Proposal, snapshot: Snapshot): seq<Reason> {
    var mode := snapshot.symbolInfo.mode;
    var r1 := if mode == Disabled || mode == CloseOnly then r + [SymbolTradingDisabled]
              else Also(r, SideForbidden(mode, p.side), TradeSideNotAllowed);
    var r2 := Also(r1, !snapshot.tradeAllowed, AccountTradingDisabled);
    Also(r2, !snapshot.expertAllowed, ExpertTradingDisabled)
  }

  function ProposalReasons(s: Settings, p: Proposal, snapshot: Snapshot): seq<Reason> {
    var shaped := WithGeometryReasons(WithPresenceReasons(TraceReasons(p, snapshot), p), s, p);
    WithPermissionReasons(WithBrokerReasons(shaped, p, snapshot.symbolInfo), p, snapshot)
  }

  function RiskReward(p: Proposal): Option<real> {
    if StopDistance(p).Some? && RewardDistance(p).Some? then
      assert 0.0 < StopDistance(p).value;
      Some(RewardDistance(p).value / StopDistance(p).value)
    else None
  }

  function Judge(s: Settings, p: Proposal, snapshot: Snapshot): Validation {
    Validation(ProposalReasons(s, p, snapshot), StopDistance(p), RewardDistance(p), RiskReward(p))
  }

  /** What a proposal must satisfy, said without reference to reasons or their order. */
  predicate Acceptable(s: Settings, p: Proposal, snapshot: Snapshot) {
    var info := snapshot.symbolInfo;
    && p.cycleId == snapshot.cycleId && p.snapshotId == snapshot.snapshotId && p.symbol == snapshot.symbol
    && AllPresent(p)
    && var entry, stop, target := p.entry.value, p.stopLoss.value, p.takeProfit.value;
       && (if p.side == Buy then stop < entry < target else target < entry < stop)
       && s.minimumRiskReward * AbsReal(entry - stop) <= AbsReal(target - entry)
       && 0.0 < info.tickSize && 0.0 < info.point
       && OnGrid(entry, info.tickSize) && OnGrid(stop, info.tickSize) && OnGrid(target, info.tickSize)
       && info.stopsLevel as real * info.point <= AbsReal(entry - stop)
       && info.stopsLevel as real * info.point <= AbsReal(target - entry)
       && (info.mode == Full || (info.mode == LongOnly && p.side == Buy) || (info.mode == ShortOnly && p.side == Sell))
       && snapshot.tradeAllowed && snapshot.expertAllowed
  }

  lemma RatioBelow(reward: real, stop: real, minimum: real)
    requires 0.0 < stop
    ensures reward / stop < minimum <==> reward < minimum * stop
  {
    var q := reward / stop;
    assert q * stop == reward;
  }

  lemma GeometrySilentIff(r: seq<Reason>, s: Settings, p: Proposal)
    requires AllPresent(p)
    ensures WithGeometryReasons(r, s, p) == r <==>
            var entry, stop, target := p.entry.value, p.stopLoss.value, p.takeProfit.value;
            && (if p.side == Buy then stop < entry < target else target < entry < stop)
            && s.minimumRiskReward * AbsReal(entry - stop) <= AbsReal(target - entry)
    ensures |r| <= |WithGeometryReasons(r, s, p)|
  {
    if StopDistance(p).Some? && RewardDistance(p).Some? {
      RatioBelow(RewardDistance(p).value, StopDistance(p).value, s.minimumRiskReward);
    }
  }

  /** The validator is silent exactly for acceptable proposals. */
  lemma NoReasonsIffAcceptable(s: Settings, p: Proposal, snapshot: Snapshot)
    ensures Judge(s, p, snapshot).reasons == [] <==> Acceptable(s, p, snapshot)
  {
    if AllPresent(p) {
      GeometrySilentIff(WithPresenceReasons(TraceReasons(p, snapshot), p), s, p);
    }
  }

  /** What is wrong with a proposal when this reason is reported. */
  predicate ProposalFault(r: Reason, s: Settings, p: Proposal, snapshot: Snapshot) {
    var info := snapshot.symbolInfo;
    var priced := && p.entry.Some? && 0.0 < p.entry.value && p.stopLoss.Some? && 0.0 < p.stopLoss.value
                  && p.takeProfit.Some? && 0.0 < p.takeProfit.value;
    var gridded := 0.0 < info.tickSize && 0.0 < info.point;
    var stopOk := priced && if p.side == Buy then p.stopLoss.value < p.entry.value
                            else p.entry.value < p.stopLoss.value;
    var targetOk := priced && if p.side == Buy then p.entry.value < p.takeProfit.value
                              else p.takeProfit.value < p.entry.value;
    var minimum := info.stopsLevel as real * info.point;
    match r
    case TraceabilityMismatch => p.cycleId != snapshot.cycleId || p.snapshotId != snapshot.snapshotId
    case SymbolMismatch => p.symbol != snapshot.symbol
    case EntryPriceRequired => p.entry.None?
    case EntryPriceInvalid => p.entry.Some? && p.entry.value <= 0.0
    case StopLossRequired => p.stopLoss.None?
    case StopLossInvalid => p.stopLoss.Some? && p.stopLoss.value <= 0.0
    case TakeProfitRequired => p.takeProfit.None?
    case TakeProfitInvalid => p.takeProfit.Some? && p.takeProfit.value <= 0.0
    case InvalidStopGeometry => priced && !stopOk
    case InvalidTakeProfitGeometry => priced && !targetOk
    case RiskRewardBelowMinimum =>
      && stopOk && targetOk
      && AbsReal(p.takeProfit.value - p.entry.value) < s.minimumRiskReward * AbsReal(p.entry.value - p.stopLoss.value)
    case InvalidBrokerRiskMetadata => !gridded
    case PriceNotAlignedToTickSize =>
      && gridded
      && exists price :: price in {p.entry, p.stopLoss, p.takeProfit}
                         && price.Some? && 0.0 < price.value && !OnGrid(price.value, info.tickSize)
    case StopDistanceBelowBrokerMinimum => gridded && stopOk && AbsReal(p.entry.value - p.stopLoss.value) < minimum
    case TakeProfitDistanceBelowBrokerMinimum =>
      gridded && targetOk && AbsReal(p.takeProfit.value - p.entry.value) < minimum
    case SymbolTradingDisabled => info.mode == Disabled || info.mode == CloseOnly
    case TradeSideNotAllowed => (info.mode == LongOnly && p.side == Sell) || (info.mode == ShortOnly && p.side == Buy)
    case AccountTradingDisabled => !snapshot.tradeAllowed
    case ExpertTradingDisabled => !snapshot.expertAllowed
    case _ => false
  }

  // ----- each reason exactly when its fault is present -----

  lemma NotAlso(r: seq<Reason>, reason: Reason)
    ensures Also(r, false, reason) == r && Also(r, true, reason) == r + [reason]
  {}

  lemma PriceReported(price: Option<real>, missing: Reason, invalid: Reason, fault: Reason -> bool, r: seq<Reason>,
                      n: nat)
    requires Exactly(r, fault, n)
    requires n <= Rank(missing) && Rank(invalid) == Rank(missing) + 1
    requires forall x :: n <= Rank(x) < Rank(missing) ==> !fault(x)
    requires fault(missing) == price.None? && fault(invalid) == (price.Some? && price.value <= 0.0)
    ensures Exactly(WithPriceReasons(r, price, missing, invalid), fault, Rank(missing) + 2)
  {
    hide Exactly;
    ExactlyAlso(r, fault, n, missing);
    ExactlyAlso(Also(r, fault(missing), missing), fault, Rank(missing) + 1, invalid);
  }

  lemma PresenceFaults(s: Settings, p: Proposal, snapshot: Snapshot)
    ensures ProposalFault(TraceabilityMismatch, s, p, snapshot)
            <==> p.cycleId != snapshot.cycleId || p.snapshotId != snapshot.snapshotId
    ensures ProposalFault(SymbolMismatch, s, p, snapshot) <==> p.symbol != snapshot.symbol
    ensures ProposalFault(EntryPriceRequired, s, p, snapshot) <==> p.entry.None?
    ensures ProposalFault(EntryPriceInvalid, s, p, snapshot) <==> p.entry.Some? && p.entry.value <= 0.0
    ensures ProposalFault(StopLossRequired, s, p, snapshot) <==> p.stopLoss.None?
    ensures ProposalFault(StopLossInvalid, s, p, snapshot) <==> p.stopLoss.Some? && p.stopLoss.value <= 0.0
    ensures ProposalFault(TakeProfitRequired, s, p, snapshot) <==> p.takeProfit.None?
    ensures ProposalFault(TakeProfitInvalid, s, p, snapshot) <==> p.takeProfit.Some? && p.takeProfit.value <= 0.0
    ensures forall x :: ProposalFault(x, s, p, snapshot) ==> Rank(x) < 2 || 11 <= Rank(x)
  {
    hide OnGrid;
  }

  lemma PresenceReported(s: Settings, p: Proposal, snapshot: Snapshot, fault: Reason -> bool)
    requires forall x :: fault(x) == ProposalFault(x, s, p, snapshot)
    ensures Exactly(WithPresenceReasons(TraceReasons(p, snapshot), p), fault, 17)
  {
    PresenceFaults(s, p, snapshot);
    hide Exactly, Also, WithPriceReasons, ProposalFault;
    ExactlyNone(fault);
    var r1 := Also([], fault(TraceabilityMismatch), TraceabilityMismatch);
    ExactlyAlso([], fault, 0, TraceabilityMismatch);
    ExactlyAlso(r1, fault, 1, SymbolMismatch);
    var r2 := Also(r1, fault(SymbolMismatch), SymbolMismatch);
    PriceReported(p.entry, EntryPriceRequired, EntryPriceInvalid, fault, r2, 2);
    var r3 := WithPriceReasons(r2, p.entry, EntryPriceRequired, EntryPriceInvalid);
    PriceReported(p.stopLoss, StopLossRequired, StopLossInvalid, fault, r3, 13);
    var r4 := WithPriceReasons(r3, p.stopLoss, StopLossRequired, StopLossInvalid);
    PriceReported(p.takeProfit, TakeProfitRequired, TakeProfitInvalid, fault, r4, 15);
  }

  lemma GeometryReported(s: Settings, p: Proposal, snapshot: Snapshot, fault: Reason -> bool, r: seq<Reason>)
    requires forall x :: fault(x) == ProposalFault(x, s, p, snapshot)
    requires Exactly(r, fault, 17)
    ensures Exactly(WithGeometryReasons(r, s, p), fault, 20)
  {
    hide Exactly, OnGrid, Also;
    NotAlso(r, InvalidStopGeometry);
    NotAlso(r, InvalidTakeProfitGeometry);
    NotAlso(r, RiskRewardBelowMinimum);
    if StopDistance(p).Some? && RewardDistance(p).Some? {
      RatioBelow(RewardDistance(p).value, StopDistance(p).value, s.minimumRiskReward);
    }
    ExactlyAlso(r, fault, 17, InvalidStopGeometry);
    var r1 := Also(r, fault(InvalidStopGeometry), InvalidStopGeometry);
    ExactlyAlso(r1, fault, 18, InvalidTakeProfitGeometry);
    var r2 := Also(r1, fault(InvalidTakeProfitGeometry), InvalidTakeProfitGeometry);
    ExactlyAlso(r2, fault, 19, RiskRewardBelowMinimum);
  }

  lemma BrokerFaults(s: Settings, p: Proposal, snapshot: Snapshot)
    ensures var info := snapshot.symbolInfo;
            var gridded := 0.0 < info.tickSize && 0.0 < info.point;
            && (ProposalFault(InvalidBrokerRiskMetadata, s, p, snapshot) <==> !gridded)
            && (ProposalFault(PriceNotAlignedToTickSize, s, p, snapshot)
                <==> gridded && SomeMisaligned(p, info.tickSize))
            && (ProposalFault(StopDistanceBelowBrokerMinimum, s, p, snapshot)
                <==> gridded && TooClose(StopDistance(p), info))
            && (ProposalFault(TakeProfitDistanceBelowBrokerMinimum, s, p, snapshot)
                <==> gridded && TooClose(RewardDistance(p), info))
  {
    hide OnGrid;
  }

  lemma BrokerReported(s: Settings, p: Proposal, snapshot: Snapshot, fault: Reason -> bool, r: seq<Reason>)
    requires forall x :: fault(x) == ProposalFault(x, s, p, snapshot)
    requires Exactly(r, fault, 20)
    ensures Exactly(WithBrokerReasons(r, p, snapshot.symbolInfo), fault, 24)
  {
    BrokerFaults(s, p, snapshot);
    hide Exactly, OnGrid, Also, ProposalFault, SomeMisaligned, TooClose, StopDistance, RewardDistance;
    NotAlso(r, InvalidBrokerRiskMetadata);
    NotAlso(r + [InvalidBrokerRiskMetadata], PriceNotAlignedToTickSize);
    NotAlso(r + [InvalidBrokerRiskMetadata], StopDistanceBelowBrokerMinimum);
    NotAlso(r + [InvalidBrokerRiskMetadata], TakeProfitDistanceBelowBrokerMinimum);
    ExactlyAlso(r, fault, 20, InvalidBrokerRiskMetadata);
    var r1 := Also(r, fault(InvalidBrokerRiskMetadata), InvalidBrokerRiskMetadata);
    ExactlyAlso(r1, fault, 21, PriceNotAlignedToTickSize);
    var r2 := Also(r1, fault(PriceNotAlignedToTickSize), PriceNotAlignedToTickSize);
    ExactlyAlso(r2, fault, 22, StopDistanceBelowBrokerMinimum);
    var r3 := Also(r2, fault(StopDistanceBelowBrokerMinimum), StopDistanceBelowBrokerMinimum);
    ExactlyAlso(r3, fault, 23, TakeProfitDistanceBelowBrokerMinimum);
  }

  lemma PermissionReported(s: Settings, p: Proposal, snapshot: Snapshot, fault: Reason -> bool, r: seq<Reason>)
    requires forall x :: fault(x) == ProposalFault(x, s, p, snapshot)
    requires Exactly(r, fault, 24)
    ensures Exactly(WithPermissionReasons(r, p, snapshot), fault, 28)
  {
    hide Exactly, OnGrid, Also;
    NotAlso(r, SymbolTradingDisabled);
    NotAlso(r + [SymbolTradingDisabled], TradeSideNotAllowed);
    ExactlyAlso(r, fault, 24, SymbolTradingDisabled);
    var r1 := Also(r, fault(SymbolTradingDisabled), SymbolTradingDisabled);
    ExactlyAlso(r1, fault, 25, TradeSideNotAllowed);
    var r2 := Also(r1, fault(TradeSideNotAllowed), TradeSideNotAllowed);
    ExactlyAlso(r2, fault, 26, AccountTradingDisabled);
    var r3 := Also(r2, fault(AccountTradingDisabled), AccountTradingDisabled);
    ExactlyAlso(r3, fault, 27, ExpertTradingDisabled);
  }

  /** Every proposal reason is reported exactly when its fault is present, once, and in the declared order. */
  lemma ProposalReasonsExact(s: Settings, p: Proposal, snapshot: Snapshot)
    ensures Exactly(Judge(s, p, snapshot).reasons, r => ProposalFault(r, s, p, snapshot), 31)
  {
    var fault := r => ProposalFault(r, s, p, snapshot);
    AllReported(s, p, snapshot, fault);
    hide Exactly, ProposalFault, Judge;
  }

  lemma AllReported(s: Settings, p: Proposal, snapshot: Snapshot, fault: Reason -> bool)
    requires forall x :: fault(x) == ProposalFault(x, s, p, snapshot)
    ensures Exactly(Judge(s, p, snapshot).reasons, fault, 31)
  {
    var present := WithPresenceReasons(TraceReasons(p, snapshot), p);
    var shaped := WithGeometryReasons(present, s, p);
    var brokered := WithBrokerReasons(shaped, p, snapshot.symbolInfo);
    hide Exactly, OnGrid, WithPresenceReasons, WithGeometryReasons, WithBrokerReasons, WithPermissionReasons;
    PresenceReported(s, p, snapshot, fault);
    GeometryReported(s, p, snapshot, fault, present);
    BrokerReported(s, p, snapshot, fault, shaped);
    PermissionReported(s, p, snapshot, fault, brokered);
    NothingBeyond(WithPermissionReasons(brokered, p, snapshot), fault, 28);
  }

  lemma ProposalReported(s: Settings, p: Proposal, snapshot: Snapshot, r: Reason)
    ensures r in Judge(s, p, snapshot).reasons <==> ProposalFault(r, s, p, snapshot)
  {
    ProposalReasonsExact(s, p, snapshot);
    hide ProposalFault, Judge;
  }

  class ProposalValidator {
    const settings: Settings

    constructor (settings: Settings)
      ensures this.settings == settings
    {
      this.settings := settings;
    }

    /** Appends each reason in place, section by section. */
    method Validate(p: Proposal, snapshot: Snapshot) returns (v: Validation)
      ensures v == Judge(settings, p, snapshot)
    {
      var reasons: seq<Reason> := [];
      if p.cycleId != snapshot.cycleId || p.snapshotId != snapshot.snapshotId {
        reasons := reasons + [TraceabilityMismatch];
      }
      if p.symbol != snapshot.symbol {
        reasons := reasons + [SymbolMismatch];
      }
      var stopDistance, rewardDistance, riskReward;
      reasons := CheckPresence(reasons, p);
      reasons, stopDistance, rewardDistance, riskReward := CheckGeometry(reasons, p);
      reasons := CheckBroker(reasons, p, snapshot.symbolInfo, stopDistance, rewardDistance);
      reasons := CheckPermissions(reasons, p, snapshot);
      v := Validation(reasons, stopDistance, rewardDistance, riskReward);
    }

    /** The missing-or-non-positive section of `Validate`. */
    method CheckPresence(before: seq<Reason>, p: Proposal) returns (reasons: seq<Reason>)
      ensures reasons == WithPresenceReasons(before, p)
    {
      reasons := before;
      if p.entry.None? {
        reasons := reasons + [EntryPriceRequired];
      } else if p.entry.value <= 0.0 {
        reasons := reasons + [EntryPriceInvalid];
      }
      if p.stopLoss.None? {
        reasons := reasons + [StopLossRequired];
      } else if p.stopLoss.value <= 0.0 {
        reasons := reasons + [StopLossInvalid];
      }
      if p.takeProfit.None? {
        reasons := reasons + [TakeProfitRequired];
      } else if p.takeProfit.value <= 0.0 {
        reasons := reasons + [TakeProfitInvalid];
      }
    }

    /** The symbol-mode and account-permission section of `Validate`. */
    method CheckPermissions(before: seq<Reason>, p: Proposal, snapshot: Snapshot) returns (reasons: seq<Reason>)
      ensures reasons == WithPermissionReasons(before, p, snapshot)
    {
      reasons := before;
      var mode := snapshot.symbolInfo.mode;
      if mode == Disabled || mode == CloseOnly {
        reasons := reasons + [SymbolTradingDisabled];
      } else if (mode == LongOnly && p.side == Sell) || (mode == ShortOnly && p.side == Buy) {
        reasons := reasons + [TradeSideNotAllowed];
      }
      if !snapshot.tradeAllowed {
        reasons := reasons + [AccountTradingDisabled];
      }
      if !snapshot.expertAllowed {
        reasons := reasons + [ExpertTradingDisabled];
      }
    }

    /** The distance section of `Validate`. */
    method CheckGeometry(before: seq<Reason>, p: Proposal)
      returns (reasons: seq<Reason>, stopDistance: Option<real>, rewardDistance: Option<real>, riskReward: Option<real>)
      ensures reasons == WithGeometryReasons(before, settings, p)
      ensures stopDistance == StopDistance(p) && rewardDistance == RewardDistance(p) && riskReward == RiskReward(p)
    {
      reasons, stopDistance, rewardDistance, riskReward := before, None, None, None;
      if Present(p.entry) && Present(p.stopLoss) && Present(p.takeProfit) {
        var entry, stop, target := p.entry.value, p.stopLoss.value, p.takeProfit.value;
        var validStop := if p.side == Buy then stop < entry else stop > entry;
        var validTarget := if p.side == Buy then target > entry else target < entry;
        if !validStop {
          reasons := reasons + [InvalidStopGeometry];
        }
        if !validTarget {
          reasons := reasons + [InvalidTakeProfitGeometry];
        }
        if validStop {
          stopDistance := Some(AbsReal(entry - stop));
        }
        if validTarget {
          rewardDistance := Some(AbsReal(target - entry));
        }
        if stopDistance.Some? && rewardDistance.Some? {
          var ratio := rewardDistance.value / stopDistance.value;
          riskReward := Some(ratio);
          if ratio < settings.minimumRiskReward {
            reasons := reasons + [RiskRewardBelowMinimum];
          }
        }
      }
    }

    /** Reports a misaligned price once: the scan stops at the first one. */
    method CheckAlignment(before: seq<Reason>, p: Proposal, tickSize: real) returns (reasons: seq<Reason>)
      requires tickSize != 0.0
      ensures reasons == Also(before, SomeMisaligned(p, tickSize), PriceNotAlignedToTickSize)
    {
      reasons := before;
      var prices := [p.entry, p.stopLoss, p.takeProfit];
      var i := 0;
      while i < |prices|
        invariant 0 <= i <= |prices|
        invariant reasons == before
        invariant forall j :: 0 <= j < i ==> !Misaligned(prices[j], tickSize)
      {
        var price := prices[i];
        if price.Some? && price.value > 0.0 && !OnGrid(price.value, tickSize) {
          reasons := reasons + [PriceNotAlignedToTickSize];
          break;
        }
        i := i + 1;
      }
      assert prices[0] == p.entry && prices[1] == p.stopLoss && prices[2] == p.takeProfit;
    }

    /** The broker-grid section of `Validate`. */
    method CheckBroker(before: seq<Reason>, p: Proposal, info: SymbolInfo,
                       stopDistance: Option<real>, rewardDistance: Option<real>) returns (reasons: seq<Reason>)
      requires stopDistance == StopDistance(p) && rewardDistance == RewardDistance(p)
      ensures reasons == WithBrokerReasons(before, p, info)
    {
      reasons := before;
      if info.tickSize <= 0.0 || info.point <= 0.0 {
        reasons := reasons + [InvalidBrokerRiskMetadata];
        return;
      }
      hide SomeMisaligned;
      reasons := CheckAlignment(before, p, info.tickSize);
      var minimumDistance := info.stopsLevel as real * info.point;
      if stopDistance.Some? && stopDistance.value < minimumDistance {
        reasons := reasons + [StopDistanceBelowBrokerMinimum];
      }
      if rewardDistance.Some? && rewardDistance.value < minimumDistance {
        reasons := reasons + [TakeProfitDistanceBelowBrokerMinimum];
      }
    }
  }
}
