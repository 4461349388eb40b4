/** First-touch evaluation of one frozen trade hypothesis over the candles after its decision. */
module OutcomeEvaluation {
  import opened Prelude
  import opened RiskTypes
  import opened ReplayViews

  datatype Frame = Frame(
    replayId: Identifier,
    frameId: Identifier,
    cycleId: Identifier,
    snapshotId: Identifier,
    symbol: Identifier,
    cutoff: Instant,
    partitionId: Identifier,
    partitionKind: Identifier,
    datasetDigest: Identifier,
    timeframe: Timeframe)

  datatype Frozen = Frozen(
    replayId: Identifier,
    frameId: Identifier,
    cycleId: Identifier,
    snapshotId: Identifier,
    symbol: Identifier,
    cutoff: Instant,
    proposal: Proposal)

  datatype Configuration = Configuration(datasetDigest: Identifier, outcomeTimeframe: Timeframe, horizon: Horizon)

  datatype Facts = Facts(direction: Side, timeframe: Timeframe, partition: Identifier)

  datatype TouchStatus = TakeProfitReached | StopLossReached | AmbiguousIntrabar | UnresolvedHorizon

  datatype TradeOutcome = TradeOutcome(
    side: Side,
    timeframe: Timeframe,
    cutoff: Instant,
    startedAt: Instant,
    endedAt: Instant,
    bars: nat,
    status: TouchStatus,
    resolutionOpenAt: Option<Instant>,
    resolutionCloseAt: Option<Instant>,
    barsToResolution: Option<nat>,
    microsToResolution: Option<int>,
    entry: real,
    stop: real,
    target: real,
    riskUnit: real,
    realized: Option<real>,
    favorable: real,
    adverse: real,
    mfeR: real,
    maeR: real)

  predicate Geometry(side: Side, entry: real, stop: real, target: real) {
    if side == Buy then stop < entry < target else target < entry < stop
  }

  /** What the outcome constructor accepts. */
  predicate ValidOutcome(o: TradeOutcome) {
    var resolved := o.status == TakeProfitReached || o.status == StopLossReached;
    var terminal := resolved || o.status == AmbiguousIntrabar;
    && o.cutoff <= o.startedAt <= o.endedAt && 1 <= o.bars
    && Geometry(o.side, o.entry, o.stop, o.target) && o.riskUnit == AbsReal(o.entry - o.stop) && 0.0 < o.riskUnit
    && 0.0 <= o.favorable && 0.0 <= o.adverse && 0.0 <= o.mfeR && 0.0 <= o.maeR
    && o.mfeR == o.favorable / o.riskUnit && o.maeR == o.adverse / o.riskUnit
    && (terminal <==>
          && o.resolutionOpenAt.Some? && o.resolutionCloseAt.Some?
          && o.barsToResolution.Some? && o.microsToResolution.Some?)
    && (resolved <==> o.realized.Some?)
    && (o.status == StopLossReached ==> o.realized == Some(-1.0))
    && (o.status == TakeProfitReached ==> o.realized == Some(AbsReal(o.target - o.entry) / o.riskUnit))
    && (o.microsToResolution.Some? ==> 0 <= o.microsToResolution.value)
    && (terminal ==>
          && o.resolutionCloseAt.value == o.resolutionOpenAt.value + Duration(o.timeframe)
          && o.resolutionCloseAt.value == o.endedAt && o.barsToResolution.value == o.bars)
  }

  // ----- one candle, and the path as a whole -----

  function Favorable(side: Side, entry: real, c: Candle): real { if side == Buy then c.high - entry else entry - c.low }

  function Adverse(side: Side, entry: real, c: Candle): real { if side == Buy then entry - c.low else c.high - entry }

  predicate TargetHit(side: Side, target: real, c: Candle) { if side == Buy then target <= c.high else c.low <= target }

  predicate StopHit(side: Side, stop: real, c: Candle) { if side == Buy then c.low <= stop else stop <= c.high }

  /** The price levels of the hypothesis. */
  datatype Levels = Levels(side: Side, entry: real, stop: real, target: real)

  predicate Touches(l: Levels, c: Candle) { TargetHit(l.side, l.target, c) || StopHit(l.side, l.stop, c) }

  function StatusOf(l: Levels, c: Candle): TouchStatus
    requires Touches(l, c)
  {
    if TargetHit(l.side, l.target, c) && StopHit(l.side, l.stop, c) then AmbiguousIntrabar
    else if TargetHit(l.side, l.target, c) then TakeProfitReached
    else StopLossReached
  }

  /** The index of the first candle that touches a level; the length when none does. */
  function FirstTouch(l: Levels, candles: seq<Candle>): (t: nat)
    ensures t <= |candles|
    ensures t < |candles| ==> Touches(l, candles[t])
    ensures forall k :: 0 <= k < t ==> !Touches(l, candles[k])
  {
    if candles == [] then 0
    else if Touches(l, candles[0]) then 0
    else 1 + FirstTouch(l, candles[1..])
  }

  /** The least upper bound of zero and the given values. */
  ghost predicate IsPeak(peak: real, values: seq<real>) {
    && 0.0 <= peak && (forall k :: 0 <= k < |values| ==> values[k] <= peak)
    && (peak == 0.0 || exists k :: 0 <= k < |values| && values[k] == peak)
  }

  function FavorablePath(l: Levels, candles: seq<Candle>): seq<real> {
    seq(|candles|, i requires 0 <= i < |candles| => Favorable(l.side, l.entry, candles[i]))
  }

  function AdversePath(l: Levels, candles: seq<Candle>): seq<real> {
    seq(|candles|, i requires 0 <= i < |candles| => Adverse(l.side, l.entry, candles[i]))
  }

  datatype Scan = Scan(status: TouchStatus, bars: nat, favorable: real, adverse: real)

  /** What the loop must find: the first touching candle decides, and excursions are peaks up to it. */
  ghost predicate IsScan(s: Scan, l: Levels, candles: seq<Candle>) {
    var t := FirstTouch(l, candles);
    && s.bars == (if t < |candles| then t + 1 else |candles|)
    && s.status == (if t < |candles| then StatusOf(l, candles[t]) else UnresolvedHorizon)
    && IsPeak(s.favorable, FavorablePath(l, candles[..s.bars]))
    && IsPeak(s.adverse, AdversePath(l, candles[..s.bars]))
  }

  lemma PeakAtMost(a: real, b: real, values: seq<real>)
    requires IsPeak(a, values) && IsPeak(b, values)
    ensures a <= b
  {
    if a != 0.0 {
      var k :| 0 <= k < |values| && values[k] == a;
    }
  }

  lemma PeakUnique(a: real, b: real, values: seq<real>)
    requires IsPeak(a, values) && IsPeak(b, values)
    ensures a == b
  {
    PeakAtMost(a, b, values);
    PeakAtMost(b, a, values);
  }

  lemma ScanUnique(a: Scan, b: Scan, l: Levels, candles: seq<Candle>)
    requires IsScan(a, l, candles) && IsScan(b, l, candles)
    ensures a == b
  {
    PeakUnique(a.favorable, b.favorable, FavorablePath(l, candles[..a.bars]));
    PeakUnique(a.adverse, b.adverse, AdversePath(l, candles[..a.bars]));
  }

  lemma PeakNext(peak: real, values: seq<real>, x: real)
    requires IsPeak(peak, values)
    ensures IsPeak(MaxReal(peak, x), values + [x])
  {
    var all := values + [x];
    assert all[|values|] == x;
    if peak != 0.0 {
      var k :| 0 <= k < |values| && values[k] == peak;
      assert all[k] == peak;
    }
  }

  lemma {:induction false} FirstTouchOf(l: Levels, candles: seq<Candle>, n: nat)
    requires n <= |candles| && forall k :: 0 <= k < n ==> !Touches(l, candles[k])
    requires n == |candles| || Touches(l, candles[n])
    ensures FirstTouch(l, candles) == n
  {
    var _ := FirstTouch(l, candles);
  }

  lemma PathsGrow(l: Levels, candles: seq<Candle>, n: nat)
    requires n < |candles|
    ensures FavorablePath(l, candles[..n + 1])
            == FavorablePath(l, candles[..n]) + [Favorable(l.side, l.entry, candles[n])]
    ensures AdversePath(l, candles[..n + 1]) == AdversePath(l, candles[..n]) + [Adverse(l.side, l.entry, candles[n])]
  {}

  lemma NothingScanned(l: Levels, candles: seq<Candle>)
    ensures IsPeak(0.0, FavorablePath(l, candles[..0])) && IsPeak(0.0, AdversePath(l, candles[..0]))
  {}

  method ScanPath(l: Levels, candles: seq<Candle>) returns (s: Scan)
    ensures IsScan(s, l, candles)
  {
    hide IsPeak, FavorablePath, AdversePath, Favorable, Adverse;
    var favorable, adverse := 0.0, 0.0;
    var index := 0;
    NothingScanned(l, candles);
    while index < |candles|
      invariant 0 <= index <= |candles|
      invariant forall k :: 0 <= k < index ==> !Touches(l, candles[k])
      invariant IsPeak(favorable, FavorablePath(l, candles[..index]))
                && IsPeak(adverse, AdversePath(l, candles[..index]))
    {
      var c := candles[index];
      PeakNext(favorable, FavorablePath(l, candles[..index]), Favorable(l.side, l.entry, c));
      PeakNext(adverse, AdversePath(l, candles[..index]), Adverse(l.side, l.entry, c));
      PathsGrow(l, candles, index);
      favorable := MaxReal(favorable, Favorable(l.side, l.entry, c));
      adverse := MaxReal(adverse, Adverse(l.side, l.entry, c));
      var targetHit := TargetHit(l.side, l.target, c);
      var stopHit := StopHit(l.side, l.stop, c);
      if targetHit || stopHit {
        FirstTouchOf(l, candles, index);
        var status := if targetHit && stopHit then AmbiguousIntrabar else if targetHit then TakeProfitReached
          else StopLossReached;
        return Scan(status, index + 1, favorable, adverse);
      }
      index := index + 1;
    }
    FirstTouchOf(l, candles, |candles|);
    assert candles[..|candles|] == candles;
    s := Scan(UnresolvedHorizon, |candles|, favorable, adverse);
  }

  // ----- what a scan means -----

  /** Once a level is touched, later candles cannot change anything. */
  lemma ResolvedIsFinal(s: Scan, l: Levels, candles: seq<Candle>, more: seq<Candle>)
    requires IsScan(s, l, candles) && s.status != UnresolvedHorizon
    ensures IsScan(s, l, candles + more)
  {
    var t := FirstTouch(l, candles);
    FirstTouchOf(l, candles + more, t);
    assert (candles + more)[..s.bars] == candles[..s.bars];
  }

  function Mirror(c: Candle): Candle {
    c.(open := -c.open, high := -c.low, low := -c.high, close := -c.close)
  }

  function MirrorAll(candles: seq<Candle>): seq<Candle> {
    seq(|candles|, i requires 0 <= i < |candles| => Mirror(candles[i]))
  }

  function Opposite(l: Levels): Levels { Levels(if l.side == Buy then Sell else Buy, -l.entry, -l.stop, -l.target) }

  lemma MirroredCandle(l: Levels, c: Candle)
    ensures Touches(Opposite(l), Mirror(c)) <==> Touches(l, c)
    ensures Touches(l, c) ==> StatusOf(Opposite(l), Mirror(c)) == StatusOf(l, c)
    ensures Favorable(Opposite(l).side, Opposite(l).entry, Mirror(c)) == Favorable(l.side, l.entry, c)
    ensures Adverse(Opposite(l).side, Opposite(l).entry, Mirror(c)) == Adverse(l.side, l.entry, c)
  {}

  /** Selling on the negated chart is buying on the chart itself. */
  lemma MirroredTrade(s: Scan, l: Levels, candles: seq<Candle>)
    requires IsScan(s, l, candles)
    ensures IsScan(s, Opposite(l), MirrorAll(candles))
  {
    forall c ensures Touches(Opposite(l), Mirror(c)) <==> Touches(l, c)
      ensures Touches(l, c) ==> StatusOf(Opposite(l), Mirror(c)) == StatusOf(l, c)
      ensures Favorable(Opposite(l).side, Opposite(l).entry, Mirror(c)) == Favorable(l.side, l.entry, c)
      ensures Adverse(Opposite(l).side, Opposite(l).entry, Mirror(c)) == Adverse(l.side, l.entry, c)
    {
      MirroredCandle(l, c);
    }
    var m := MirrorAll(candles);
    hide Touches, StatusOf, Favorable, Adverse, Mirror, IsPeak, Opposite;
    FirstTouchOf(Opposite(l), m, FirstTouch(l, candles));
    assert FavorablePath(Opposite(l), m[..s.bars]) == FavorablePath(l, candles[..s.bars]);
    assert AdversePath(Opposite(l), m[..s.bars]) == AdversePath(l, candles[..s.bars]);
  }

  function Reward(l: Levels): real { AbsReal(l.target - l.entry) }

  function Risk(l: Levels): real { AbsReal(l.entry - l.stop) }

  /** The excursions reach a level exactly when the scanned candles touched it. */
  lemma ExcursionsAgree(s: Scan, l: Levels, candles: seq<Candle>)
    requires IsScan(s, l, candles) && Geometry(l.side, l.entry, l.stop, l.target)
    ensures s.status == TakeProfitReached ==> Reward(l) <= s.favorable && s.adverse < Risk(l)
    ensures s.status == StopLossReached ==> Risk(l) <= s.adverse && s.favorable < Reward(l)
    ensures s.status == AmbiguousIntrabar ==> Reward(l) <= s.favorable && Risk(l) <= s.adverse
    ensures s.status == UnresolvedHorizon ==> s.favorable < Reward(l) && s.adverse < Risk(l)
  {
    var t := FirstTouch(l, candles);
    var fs, bs := FavorablePath(l, candles[..s.bars]), AdversePath(l, candles[..s.bars]);
    if t < |candles| {
      assert fs[t] == Favorable(l.side, l.entry, candles[t]) && bs[t] == Adverse(l.side, l.entry, candles[t]);
    }
    if s.status != TakeProfitReached && s.status != AmbiguousIntrabar && s.favorable != 0.0 {
      var k :| 0 <= k < |fs| && fs[k] == s.favorable;
      assert k == t || !Touches(l, candles[k]);
    }
    if s.status != StopLossReached && s.status != AmbiguousIntrabar && s.adverse != 0.0 {
      var k :| 0 <= k < |bs| && bs[k] == s.adverse;
      assert k == t || !Touches(l, candles[k]);
    }
  }

  // ----- the evaluator -----

  datatype Evaluation = Evaluated(outcome: TradeOutcome) | Refused(error: ReplayError) | NothingToEvaluate

  predicate LinksMatch(frame: Frame, frozen: Frozen, view: OutcomeView, config: Configuration) {
    && frozen.replayId == frame.replayId && frozen.frameId == frame.frameId && frozen.cycleId == frame.cycleId
    && frozen.snapshotId == frame.snapshotId && frozen.symbol == frame.symbol
    && view.cutoff == frame.cutoff && view.partition.partitionId == frame.partitionId
    && view.datasetDigest == frame.datasetDigest && config.datasetDigest == frame.datasetDigest
    && config.outcomeTimeframe == view.timeframe
  }

  predicate AfterDecision(frozen: Frozen, view: OutcomeView, c: Candle) {
    c.symbol == frozen.symbol && c.timeframe == view.timeframe && frozen.cutoff <= c.openTime
      && frozen.cutoff < CloseTime(c)
  }

  predicate InOrder(candles: seq<Candle>, i: nat)
    requires i < |candles|
  {
    i > 0 ==> candles[i - 1].openTime < candles[i].openTime
  }

  /** The first boundary check that a candle fails, in the order they are made. */
  function BoundaryFrom(frozen: Frozen, view: OutcomeView, i: nat): Option<ReplayError>
    requires i <= |view.candles|
    decreases |view.candles| - i
  {
    if i == |view.candles| then None
    else if !AfterDecision(frozen, view, view.candles[i]) then Some(FutureDataAccess)
    else if !InOrder(view.candles, i) then Some(InvalidOutcomeData)
    else BoundaryFrom(frozen, view, i + 1)
  }

  predicate WithinElapsed(frozen: Frozen, view: OutcomeView, h: Horizon) {
    h.maxElapsed.Some? ==> forall c :: c in view.candles ==> CloseTime(c) <= frozen.cutoff + h.maxElapsed.value
  }

  predicate WithinPartition(view: OutcomeView) {
    forall c :: c in view.candles ==> CloseTime(c) <= view.partition.evaluationEnd
  }

  /** The error that stops the evaluation before the price path is read, if any. */
  function Problem(frame: Frame, frozen: Frozen, view: OutcomeView, config: Configuration): Option<ReplayError> {
    var p := frozen.proposal;
    if !LinksMatch(frame, frozen, view, config) then Some(DecisionNotFrozen)
    else if p.entry.None? || p.stopLoss.None? || p.takeProfit.None? then Some(InvalidProposal)
    else if !Geometry(p.side, p.entry.value, p.stopLoss.value, p.takeProfit.value) then Some(InvalidProposal)
    else if BoundaryFrom(frozen, view, 0).Some? then BoundaryFrom(frozen, view, 0)
    else if config.horizon.maxBars.Some? && |view.candles| > config.horizon.maxBars.value then Some(InvalidHorizon)
    else if !WithinElapsed(frozen, view, config.horizon) then Some(InvalidHorizon)
    else if !WithinPartition(view) then Some(PartitionViolation)
    else None
  }

  function LevelsOf(frozen: Frozen): Levels
    requires frozen.proposal.entry.Some? && frozen.proposal.stopLoss.Some? && frozen.proposal.takeProfit.Some?
  {
    Levels(frozen.proposal.side, frozen.proposal.entry.value, frozen.proposal.stopLoss.value,
           frozen.proposal.takeProfit.value)
  }

  predicate FactsMatch(facts: Option<Facts>, frame: Frame, frozen: Frozen) {
    facts.Some? ==>
      && facts.value.direction == frozen.proposal.side && facts.value.timeframe == frame.timeframe
      && facts.value.partition == frame.partitionKind
  }

  function Build(l: Levels, frozen: Frozen, view: OutcomeView, s: Scan): TradeOutcome
    requires 1 <= s.bars <= |view.candles| && Risk(l) != 0.0
  {
    var first, last, risk := view.candles[0], view.candles[s.bars - 1], Risk(l);
    var terminal := s.status != UnresolvedHorizon;
    TradeOutcome(
      l.side, view.timeframe, frozen.cutoff, first.openTime, CloseTime(last), s.bars, s.status,
      if terminal then Some(last.openTime) else None,
      if terminal then Some(CloseTime(last)) else None,
      if terminal then Some(s.bars) else None,
      if terminal then Some(CloseTime(last) - frozen.cutoff) else None,
      l.entry, l.stop, l.target, risk,
      match s.status {
        case TakeProfitReached => Some(Reward(l) / risk)
        case StopLossReached => Some(-1.0)
        case _ => None
      },
      s.favorable, s.adverse, s.favorable / risk, s.adverse / risk)
  }

  lemma GeometryHasRisk(l: Levels)
    requires Geometry(l.side, l.entry, l.stop, l.target)
    ensures 0.0 < Risk(l) && 0.0 < Reward(l)
  {}

  /** The boundary loop accepts exactly candles after the decision in strict time order. */
  lemma {:induction false} BoundaryAccepts(frozen: Frozen, view: OutcomeView, i: nat)
    requires i <= |view.candles|
    ensures BoundaryFrom(frozen, view, i).None? <==>
              forall k :: i <= k < |view.candles| ==>
                  AfterDecision(frozen, view, view.candles[k]) && InOrder(view.candles, k)
    decreases |view.candles| - i
  {
    if i < |view.candles| { BoundaryAccepts(frozen, view, i + 1); }
  }

  method CheckBoundaries(frozen: Frozen, view: OutcomeView) returns (problem: Option<ReplayError>)
    ensures problem == BoundaryFrom(frozen, view, 0)
  {
    var previousOpen: Option<Instant> := None;
    for i := 0 to |view.candles|
      invariant BoundaryFrom(frozen, view, 0) == BoundaryFrom(frozen, view, i)
      invariant previousOpen == if i == 0 then None else Some(view.candles[i - 1].openTime)
    {
      var c := view.candles[i];
      if c.symbol != frozen.symbol || c.timeframe != view.timeframe || c.openTime < frozen.cutoff
        || CloseTime(c) <= frozen.cutoff {
        return Some(FutureDataAccess);
      }
      if previousOpen.Some? && c.openTime <= previousOpen.value {
        return Some(InvalidOutcomeData);
      }
      previousOpen := Some(c.openTime);
    }
    problem := None;
  }

  /** Everything an evaluated outcome says about the price path it was read from. */
  ghost predicate Reads(o: TradeOutcome, frozen: Frozen, view: OutcomeView) {
    && frozen.proposal.entry.Some? && frozen.proposal.stopLoss.Some? && frozen.proposal.takeProfit.Some?
    && var l := LevelsOf(frozen);
       exists s :: IsScan(s, l, view.candles) && 1 <= s.bars <= |view.candles| && Risk(l) != 0.0
         && o == Build(l, frozen, view, s)
  }

  /** What is wrong with the inputs when the evaluation is refused for this reason. */
  predicate Fault(e: ReplayError, frame: Frame, frozen: Frozen, view: OutcomeView, config: Configuration,
                  facts: Option<Facts>) {
    var p, all := frozen.proposal, view.candles;
    match e
    case DecisionNotFrozen =>
      !(&& frozen.replayId == frame.replayId && frozen.frameId == frame.frameId && frozen.cycleId == frame.cycleId
        && frozen.snapshotId == frame.snapshotId && frozen.symbol == frame.symbol && view.cutoff == frame.cutoff
        && view.partition.partitionId == frame.partitionId && view.timeframe == config.outcomeTimeframe
        && view.datasetDigest == frame.datasetDigest == config.datasetDigest)
    case InvalidProposal =>
      || p.entry.None? || p.stopLoss.None? || p.takeProfit.None?
      || !(if p.side == Buy then p.stopLoss.value < p.entry.value < p.takeProfit.value
           else p.takeProfit.value < p.entry.value < p.stopLoss.value)
    case FutureDataAccess =>
      exists c :: c in all && (c.symbol != frozen.symbol || c.timeframe != view.timeframe
                               || c.openTime < frozen.cutoff || CloseTime(c) <= frozen.cutoff)
    case InvalidOutcomeData =>
      || (exists i {:trigger all[i]} :: 0 < i < |all| && all[i].openTime <= all[i - 1].openTime)
      || (facts.Some? && !(&& facts.value.direction == p.side && facts.value.timeframe == frame.timeframe
                           && facts.value.partition == frame.partitionKind))
    case InvalidHorizon =>
      || (config.horizon.maxBars.Some? && config.horizon.maxBars.value < |all|)
      || (config.horizon.maxElapsed.Some?
          && exists c :: c in all && frozen.cutoff + config.horizon.maxElapsed.value < CloseTime(c))
    case PartitionViolation => exists c :: c in all && view.partition.evaluationEnd < CloseTime(c)
    case _ => false
  }

  /** The problem found is always present; without one only the segment facts can still be wrong. */
  lemma ProblemMeans(frame: Frame, frozen: Frozen, view: OutcomeView, config: Configuration, facts: Option<Facts>)
    ensures var problem := Problem(frame, frozen, view, config);
            if problem.Some? then Fault(problem.value, frame, frozen, view, config, facts)
            else if FactsMatch(facts, frame, frozen) then forall e :: !Fault(e, frame, frozen, view, config, facts)
            else Fault(InvalidOutcomeData, frame, frozen, view, config, facts)
  {
    BoundaryMeans(frozen, view, 0);
    hide CloseTime, BoundaryFrom;
    if Problem(frame, frozen, view, config).None? && FactsMatch(facts, frame, frozen) {
      NoFault(frame, frozen, view, config, facts);
    }
  }

  lemma NoFault(frame: Frame, frozen: Frozen, view: OutcomeView, config: Configuration, facts: Option<Facts>)
    requires Problem(frame, frozen, view, config).None? && FactsMatch(facts, frame, frozen)
    ensures forall e :: !Fault(e, frame, frozen, view, config, facts)
  {
    InBoundary(frozen, view);
    hide BoundaryFrom, CloseTime;
  }

  lemma InBoundary(frozen: Frozen, view: OutcomeView)
    requires BoundaryFrom(frozen, view, 0).None?
    ensures forall c :: c in view.candles ==>
              && c.symbol == frozen.symbol && c.timeframe == view.timeframe
              && frozen.cutoff <= c.openTime && frozen.cutoff < CloseTime(c)
    ensures forall i {:trigger view.candles[i]} :: 0 < i < |view.candles| ==>
              view.candles[i - 1].openTime < view.candles[i].openTime
  {
    BoundaryAccepts(frozen, view, 0);
    hide BoundaryFrom, CloseTime;
    forall c | c in view.candles ensures AfterDecision(frozen, view, c) {
      var k :| 0 <= k < |view.candles| && view.candles[k] == c;
    }
    forall i {:trigger view.candles[i]} | 0 < i < |view.candles|
      ensures view.candles[i - 1].openTime < view.candles[i].openTime
    {
      assert InOrder(view.candles, i);
    }
  }

  lemma {:induction false} BoundaryMeans(frozen: Frozen, view: OutcomeView, i: nat)
    requires i <= |view.candles|
    ensures var all, e := view.candles, BoundaryFrom(frozen, view, i);
            && (e.Some? ==> e.value == FutureDataAccess || e.value == InvalidOutcomeData)
            && (e == Some(FutureDataAccess) ==>
                  exists c :: c in all && (c.symbol != frozen.symbol || c.timeframe != view.timeframe
                                           || c.openTime < frozen.cutoff || CloseTime(c) <= frozen.cutoff))
            && (e == Some(InvalidOutcomeData) ==>
                  exists i {:trigger all[i]} :: 0 < i < |all| && all[i].openTime <= all[i - 1].openTime)
    decreases |view.candles| - i
  {
    hide CloseTime;
    if i < |view.candles| {
      assert view.candles[i] in view.candles;
      BoundaryMeans(frozen, view, i + 1);
    }
  }

  /** The path was left at the first candle that touched a level, or not at all. */
  predicate ToldPath(o: TradeOutcome, all: seq<Candle>) {
    var n := o.bars - 1;
    && 0 <= n < |all|
    && (forall k :: 0 <= k < n ==> !Reaches(o, all[k]) && !Breaks(o, all[k]))
    && o.status == (if Reaches(o, all[n]) && Breaks(o, all[n]) then AmbiguousIntrabar
                    else if Reaches(o, all[n]) then TakeProfitReached
                    else if Breaks(o, all[n]) then StopLossReached else UnresolvedHorizon)
    && (o.status == UnresolvedHorizon ==> o.bars == |all|)
  }

  /** It is timed from its first candle to the close of its last, and a resolution from the decision on. */
  predicate ToldTimes(o: TradeOutcome, frozen: Frozen, all: seq<Candle>) {
    var n := o.bars - 1;
    && 0 <= n < |all| && o.cutoff == frozen.cutoff
    && o.startedAt == all[0].openTime && o.endedAt == CloseTime(all[n])
    && if o.status == UnresolvedHorizon then
         && o.resolutionOpenAt.None? && o.resolutionCloseAt.None? && o.barsToResolution.None?
         && o.microsToResolution.None?
       else
         && o.resolutionOpenAt == Some(all[n].openTime) && o.resolutionCloseAt == Some(o.endedAt)
         && o.barsToResolution == Some(o.bars) && o.microsToResolution == Some(o.endedAt - frozen.cutoff)
  }

  /** Excursions are the furthest the price went either way. */
  ghost predicate ToldExcursions(o: TradeOutcome, all: seq<Candle>) {
    && 0 <= o.bars <= |all|
    && Furthest(o.favorable, seq(o.bars, i requires 0 <= i < o.bars =>
                  if o.side == Buy then all[i].high - o.entry else o.entry - all[i].low))
    && Furthest(o.adverse, seq(o.bars, i requires 0 <= i < o.bars =>
                  if o.side == Buy then o.entry - all[i].low else all[i].high - o.entry))
  }

  /** Multiples are measured in the initial risk. */
  predicate ToldMultiples(o: TradeOutcome) {
    && 0.0 < o.riskUnit && o.riskUnit == AbsReal(o.entry - o.stop)
    && o.mfeR * o.riskUnit == o.favorable && o.maeR * o.riskUnit == o.adverse
    && match o.status
       case TakeProfitReached => o.realized.Some? && o.realized.value * o.riskUnit == AbsReal(o.target - o.entry)
       case StopLossReached => o.realized == Some(-1.0)
       case _ => o.realized.None?
  }

  /** What an outcome tells of the path it was read from. */
  ghost predicate Told(o: TradeOutcome, frozen: Frozen, view: OutcomeView) {
    var p := frozen.proposal;
    && o.side == p.side && Some(o.entry) == p.entry && Some(o.stop) == p.stopLoss && Some(o.target) == p.takeProfit
    && o.timeframe == view.timeframe
    && ToldPath(o, view.candles) && ToldTimes(o, frozen, view.candles)
    && ToldExcursions(o, view.candles) && ToldMultiples(o)
  }

  predicate Reaches(o: TradeOutcome, c: Candle) { if o.side == Buy then o.target <= c.high else c.low <= o.target }

  predicate Breaks(o: TradeOutcome, c: Candle) { if o.side == Buy then c.low <= o.stop else o.stop <= c.high }

  /** The greatest of the values, or zero when none is positive. */
  ghost predicate Furthest(x: real, values: seq<real>) {
    && 0.0 <= x && (forall v :: v in values ==> v <= x) && (x == 0.0 || x in values)
  }

  lemma PeakIsFurthest(x: real, values: seq<real>)
    requires IsPeak(x, values)
    ensures Furthest(x, values)
  {}

  lemma PathTold(l: Levels, frozen: Frozen, view: OutcomeView, s: Scan)
    requires IsScan(s, l, view.candles) && 1 <= s.bars <= |view.candles| && Risk(l) != 0.0
    ensures ToldPath(Build(l, frozen, view, s), view.candles)
  {
    var o, t := Build(l, frozen, view, s), FirstTouch(l, view.candles);
    hide IsPeak, FavorablePath, AdversePath, Risk, Reward, CloseTime;
    forall c ensures Touches(l, c) <==> Reaches(o, c) || Breaks(o, c) {}
  }

  lemma ExcursionsTold(l: Levels, frozen: Frozen, view: OutcomeView, s: Scan)
    requires IsScan(s, l, view.candles) && 1 <= s.bars <= |view.candles| && Risk(l) != 0.0
    ensures ToldExcursions(Build(l, frozen, view, s), view.candles)
  {
    var o, all := Build(l, frozen, view, s), view.candles;
    PeakIsFurthest(s.favorable, FavorablePath(l, all[..s.bars]));
    PeakIsFurthest(s.adverse, AdversePath(l, all[..s.bars]));
    hide IsPeak, IsScan, Furthest, CloseTime, Risk, Reward;
    assert FavorablePath(l, all[..s.bars])
           == seq(o.bars, i requires 0 <= i < o.bars =>
                if o.side == Buy then all[i].high - o.entry else o.entry - all[i].low);
    assert AdversePath(l, all[..s.bars])
           == seq(o.bars, i requires 0 <= i < o.bars =>
                if o.side == Buy then o.entry - all[i].low else all[i].high - o.entry);
  }

  lemma MultiplesTold(l: Levels, frozen: Frozen, view: OutcomeView, s: Scan)
    requires 1 <= s.bars <= |view.candles| && 0.0 < Risk(l)
    ensures ToldMultiples(Build(l, frozen, view, s))
  {
    hide CloseTime;
    DivMul(s.favorable, Risk(l));
    DivMul(s.adverse, Risk(l));
    DivMul(Reward(l), Risk(l));
  }

  lemma ReadingTold(frozen: Frozen, view: OutcomeView, s: Scan)
    requires frozen.proposal.entry.Some? && frozen.proposal.stopLoss.Some? && frozen.proposal.takeProfit.Some?
    requires var l := LevelsOf(frozen);
             IsScan(s, l, view.candles) && 1 <= s.bars <= |view.candles| && 0.0 < Risk(l)
    ensures Told(Build(LevelsOf(frozen), frozen, view, s), frozen, view)
  {
    PathTold(LevelsOf(frozen), frozen, view, s);
    ExcursionsTold(LevelsOf(frozen), frozen, view, s);
    MultiplesTold(LevelsOf(frozen), frozen, view, s);
    hide IsScan, Risk, Reward, CloseTime, ToldPath, ToldExcursions, ToldMultiples;
  }

  method Evaluate(frame: Frame, frozen: Frozen, view: OutcomeView, config: Configuration, facts: Option<Facts>)
    returns (result: Evaluation)
    ensures Problem(frame, frozen, view, config).Some? ==> result == Refused(Problem(frame, frozen, view, config).value)
    ensures Problem(frame, frozen, view, config).None? ==>
              if view.candles == [] then result == NothingToEvaluate
              else if !FactsMatch(facts, frame, frozen) then result == Refused(InvalidOutcomeData)
              else result.Evaluated? && Reads(result.outcome, frozen, view) && ValidOutcome(result.outcome)
    ensures result.Refused? ==> Fault(result.error, frame, frozen, view, config, facts)
    ensures result.Evaluated? ==>
              (forall e :: !Fault(e, frame, frozen, view, config, facts)) && Told(result.outcome, frozen, view)
  {
    hide Build, IsScan, ValidOutcome, Fault, Told, Reads;
    ProblemMeans(frame, frozen, view, config, facts);
    if !LinksMatch(frame, frozen, view, config) {
      return Refused(DecisionNotFrozen);
    }
    var p := frozen.proposal;
    if p.entry.None? || p.stopLoss.None? || p.takeProfit.None? {
      return Refused(InvalidProposal);
    }
    if !Geometry(p.side, p.entry.value, p.stopLoss.value, p.takeProfit.value) {
      return Refused(InvalidProposal);
    }
    var boundary := CheckBoundaries(frozen, view);
    if boundary.Some? {
      return Refused(boundary.value);
    }
    if config.horizon.maxBars.Some? && |view.candles| > config.horizon.maxBars.value {
      return Refused(InvalidHorizon);
    }
    if !WithinElapsed(frozen, view, config.horizon) {
      return Refused(InvalidHorizon);
    }
    if !WithinPartition(view) {
      return Refused(PartitionViolation);
    }
    var l := LevelsOf(frozen);
    GeometryHasRisk(l);
    var s := ScanPath(l, view.candles);
    if view.candles == [] {
      return NothingToEvaluate;
    }
    if !FactsMatch(facts, frame, frozen) {
      return Refused(InvalidOutcomeData);
    }
    ScanBars(s, l, view.candles);
    BuiltValid(l, frozen, view, s);
    var o := Build(l, frozen, view, s);
    ReadFrom(o, frozen, view, s);
    ReadingTold(frozen, view, s);
    result := Evaluated(o);
  }

  lemma ReadFrom(o: TradeOutcome, frozen: Frozen, view: OutcomeView, s: Scan)
    requires frozen.proposal.entry.Some? && frozen.proposal.stopLoss.Some? && frozen.proposal.takeProfit.Some?
    requires var l := LevelsOf(frozen);
             IsScan(s, l, view.candles) && 1 <= s.bars <= |view.candles| && Risk(l) != 0.0
               && o == Build(l, frozen, view, s)
    ensures Reads(o, frozen, view)
  {}

  lemma ScanBars(s: Scan, l: Levels, candles: seq<Candle>)
    requires IsScan(s, l, candles) && candles != []
    ensures 1 <= s.bars <= |candles|
  {}

  lemma {:induction false} TimesAscend(candles: seq<Candle>, i: nat, j: nat)
    requires i <= j < |candles| && forall k :: 0 <= k < |candles| ==> InOrder(candles, k)
    ensures candles[i].openTime <= candles[j].openTime
  {
    if i < j {
      TimesAscend(candles, i, j - 1);
      assert InOrder(candles, j);
    }
  }

  lemma BuiltValid(l: Levels, frozen: Frozen, view: OutcomeView, s: Scan)
    requires IsScan(s, l, view.candles) && 1 <= s.bars <= |view.candles|
    requires Geometry(l.side, l.entry, l.stop, l.target) && BoundaryFrom(frozen, view, 0).None? && 0.0 < Risk(l)
    ensures ValidOutcome(Build(l, frozen, view, s))
  {
    BoundaryAccepts(frozen, view, 0);
    TimesAscend(view.candles, 0, s.bars - 1);
    assert AfterDecision(frozen, view, view.candles[0]) && AfterDecision(frozen, view, view.candles[s.bars - 1]);
    DivPositive(s.favorable, Risk(l));
    DivPositive(s.adverse, Risk(l));
  }

  /** In R multiples: a reached target was worth at least its reward, a reached stop at least one unit of risk. */
  lemma OutcomeInUnitsOfRisk(o: TradeOutcome, frozen: Frozen, view: OutcomeView)
    requires Reads(o, frozen, view) && Geometry(o.side, o.entry, o.stop, o.target)
    ensures o.status == TakeProfitReached ==> o.realized.Some? && 0.0 < o.realized.value <= o.mfeR && o.maeR < 1.0
    ensures o.status == StopLossReached ==> o.realized == Some(-1.0) && 1.0 <= o.maeR
    ensures o.status == UnresolvedHorizon ==> o.maeR < 1.0 && o.mfeR < AbsReal(o.target - o.entry) / o.riskUnit
    ensures o.status == AmbiguousIntrabar ==>
              o.realized.None? && 1.0 <= o.maeR && AbsReal(o.target - o.entry) / o.riskUnit <= o.mfeR
  {
    var l := LevelsOf(frozen);
    var s :| IsScan(s, l, view.candles) && 1 <= s.bars <= |view.candles| && Risk(l) != 0.0
      && o == Build(l, frozen, view, s);
    hide IsScan;
    GeometryHasRisk(l);
    ExcursionsAgree(s, l, view.candles);
    var risk := Risk(l);
    DivPositive(Reward(l), risk);
    DivOfMul(1.0, risk);
    Compare(s.favorable, Reward(l), risk);
    Compare(s.adverse, 1.0 * risk, risk);
  }

  lemma Compare(a: real, b: real, n: real)
    requires 0.0 < n
    ensures (b <= a ==> b / n <= a / n) && (a < b ==> a / n < b / n)
  {
    if b <= a { DivLe(b, a, n); } else {
      DivLe(a, b, n);
      DivMul(a, n);
      DivMul(b, n);
    }
  }

  /** A resolved outcome does not change when the view is continued by later candles. */
  lemma OutcomeIsFinal(o: TradeOutcome, frozen: Frozen, view: OutcomeView, more: seq<Candle>)
    requires Reads(o, frozen, view) && o.status != UnresolvedHorizon
    ensures Reads(o, frozen, view.(candles := view.candles + more))
  {
    var l := LevelsOf(frozen);
    var s :| IsScan(s, l, view.candles) && 1 <= s.bars <= |view.candles| && Risk(l) != 0.0
      && o == Build(l, frozen, view, s);
    hide IsScan, Risk, LevelsOf;
    ResolvedIsFinal(s, l, view.candles, more);
    BuildContinued(l, frozen, view, s, more);
    hide Build;
  }

  /** A reading of a prefix builds the same outcome from the continued view. */
  lemma BuildContinued(l: Levels, frozen: Frozen, view: OutcomeView, s: Scan, more: seq<Candle>)
    requires 1 <= s.bars <= |view.candles| && Risk(l) != 0.0
    ensures Build(l, frozen, view.(candles := view.candles + more), s) == Build(l, frozen, view, s)
  {
    hide Risk, Reward, CloseTime;
    var longer := view.candles + more;
    assert longer[0] == view.candles[0] && longer[s.bars - 1] == view.candles[s.bars - 1];
  }

  /** Readings are unique, so the evaluation of one path is determined by it. */
  lemma ReadingUnique(a: TradeOutcome, b: TradeOutcome, frozen: Frozen, view: OutcomeView)
    requires Reads(a, frozen, view) && Reads(b, frozen, view)
    ensures a == b
  {
    var l := LevelsOf(frozen);
    var s :| IsScan(s, l, view.candles) && 1 <= s.bars <= |view.candles| && Risk(l) != 0.0
      && a == Build(l, frozen, view, s);
    var t :| IsScan(t, l, view.candles) && 1 <= t.bars <= |view.candles| && Risk(l) != 0.0
      && b == Build(l, frozen, view, t);
    ScanUnique(s, t, l, view.candles);
  }

  /** Every view the data source issues passes every boundary check of the evaluator for the same horizon. */
  lemma IssuedViewsPass(d: Dataset, partitionId: Identifier, frame: Frame, frozen: Frozen, config: Configuration)
    requires ValidDataset(d) && ValidHorizon(config.horizon)
    requires OutcomeViewOf(d, partitionId, frozen.cutoff, frozen.symbol, config.outcomeTimeframe, config.horizon).Ok?
    ensures var v :=
            OutcomeViewOf(d, partitionId, frozen.cutoff, frozen.symbol, config.outcomeTimeframe, config.horizon).value;
            && v.candles != []
            && BoundaryFrom(frozen, v, 0).None?
            && (config.horizon.maxBars.Some? ==> |v.candles| <= config.horizon.maxBars.value)
            && WithinElapsed(frozen, v, config.horizon) && WithinPartition(v)
            && (Problem(frame, frozen, v, config).Some? ==>
                Problem(frame, frozen, v, config).value in {DecisionNotFrozen, InvalidProposal})
  {
    var v := OutcomeViewOf(d, partitionId, frozen.cutoff, frozen.symbol, config.outcomeTimeframe, config.horizon).value;
    hide OutcomeViewOf, ValidDataset;
    OutcomeCandlesBounded(d, partitionId, frozen.cutoff, frozen.symbol, config.outcomeTimeframe, config.horizon);
    BoundaryAccepts(frozen, v, 0);
    forall k | 0 <= k < |v.candles| ensures AfterDecision(frozen, v, v.candles[k]) && InOrder(v.candles, k) {
      assert v.candles[k] in v.candles;
    }
  }
}
