/**
 * The one-shot shadow cycle: three parallel analysts, an entry analyst, optional quant review, a bounded debate
 * and the deterministic risk stage. Whatever the agents reply, the cycle ends in one valid record, except when a
 * debate round fails after an earlier round already produced a Chief decision.
 */
module ShadowOrchestration {
  import opened Prelude
  import opened RiskTypes
  import opened ShadowTypes
  import opened ShadowState
  import opened ShadowInvariants
  import C = ShadowCourse
  import E = RiskEngineModel

  // ----- where a cycle ends, decided from the replies alone -----

  datatype Path =
    | Incompatible
    | Stale
    | StageOneFailed(abort: bool)
    | StoppedAt(slot: Slot)
    | HoldAt(round: nat)
    | ProposedAt(round: nat)

  function Failed(w: World, s: Slot): bool { !w(s).Answer? }

  function FailureDispositionAt(w: World, q: Request, s: Slot): FailureDisposition
    requires Failed(w, s)
  {
    Invoke(w, q, s).failure.value.disposition
  }

  predicate Compatible(q: Request, at: Instant) {
    && q.context.cycleId == q.snapshot.cycleId && q.context.snapshotId == q.snapshot.snapshotId
    && q.context.accountRef == q.snapshot.accountRef
    && q.snapshot.completedAt <= at && q.context.asOf <= at
    && q.snapshot.completedAt <= q.context.asOf
    && q.context.tradingDayStartedAt <= q.context.asOf
  }

  const Market1 := SlotFor(MarketContext, 0)
  const Trend1 := SlotFor(TrendAnalyst, 0)
  const Price1 := SlotFor(PriceAction, 0)
  const Entry2 := SlotFor(EntryAnalyst, 0)
  const Quant3 := SlotFor(QuantResearcher, 0)
  const Senior3 := SlotFor(SeniorQuant, 0)

  const StageOne := [Market1, Trend1, Price1]

  /** How stage one ends the cycle, if it does: an abort, or a hold. */
  function StageOneVerdict(w: World, q: Request): Option<bool> {
    if exists s :: s in StageOne && Failed(w, s) && FailureDispositionAt(w, q, s) == AbortCycle then Some(true)
    else if exists s ::
              s in StageOne && Failed(w, s) && Invoke(w, q, s).failure.value.category == InvalidOutput then Some(false)
    else if (if Failed(w, Market1) then 0 else 1) + (if Failed(w, Trend1) then 0 else 1)
      + (if Failed(w, Price1) then 0 else 1) < 2
    then Some(false) else None
  }

  /** A failed quant call stops the cycle unless it only degrades it. */
  predicate QuantStops(w: World, q: Request, s: Slot) {
    Failed(w, s) && FailureDispositionAt(w, q, s) != ContinueDegraded
  }

  function ActionAt(w: World, round: nat): Action
    requires !Failed(w, SlotFor(ChiefTrader, round))
  {
    w(SlotFor(ChiefTrader, round)).output.chief.action
  }

  function DebatePath(w: World, rounds: nat, r: nat): Path
    requires 1 <= r <= rounds
    decreases rounds - r
  {
    if Failed(w, SlotFor(Skeptic, r)) then StoppedAt(SlotFor(Skeptic, r))
    else if Failed(w, SlotFor(ChiefTrader, r)) then StoppedAt(SlotFor(ChiefTrader, r))
    else if ActionAt(w, r) == ActHold then HoldAt(r)
    else if r == rounds then ProposedAt(r)
    else DebatePath(w, rounds, r + 1)
  }

  function PathOf(w: World, q: Request, p: Policy, at: Instant): Path
    requires ValidPolicy(p)
  {
    if !Compatible(q, at) then Incompatible
    else if q.market.stale then Stale
    else if StageOneVerdict(w, q).Some? then StageOneFailed(StageOneVerdict(w, q).value)
    else if Failed(w, Entry2) then StoppedAt(Entry2)
    else if p.quant != SkipQuant && QuantStops(w, q, Quant3) then StoppedAt(Quant3)
    else if p.quant == QuantAndSenior && QuantStops(w, q, Senior3) then StoppedAt(Senior3)
    else DebatePath(w, p.rounds, 1)
  }

  function QuantSlots(p: Policy): seq<Slot> {
    match p.quant
    case SkipQuant => []
    case QuantOnly => [Quant3]
    case QuantAndSenior => [Quant3, Senior3]
  }

  function Debated(rounds: nat): seq<Slot> {
    if rounds == 0 then [] else Debated(rounds - 1) + [SlotFor(Skeptic, rounds), SlotFor(ChiefTrader, rounds)]
  }

  function BeforeDebate(p: Policy): seq<Slot> { StageOne + [Entry2] + QuantSlots(p) }

  /** Exactly the calls a path makes, in order. */
  function Visited(p: Policy, path: Path): seq<Slot> {
    match path
    case Incompatible | Stale => []
    case StageOneFailed(_) => StageOne
    case StoppedAt(s) =>
      (match s.role
       case MarketContext | TrendAnalyst | PriceAction => StageOne
       case EntryAnalyst => StageOne + [Entry2]
       case QuantResearcher => StageOne + [Entry2, Quant3]
       case SeniorQuant => StageOne + [Entry2, Quant3, Senior3]
       case Skeptic => BeforeDebate(p) + Debated(if s.round == 0 then 0 else s.round - 1) + [s]
       case ChiefTrader => BeforeDebate(p) + Debated(s.round))
    case HoldAt(r) => BeforeDebate(p) + Debated(r)
    case ProposedAt(r) => BeforeDebate(p) + Debated(r)
  }

  // ----- the risk stage -----

  /** The deterministic risk stage: None when it raises. */
  type RiskStage = Proposal -> Option<Decision>

  /** Decisions are valid, belong to the proposal and cycle, and approve only fully priced, positive volumes. */
  ghost predicate RiskConsistent(risk: RiskStage, q: Request) {
    forall p :: risk(p).Some? ==>
      var d := risk(p).value;
      && d.cycleId == q.snapshot.cycleId && d.snapshotId == q.snapshot.snapshotId && d.proposalId == p.proposalId
      && ValidDecision(d)
      && (d.status == Approved ==>
            && p.entry.Some? && p.stopLoss.Some? && p.takeProfit.Some?
            && d.sizing.value.selectedVolume.Some? && 0.0 < d.sizing.value.selectedVolume.value)
  }

  /** The repository's own risk engine is such a stage and never raises. */
  lemma EngineIsConsistent(settings: Settings, q: Request, at: Instant)
    requires ValidSettings(settings) && ValidContext(q.context)
    ensures var risk := (p: Proposal) requires ValidContext(q.context) =>
            E.Evaluation(settings, p, q.snapshot, q.context, at);
            forall p: Proposal :: risk(p).Some?
    ensures RiskConsistent(p => if ValidContext(q.context) then E.Evaluation(settings, p, q.snapshot, q.context, at)
                           else None, q)
  {
    forall p: Proposal
      ensures E.Evaluation(settings, p, q.snapshot, q.context, at).Some?
      ensures var d := E.Evaluation(settings, p, q.snapshot, q.context, at).value;
              && ValidDecision(d)
              && (d.status == Approved ==>
                  d.sizing.value.selectedVolume.Some? && 0.0 < d.sizing.value.selectedVolume.value)
              && (d.status == Approved ==> p.entry.Some? && p.stopLoss.Some? && p.takeProfit.Some?)
    {
      E.EvaluationTotal(settings, p, q.snapshot, q.context, at);
      ApprovedIsPriced(settings, p, q, at);
    }
  }

  lemma ApprovedIsPriced(settings: Settings, p: Proposal, q: Request, at: Instant)
    requires ValidSettings(settings) && ValidContext(q.context)
    ensures E.Evaluation(settings, p, q.snapshot, q.context, at).Some?
    ensures E.Evaluation(settings, p, q.snapshot, q.context, at).value.status == Approved ==>
              p.entry.Some? && p.stopLoss.Some? && p.takeProfit.Some?
  {
    E.ApprovedExactly(settings, p, q.snapshot, q.context, at, 0);
  }

  // ----- what the finished record must say -----

  datatype Ending = Ending(disposition: Disposition, source: Source)

  function Stopped(abort: bool): Ending { Ending(if abort then Aborted else PolicyHold, FailurePolicy) }

  function ProposalAt(w: World, r: nat): Proposal
    requires !Failed(w, SlotFor(ChiefTrader, r)) && w(SlotFor(ChiefTrader, r)).output.chief.proposal.Some?
  {
    w(SlotFor(ChiefTrader, r)).output.chief.proposal.value
  }

  function RiskEnding(action: Action, d: Option<Decision>): Ending {
    if d.None? then Ending(Aborted, Orchestrator)
    else match d.value.status
         case HaltedDecision => Ending(Disposition.RiskHalted, RiskSource)
         case Rejected => Ending(Disposition.RiskRejected, RiskSource)
         case Approved => Ending(if action == ActBuy then WouldBuy else WouldSell, RiskSource)
  }

  function EndingOf(w: World, q: Request, risk: RiskStage, path: Path): Ending {
    match path
    case Incompatible => Ending(Aborted, Orchestrator)
    case Stale => Ending(PolicyHold, FailurePolicy)
    case StageOneFailed(abort) => Stopped(abort)
    case StoppedAt(s) => Stopped(Failed(w, s) && FailureDispositionAt(w, q, s) == AbortCycle)
    case HoldAt(_) => Ending(ChiefHold, ChiefSource)
    case ProposedAt(r) =>
      var slot := SlotFor(ChiefTrader, r);
      if !Failed(w, slot) && w(slot).output.chief.proposal.Some?
      then RiskEnding(ActionAt(w, r), risk(ProposalAt(w, r))) else Ending(Aborted, Orchestrator)
  }

  /** The orchestrator's own failure, when the cycle records one. */
  function ExtraOf(w: World, risk: RiskStage, path: Path): Option<FailureCategory> {
    match path
    case Incompatible => Some(SchemaMismatch)
    case Stale => Some(StaleSnapshot)
    case ProposedAt(r) =>
      var slot := SlotFor(ChiefTrader, r);
      if !Failed(w, slot) && w(slot).output.chief.proposal.Some?
        && risk(ProposalAt(w, r)).None? then Some(UnknownFailure) else None
    case _ => None
  }

  function StageOneStatus(w: World): StageStatus {
    if Failed(w, Market1) || Failed(w, Trend1) || Failed(w, Price1) then StageDegraded else StageCompleted
  }

  function QuantStatus(w: World, p: Policy): StageStatus {
    if p.quant == SkipQuant then StageSkipped
    else if Failed(w, Quant3) || (p.quant == QuantAndSenior && Failed(w, Senior3)) then StageDegraded
    else StageCompleted
  }

  function StopStatus(w: World, q: Request, s: Slot): StageStatus {
    if Failed(w, s) && FailureDispositionAt(w, q, s) == AbortCycle then StageAborted else StageHold
  }

  /** The stages a path records itself; every other stage is filled in as skipped. */
  function StatusesOf(w: World, q: Request, p: Policy, risk: RiskStage, path: Path): map<nat, StageStatus> {
    var one := StageOneStatus(w);
    var three := map[1 := one, 2 := StageCompleted, 3 := QuantStatus(w, p)];
    match path
    case Incompatible => map[1 := StageAborted]
    case Stale => map[1 := StageHold]
    case StageOneFailed(abort) => map[1 := if abort then StageAborted else StageHold]
    case StoppedAt(s) =>
      (match s.role
       case EntryAnalyst => map[1 := one, 2 := StopStatus(w, q, s)]
       case QuantResearcher | SeniorQuant => map[1 := one, 2 := StageCompleted, 3 := StopStatus(w, q, s)]
       case Skeptic => three[4 := StageHold]
       case _ => three[4 := StageCompleted])
    case HoldAt(_) => three[4 := StageCompleted][5 := StageCompleted][6 := StageSkipped]
    case ProposedAt(_) =>
      three[4 := StageCompleted][5 := StageCompleted][6 := if ExtraOf(w, risk, path).Some? then StageAborted
                                                      else StageCompleted]
  }

  function StatusMap(stages: map<nat, StageRecord>): map<nat, StageStatus> { map n | n in stages :: stages[n].status }

  function PassedStageOne(path: Path): bool { path.StoppedAt? || path.HoldAt? || path.ProposedAt? }

  /** The record tells exactly what happened along its path. */
  ghost predicate Tells(r: ShadowRecord, w: World, q: Request, p: Policy, risk: RiskStage, path: Path) {
    var c, slots := r.cycle, Visited(p, path);
    && c.invocations == Audits(w, q, slots)
    && c.outputs == Answers(w, q, slots)
    && c.failures == Failings(w, q, slots, PassedStageOne(path)) + ExtraFailures(q, ExtraOf(w, risk, path))
    && (c.disposition, c.source) == (EndingOf(w, q, risk, path).disposition, EndingOf(w, q, risk, path).source)
    && |c.stages| == 6
    && forall n :: 1 <= n <= 6 ==>
         c.stages[n - 1].status == (var m := StatusesOf(w, q, p, risk, path); if n in m then m[n] else StageSkipped)
  }

  function ExtraFailures(q: Request, extra: Option<FailureCategory>): seq<Failure> {
    if extra.Some? then [SystemFailureFor(q, extra.value)] else []
  }

  /** The Chief decision that became final along a path. */
  function DecisionOf(w: World, path: Path): Option<Output> {
    match path
    case HoldAt(r) => if Failed(w, SlotFor(ChiefTrader, r)) then None else Some(w(SlotFor(ChiefTrader, r)).output)
    case ProposedAt(r) => if Failed(w, SlotFor(ChiefTrader, r)) then None else Some(w(SlotFor(ChiefTrader, r)).output)
    case _ => None
  }

  /** The risk decision of a path: that of the proposal put before the risk stage. */
  function RiskOf(w: World, risk: RiskStage, path: Path): Option<Decision> {
    if path.ProposedAt? && DecisionOf(w, path).Some? && DecisionOf(w, path).value.chief.proposal.Some?
    then risk(DecisionOf(w, path).value.chief.proposal.value) else None
  }

  /** A debate round after the first failed: the history holds a Chief decision that never became final. */
  predicate LateFailure(path: Path) { path.StoppedAt? && path.slot.stage >= 4 && path.slot.round >= 2 }

  // ----- ranks -----

  lemma {:induction false} DebatedIncreasing(p: Policy, r: nat)
    ensures Increasing(BeforeDebate(p) + Debated(r))
    ensures forall s :: s in BeforeDebate(p) + Debated(r) ==> Rank(s) < 6 + 2 * r
  {
    if r == 0 {
      assert BeforeDebate(p) + [] == BeforeDebate(p);
    } else {
      DebatedIncreasing(p, r - 1);
      var before := BeforeDebate(p) + Debated(r - 1);
      var s, c := SlotFor(Skeptic, r), SlotFor(ChiefTrader, r);
      IncreasingOneMore(before, s);
      IncreasingOneMore(before + [s], c);
      assert BeforeDebate(p) + Debated(r) == before + [s] + [c];
    }
  }

  lemma IncreasingOneMore(slots: seq<Slot>, next: Slot)
    requires Increasing(slots) && forall s :: s in slots ==> Rank(s) < Rank(next)
    ensures Increasing(slots + [next])
  {}

  lemma {:induction false} DebatedLength(r: nat)
    ensures |Debated(r)| == 2 * r
  {
    if r > 0 { DebatedLength(r - 1); }
  }

  // ----- the state between calls -----

  ghost predicate Reached(s: State, w: World, q: Request, slots: seq<Slot>, passed: bool,
                          statuses: map<nat, StageStatus>) {
    && Holds(s, w, q, slots, passed) && Increasing(slots) && StagesOk(s.stages) && StatusMap(s.stages) == statuses
    && Filed(s)
  }

  lemma ReachedCall(s: State, w: World, q: Request, slots: seq<Slot>, passed: bool,
                    statuses: map<nat, StageStatus>, next: Slot)
    requires Reached(s, w, q, slots, passed, statuses) && Consistent(w, q) && (next.stage == 1 ==> !passed)
    requires forall t :: t in slots ==> Rank(t) < Rank(next)
    requires next == SlotFor(next.role, next.round) && next.stage !in statuses
    ensures var s' := Retain(s, Invoke(w, q, next));
            && (next.role != ChiefTrader || Failed(w, next) ==> Reached(s', w, q, slots + [next], passed, statuses))
            && (next.role == ChiefTrader && !Failed(w, next) ==>
                  Reached(s'.(chiefDecisions := s'.chiefDecisions + [w(next).output]), w, q, slots + [next],
                          passed, statuses))
  {
    hide Increasing, StagesOk, Holds, Invoke;
    HoldsOneMore(s, w, q, slots, passed, next);
    assert Filed(Retain(s, Invoke(w, q, next))) by { FiledCall(s, w, q, next); }
    assert Increasing(slots + [next]) by { IncreasingOneMore(slots, next); }
  }

  lemma ReachedStage(s: State, w: World, q: Request, slots: seq<Slot>, passed: bool, statuses: map<nat, StageStatus>,
                     n: nat, status: StageStatus)
    requires Reached(s, w, q, slots, passed, statuses) && Consistent(w, q)
    ensures Reached(SetStage(s, n, status), w, q, slots, passed, statuses[n := status])
  {
    HoldsUnique(s, w, q, slots, passed);
    SetStageOk(s, n, status);
    FiledStage(s, n, status);
  }

  lemma ReachedReplaced(s: State, w: World, q: Request, slots: seq<Slot>, statuses: map<nat, StageStatus>)
    requires Reached(s, w, q, slots, false, statuses) && forall i :: 0 <= i < |slots| ==> slots[i].stage == 1
    ensures Reached(ReplaceFailures(s, Degraded(s.failures)), w, q, slots, true, statuses)
  {
    HoldsReplaced(s, w, q, slots);
    FailingsDistinct(w, q, slots, false);
    FiledReplaced(s);
  }

  // ----- the end of a cycle -----

  /** The state as it stands when the cycle is presented. */
  ghost predicate Ready(s: State, w: World, q: Request, slots: seq<Slot>, passed: bool, extra: Option<FailureCategory>,
                        statuses: map<nat, StageStatus>) {
    && Collected(s, w, q, slots, passed, extra) && Increasing(slots)
    && s.chiefDecisions == ChiefOutputs(s.outputs)
    && StagesOk(s.stages) && StatusMap(s.stages) == statuses && Filed(s)
  }

  /** What the Chief, the proposal and the risk decision look like for this ending. */
  ghost predicate Settled(s: State, q: Request, ending: Ending) {
    if s.chiefDecision.None? then
      s.proposal.None? && s.risk.None? && ending.disposition in {Aborted, PolicyHold}
    else
      && s.chiefDecisions != [] && s.chiefDecision.value == s.chiefDecisions[|s.chiefDecisions| - 1]
      && ValidChief(s.chiefDecision.value) && s.proposal == s.chiefDecision.value.chief.proposal
      && s.chiefDecision.value.cycleId == q.snapshot.cycleId
      && s.chiefDecision.value.snapshotId == q.snapshot.snapshotId
      && if s.chiefDecision.value.chief.action == ActHold then s.risk.None? && ending == Ending(ChiefHold, ChiefSource)
         else
           && ending == RiskEnding(s.chiefDecision.value.chief.action, s.risk)
           && (s.risk.Some? ==> DecisionFits(s.risk.value, s.proposal.value, q))
  }

  predicate DecisionFits(d: Decision, p: Proposal, q: Request) {
    && d.cycleId == q.snapshot.cycleId && d.snapshotId == q.snapshot.snapshotId && d.proposalId == p.proposalId
    && ValidDecision(d)
    && (d.status == Approved ==>
          && p.entry.Some? && p.stopLoss.Some? && p.takeProfit.Some?
          && d.sizing.value.selectedVolume.Some? && 0.0 < d.sizing.value.selectedVolume.value)
  }

  predicate ContextFits(q: Request, ending: Ending) {
    (q.context.cycleId == q.snapshot.cycleId && q.context.snapshotId == q.snapshot.snapshotId)
      || ending.disposition == Aborted
  }

  /** When a ready state presents as a valid cycle. */
  predicate Presentable(s: State, q: Request, startedAt: Instant, completedAt: Instant) {
    startedAt <= completedAt && q.market.timeframe == q.timeframe && (s.chiefDecisions == [] || s.chiefDecision.Some?)
  }

  lemma ReadyFilled(s: State, w: World, q: Request, slots: seq<Slot>, passed: bool, extra: Option<FailureCategory>,
                    statuses: map<nat, StageStatus>)
    requires Ready(s, w, q, slots, passed, extra, statuses) && Consistent(w, q)
    ensures var s' := FillSkipped(s);
            && AllStages(s'.stages) && StagesOk(s'.stages) && s' == s.(stages := s'.stages) && Filed(s')
            && forall n :: 1 <= n <= 6 ==> s'.stages[n].status == if n in statuses then statuses[n] else StageSkipped
  {
    CollectedUnique(s, w, q, slots, passed, extra);
    FillFromOk(s, 1);
    FilledStatuses(s, 1);
    FiledFill(s, 1);
  }

  lemma {:induction false} FilledStatuses(s: State, n: nat)
    requires 1 <= n <= 7
    ensures var s' := FillFrom(s, n);
            && (forall m :: m in s.stages ==> m in s'.stages && s'.stages[m] == s.stages[m])
            && (forall m :: m in s'.stages && m !in s.stages ==> s'.stages[m].status == StageSkipped)
    decreases 7 - n
  {
    if n <= 6 { FilledStatuses(if n in s.stages then s else SetStage(s, n, StageSkipped), n + 1); }
  }

  lemma PresentedIff(s: State, w: World, q: Request, slots: seq<Slot>, passed: bool, extra: Option<FailureCategory>,
                     statuses: map<nat, StageStatus>, startedAt: Instant, completedAt: Instant, ending: Ending)
    requires Ready(s, w, q, slots, passed, extra, statuses) && Consistent(w, q)
    requires Settled(s, q, ending) && ContextFits(q, ending) && SameIdentity(q)
    ensures var s' := FillSkipped(s);
            && AllStages(s'.stages)
            && (ValidCycle(Present(q, s', startedAt, completedAt, ending.disposition, ending.source))
                <==> Presentable(s, q, startedAt, completedAt))
  {
    hide Ready, Collected, Consistent, ResultsMatch, ValidDecision, FillSkipped, StagesOk;
    ReadyFilled(s, w, q, slots, passed, extra, statuses);
    var s' := FillSkipped(s);
    var c := Present(q, s', startedAt, completedAt, ending.disposition, ending.source);
    assert ResultsMatch(c) && ChiefOutputs(c.outputs) == c.chiefDecisions by {
      ReadyParts(s, w, q, slots, passed, extra, statuses);
      CollectedResultsMatch(s, w, q, slots, passed, extra, c);
    }
    NumbersInOrder(s');
  }

  /** What the presented cycle says, and that an approved one has all an intent needs. */
  lemma PresentedFacts(s: State, w: World, q: Request, slots: seq<Slot>, passed: bool, extra: Option<FailureCategory>,
                       statuses: map<nat, StageStatus>, startedAt: Instant, completedAt: Instant, ending: Ending)
    requires Ready(s, w, q, slots, passed, extra, statuses) && Consistent(w, q) && Settled(s, q, ending)
    ensures AllStages(FillSkipped(s).stages)
    ensures var c := Present(q, FillSkipped(s), startedAt, completedAt, ending.disposition, ending.source);
            && Bears(c, q, startedAt, completedAt) && Files(c)
            && c.cycleId == q.snapshot.cycleId && c.snapshotId == q.snapshot.snapshotId
            && c.invocations == s.invocations && c.outputs == s.outputs && c.failures == s.failures
            && c.risk == s.risk && c.chiefDecision == s.chiefDecision
            && c.disposition == ending.disposition && c.source == ending.source
            && |c.stages| == 6
            && (forall i :: 0 <= i < |c.stages| ==> ValidStage(c.stages[i]))
            && (forall n :: 1 <= n <= 6 ==>
                c.stages[n - 1].status == if n in statuses then statuses[n] else StageSkipped)
            && (IsApproved(c) ==>
                  && c.proposal.Some? && c.proposal.value.entry.Some? && c.proposal.value.stopLoss.Some?
                  && c.proposal.value.takeProfit.Some? && c.risk.value.sizing.Some?
                  && c.risk.value.sizing.value.selectedVolume.Some?
                  && 0.0 < c.risk.value.sizing.value.selectedVolume.value
                  && c.proposal.value.cycleId == c.cycleId && c.proposal.value.snapshotId == c.snapshotId)
  {
    hide Ready, Consistent, FillSkipped, Filed, Files;
    ReadyFilled(s, w, q, slots, passed, extra, statuses);
    FiledFiles(q, FillSkipped(s), startedAt, completedAt, ending);
  }

  lemma FiledFiles(q: Request, s: State, startedAt: Instant, completedAt: Instant, ending: Ending)
    requires AllStages(s.stages) && StagesOk(s.stages) && Filed(s)
    ensures Files(Present(q, s, startedAt, completedAt, ending.disposition, ending.source))
  {
    var c := Present(q, s, startedAt, completedAt, ending.disposition, ending.source);
    forall n | 1 <= n <= 6 ensures FilesAt(c, n) {
      assert c.stages[n - 1] == s.stages[n] && FiledAt(s, n);
      FiledStageLists(c, n);
    }
  }

  lemma FiledStageLists(c: Cycle, n: nat)
    requires 1 <= n <= |c.stages| && c.stages[n - 1].number == n
    requires c.stages[n - 1].invocations == StageInvocations(c.invocations, n)
    requires c.stages[n - 1].failures == StageFailures(c.failures, n)
    ensures FilesAt(c, n)
  {
    RolesOfStage(n);
    hide StageOf, RolesIn, StageInvocations, StageFailures;
    forall id ensures id in c.stages[n - 1].invocations <==> CalledIn(c, n, id) {
      ListedInvocations(c.invocations, n, id);
    }
    forall id ensures id in c.stages[n - 1].failures <==> FailedIn(c, n, id) { ListedFailures(c.failures, n, id); }
  }

  lemma RolesOfStage(n: nat)
    ensures forall r :: StageOf(r) == n <==> r in RolesIn(n)
  {}

  lemma NumbersInOrder(s: State)
    requires AllStages(s.stages) && StagesOk(s.stages)
    ensures s.stages[1].number == 1 && s.stages[2].number == 2 && s.stages[3].number == 3
    ensures s.stages[4].number == 4 && s.stages[5].number == 5 && s.stages[6].number == 6
  {}

  lemma ReadyParts(s: State, w: World, q: Request, slots: seq<Slot>, passed: bool, extra: Option<FailureCategory>,
                   statuses: map<nat, StageStatus>)
    requires Ready(s, w, q, slots, passed, extra, statuses)
    ensures Collected(s, w, q, slots, passed, extra) && Increasing(slots) && s.chiefDecisions == ChiefOutputs(s.outputs)
  {}

  // ----- the repository and the orchestrator -----

  datatype ClaimState = Incomplete | Finalized | Abandoned

  datatype Claim = Claim(snapshotId: Identifier, state: ClaimState)

  class AuditRepository {
    var claims: map<Identifier, Claim>
    var records: map<Identifier, ShadowRecord>

    constructor ()
      ensures claims == map[] && records == map[]
    {
      claims, records := map[], map[];
    }

    method ClaimCycle(cycleId: Identifier, snapshotId: Identifier) returns (ok: bool)
      modifies this`claims
      ensures ok <==> cycleId !in old(claims)
      ensures claims == if ok then old(claims)[cycleId := Claim(snapshotId, Incomplete)] else old(claims)
    {
      if cycleId in claims {
        return false;
      }
      claims := claims[cycleId := Claim(snapshotId, Incomplete)];
      ok := true;
    }

    method FinalizeRecord(r: ShadowRecord) returns (ok: bool)
      modifies this
      ensures ok <==>
                && r.cycle.cycleId in old(claims)
                && old(claims)[r.cycle.cycleId] == Claim(r.cycle.snapshotId, Incomplete)
      ensures claims == if ok then old(claims)[r.cycle.cycleId := Claim(r.cycle.snapshotId, Finalized)] else old(claims)
      ensures records == if ok then old(records)[r.cycle.cycleId := r] else old(records)
    {
      var cycleId := r.cycle.cycleId;
      if cycleId !in claims || claims[cycleId].state != Incomplete || claims[cycleId].snapshotId != r.cycle.snapshotId {
        return false;
      }
      records := records[cycleId := r];
      claims := claims[cycleId := claims[cycleId].(state := Finalized)];
      ok := true;
    }
  }

  /** The cycle bears the identities, views and times of its request. */
  predicate Bears(c: Cycle, q: Request, startedAt: Instant, completedAt: Instant) {
    && c.cycleId == q.snapshot.cycleId && c.snapshotId == q.snapshot.snapshotId && c.symbol == q.snapshot.symbol
    && c.timeframe == q.timeframe && c.startedAt == startedAt && c.completedAt == completedAt
    && c.market == q.market && c.context == q.context
  }

  function RolesIn(n: nat): set<Role> {
    match n
    case 1 => {MarketContext, TrendAnalyst, PriceAction}
    case 2 => {EntryAnalyst}
    case 3 => {QuantResearcher, SeniorQuant}
    case 4 => {Skeptic}
    case 5 => {ChiefTrader}
    case _ => {}
  }

  /** Each stage record lists exactly the audited calls and the failed agents of its own stage. */
  ghost predicate Files(c: Cycle) { |c.stages| == 6 && forall n :: 1 <= n <= 6 ==> FilesAt(c, n) }

  ghost predicate FilesAt(c: Cycle, n: int)
    requires 1 <= n <= |c.stages|
  {
    && c.stages[n - 1].number == n
    && (forall id :: id in c.stages[n - 1].invocations <==> CalledIn(c, n, id))
    && forall id :: id in c.stages[n - 1].failures <==> FailedIn(c, n, id)
  }

  predicate CalledIn(c: Cycle, n: int, id: InvocationId) {
    exists v :: v in c.invocations && v.id == id && v.slot.stage == n
  }

  predicate FailedIn(c: Cycle, n: nat, id: FailureId) {
    exists f :: f in c.failures && f.id == id && f.role.Some? && f.role.value in RolesIn(n)
  }

  /** An intent is made of what the Chief proposed last and what risk decided about it. */
  predicate IntentOf(c: Cycle, intent: Option<ShadowIntent>) {
    intent.Some? ==>
      && c.chiefDecision.Some? && c.chiefDecision.value.chief.proposal == Some(intent.value.proposal)
      && c.risk == Some(intent.value.risk)
  }

  class ShadowCycleOrchestrator {
    const repository: AuditRepository
    const policy: Policy

    constructor (repository: AuditRepository, policy: Policy)
      ensures this.repository == repository && this.policy == policy
    {
      this.repository, this.policy := repository, policy;
    }

    method IntentFor(c: Cycle) returns (intent: Option<ShadowIntent>)
      requires ValidCycle(c)
      requires IsApproved(c) ==>
                 && c.proposal.Some? && c.proposal.value.entry.Some? && c.proposal.value.stopLoss.Some?
                 && c.proposal.value.takeProfit.Some? && c.risk.value.sizing.Some?
                 && c.risk.value.sizing.value.selectedVolume.Some?
                 && 0.0 < c.risk.value.sizing.value.selectedVolume.value
                 && c.proposal.value.cycleId == c.cycleId && c.proposal.value.snapshotId == c.snapshotId
      ensures intent.Some? <==> IsApproved(c)
      ensures intent.Some? ==>
                ValidIntent(intent.value) && intent.value.cycleId == c.cycleId
                  && intent.value.snapshotId == c.snapshotId
      ensures IntentOf(c, intent)
    {
      if c.risk.None? || c.risk.value.status != Approved {
        return None;
      }
      var p, d := c.proposal.value, c.risk.value;
      intent := Some(ShadowIntent(c.cycleId, c.snapshotId, p, d, d.sizing.value.selectedVolume.value,
                                  p.entry.value, p.stopLoss.value, p.takeProfit.value));
    }

    /** Builds, validates and stores the record; None when the cycle's own validator refuses it. */
    method Finish(cs: CycleState, q: Request, startedAt: Instant, completedAt: Instant, ending: Ending, ghost w: World,
                  ghost slots: seq<Slot>, ghost passed: bool, ghost extra: Option<FailureCategory>,
                  ghost statuses: map<nat, StageStatus>)
      returns (result: Option<ShadowRecord>)
      requires Consistent(w, q) && SameIdentity(q) && ContextFits(q, ending)
      requires Ready(cs.View(), w, q, slots, passed, extra, statuses) && Settled(cs.View(), q, ending)
      requires q.snapshot.cycleId in repository.claims
      requires repository.claims[q.snapshot.cycleId] == Claim(q.snapshot.snapshotId, Incomplete)
      modifies cs, repository
      ensures result.Some? <==> Presentable(old(cs.View()), q, startedAt, completedAt)
      ensures result.None? ==>
                repository.claims == old(repository.claims) && repository.records == old(repository.records)
      ensures result.Some? ==>
                && repository.claims
                   == old(repository.claims)[q.snapshot.cycleId := Claim(q.snapshot.snapshotId, Finalized)]
                && repository.records == old(repository.records)[q.snapshot.cycleId := result.value]
                && ValidShadowRecord(result.value)
                && var c := result.value.cycle;
                   && Bears(c, q, startedAt, completedAt) && Files(c) && IntentOf(c, result.value.intent)
                   && c.invocations == old(cs.invocations) && c.outputs == old(cs.outputs)
                   && c.failures == old(cs.failures)
                   && c.risk == old(cs.risk) && c.chiefDecision == old(cs.chiefDecision)
                   && c.disposition == ending.disposition && c.source == ending.source
                   && |c.stages| == 6
                   && forall n :: 1 <= n <= 6 ==>
                        c.stages[n - 1].status == if n in statuses then statuses[n] else StageSkipped
    {
      hide Consistent, Collected, Ready, ValidCycle, FillSkipped, Settled, ContextFits, Presentable, Present;
      ghost var s := cs.View();
      PresentedIff(s, w, q, slots, passed, extra, statuses, startedAt, completedAt, ending);
      PresentedFacts(s, w, q, slots, passed, extra, statuses, startedAt, completedAt, ending);
      cs.FillMissing();
      var c := Present(q, cs.View(), startedAt, completedAt, ending.disposition, ending.source);
      if !ValidCycle(c) {
        return None;
      }
      var intent := IntentFor(c);
      var record := ShadowRecord(c, intent);
      var _ := repository.FinalizeRecord(record);
      result := Some(record);
    }

    /** One agent call other than an accepted Chief decision: invoked once and retained. */
    method CallAgent(cs: CycleState, q: Request, w: World, slot: Slot, ghost slots: seq<Slot>, ghost passed: bool,
                     ghost statuses: map<nat, StageStatus>) returns (outcome: Outcome)
      requires Consistent(w, q) && Reached(cs.View(), w, q, slots, passed, statuses)
      requires slot.stage == 1 ==> !passed
      requires slot.role != ChiefTrader && slot == SlotFor(slot.role, slot.round) && slot.stage !in statuses
      requires forall t :: t in slots ==> Rank(t) < Rank(slot)
      modifies cs
      ensures outcome == Invoke(w, q, slot)
      ensures Reached(cs.View(), w, q, slots + [slot], passed, statuses) && cs.chiefDecisions == old(cs.chiefDecisions)
    {
      hide Reached, Consistent;
      ReachedCall(cs.View(), w, q, slots, passed, statuses, slot);
      outcome := Invoke(w, q, slot);
      cs.RetainOutcome(outcome);
    }

    method MarkStage(cs: CycleState, q: Request, n: nat, status: StageStatus, ghost w: World, ghost slots: seq<Slot>,
                     ghost passed: bool, ghost statuses: map<nat, StageStatus>)
      requires Consistent(w, q) && Reached(cs.View(), w, q, slots, passed, statuses)
      modifies cs`stages
      ensures Reached(cs.View(), w, q, slots, passed, statuses[n := status])
    {
      hide Reached, Consistent;
      ReachedStage(cs.View(), w, q, slots, passed, statuses, n, status);
      cs.Stage(n, status);
    }

    /** The three parallel analysts; None when the cycle goes on, otherwise whether it aborts. */
    method RunStageOne(cs: CycleState, q: Request, w: World) returns (stopped: Option<bool>)
      requires Consistent(w, q) && cs.View() == EmptyState
      modifies cs
      ensures stopped == StageOneVerdict(w, q) && cs.chiefDecisions == []
      ensures match stopped
              case Some(abort) =>
                Reached(cs.View(), w, q, StageOne, false, map[1 := if abort then StageAborted else StageHold])
              case None => Reached(cs.View(), w, q, StageOne, true, map[1 := StageOneStatus(w)])
    {
      hide Reached, Consistent, Invoke, SetStage, ReplaceFailures;
      assert Reached(cs.View(), w, q, [], false, map[]) by { NothingReached(w, q); }
      assert [] + [Market1] == [Market1] && [Market1] + [Trend1] == [Market1, Trend1]
             && [Market1, Trend1] + [Price1] == StageOne;
      var market := CallAgent(cs, q, w, Market1, [], false, map[]);
      var trend := CallAgent(cs, q, w, Trend1, [Market1], false, map[]);
      var price := CallAgent(cs, q, w, Price1, [Market1, Trend1], false, map[]);
      VerdictFromOutcomes(w, q);
      stopped := None;
      if IsFailure(market, AbortCycle) || IsFailure(trend, AbortCycle) || IsFailure(price, AbortCycle) {
        stopped := Some(true);
      } else if IsInvalid(market) || IsInvalid(trend) || IsInvalid(price) {
        stopped := Some(false);
      } else if (if market.output.Some? then 1 else 0) + (if trend.output.Some? then 1 else 0)
        + (if price.output.Some? then 1 else 0) < 2 {
        stopped := Some(false);
      }
      if stopped.Some? {
        MarkStage(cs, q, 1, if stopped.value then StageAborted else StageHold, w, StageOne, false, map[]);
        return;
      }
      var failures := OneFailure(market) + OneFailure(trend) + OneFailure(price);
      FailuresOfThree(cs.View(), w, q, map[]);
      ReachedReplaced(cs.View(), w, q, StageOne, map[]);
      cs.Replace(Degraded(failures));
      MarkStage(cs, q, 1, if failures != [] then StageDegraded else StageCompleted, w, StageOne, true, map[]);
    }

    /** The entry analyst and the selected quant review; returns the call that stopped the cycle, if one did. */
    method RunEntryAndQuant(cs: CycleState, q: Request, w: World) returns (stopped: Option<Slot>)
      requires Consistent(w, q) && Reached(cs.View(), w, q, StageOne, true, map[1 := StageOneStatus(w)])
      requires cs.chiefDecisions == []
      modifies cs
      ensures cs.chiefDecisions == []
      ensures stopped == ReviewStop(w, q, policy)
      ensures match stopped
              case Some(slot) =>
                Reached(cs.View(), w, q, Visited(policy, StoppedAt(slot)), true, ReviewStatuses(w, q, slot))
              case None =>
                Reached(cs.View(), w, q, BeforeDebate(policy), true,
                        map[1 := StageOneStatus(w), 2 := StageCompleted, 3 := QuantStatus(w, policy)])
    {
      hide Reached, Consistent, Invoke, SetStage;
      ghost var m := map[1 := StageOneStatus(w)];
      OutcomeShape(w, q, Entry2);
      OutcomeShape(w, q, Quant3);
      OutcomeShape(w, q, Senior3);
      var entry := CallAgent(cs, q, w, Entry2, StageOne, true, m);
      if entry.failure.Some? {
        MarkStage(cs, q, 2, StatusForStop(entry), w, StageOne + [Entry2], true, m);
        return Some(Entry2);
      }
      MarkStage(cs, q, 2, StageCompleted, w, StageOne + [Entry2], true, m);
      m := m[2 := StageCompleted];
      if policy.quant == SkipQuant {
        assert BeforeDebate(policy) == StageOne + [Entry2];
        MarkStage(cs, q, 3, StageSkipped, w, StageOne + [Entry2], true, m);
        return None;
      }
      var quant := CallAgent(cs, q, w, Quant3, StageOne + [Entry2], true, m);
      assert StageOne + [Entry2] + [Quant3] == StageOne + [Entry2, Quant3];
      if quant.failure.Some? && quant.failure.value.disposition != ContinueDegraded {
        MarkStage(cs, q, 3, StatusForStop(quant), w, StageOne + [Entry2, Quant3], true, m);
        return Some(Quant3);
      }
      var degraded := quant.failure.Some?;
      if policy.quant == QuantAndSenior {
        var senior := CallAgent(cs, q, w, Senior3, StageOne + [Entry2, Quant3], true, m);
        assert StageOne + [Entry2, Quant3] + [Senior3] == StageOne + [Entry2, Quant3, Senior3];
        if senior.failure.Some? && senior.failure.value.disposition != ContinueDegraded {
          MarkStage(cs, q, 3, StatusForStop(senior), w, StageOne + [Entry2, Quant3, Senior3], true, m);
          return Some(Senior3);
        }
        degraded := degraded || senior.failure.Some?;
        assert BeforeDebate(policy) == StageOne + [Entry2, Quant3, Senior3];
      } else {
        assert BeforeDebate(policy) == StageOne + [Entry2, Quant3];
      }
      MarkStage(cs, q, 3, if degraded then StageDegraded else StageCompleted, w, BeforeDebate(policy), true, m);
      stopped := None;
    }

    /** One chief call: its output is retained and, when accepted, joins the decision history. */
    method CallChief(cs: CycleState, q: Request, w: World, round: nat, ghost slots: seq<Slot>,
                     ghost statuses: map<nat, StageStatus>)
      returns (draft: Option<Output>)
      requires Consistent(w, q) && Reached(cs.View(), w, q, slots, true, statuses)
      requires forall t :: t in slots ==> Rank(t) < Rank(SlotFor(ChiefTrader, round))
      requires 5 !in statuses
      modifies cs
      ensures Reached(cs.View(), w, q, slots + [SlotFor(ChiefTrader, round)], true, statuses)
      ensures draft == if Failed(w, SlotFor(ChiefTrader, round)) then None
              else Some(w(SlotFor(ChiefTrader, round)).output)
      ensures cs.chiefDecisions == old(cs.chiefDecisions) + if draft.Some? then [draft.value] else []
    {
      hide Reached, Consistent;
      var slot := SlotFor(ChiefTrader, round);
      ReachedCall(cs.View(), w, q, slots, true, statuses, slot);
      var outcome := Invoke(w, q, slot);
      cs.RetainOutcome(outcome);
      draft := outcome.output;
      if draft.Some? {
        cs.chiefDecisions := cs.chiefDecisions + [draft.value];
      }
    }

    /** One debate round; returns the call that failed, or the Chief's draft. */
    method RunRound(cs: CycleState, q: Request, w: World, round: nat, ghost m: map<nat, StageStatus>)
      returns (stopped: Option<Slot>, draft: Option<Output>)
      requires Consistent(w, q) && 1 <= round && 4 !in m && 5 !in m
      requires Reached(cs.View(), w, q, BeforeDebate(policy) + Debated(round - 1), true, m)
      modifies cs
      ensures var skeptic, chief := SlotFor(Skeptic, round), SlotFor(ChiefTrader, round);
              if Failed(w, skeptic) then
                && stopped == Some(skeptic) && cs.chiefDecisions == old(cs.chiefDecisions)
                && Reached(cs.View(), w, q, BeforeDebate(policy) + Debated(round - 1) + [skeptic], true,
                           m[4 := StageHold])
              else if Failed(w, chief) then
                && stopped == Some(chief) && cs.chiefDecisions == old(cs.chiefDecisions)
                && Reached(cs.View(), w, q, BeforeDebate(policy) + Debated(round), true, m[4 := StageCompleted])
              else
                && stopped.None? && draft == Some(w(chief).output)
                && cs.chiefDecisions == old(cs.chiefDecisions) + [draft.value]
                && Reached(cs.View(), w, q, BeforeDebate(policy) + Debated(round), true, m)
    {
      hide Reached, Consistent, Invoke, SetStage, Retain, BeforeDebate;
      ghost var slots := BeforeDebate(policy) + Debated(round - 1);
      DebatedIncreasing(policy, round - 1);
      OutcomeShape(w, q, SlotFor(Skeptic, round));
      stopped, draft := None, None;
      var skeptic := CallAgent(cs, q, w, SlotFor(Skeptic, round), slots, true, m);
      if skeptic.failure.Some? {
        MarkStage(cs, q, 4, StageHold, w, slots + [SlotFor(Skeptic, round)], true, m);
        return Some(SlotFor(Skeptic, round)), None;
      }
      draft := CallChief(cs, q, w, round, slots + [SlotFor(Skeptic, round)], m);
      assert slots + [SlotFor(Skeptic, round)] + [SlotFor(ChiefTrader, round)] == BeforeDebate(policy) + Debated(round);
      if draft.None? {
        MarkStage(cs, q, 4, StageCompleted, w, BeforeDebate(policy) + Debated(round), true, m);
        return Some(SlotFor(ChiefTrader, round)), None;
      }
    }

    /** The bounded debate: it ends at a failure, at a HOLD, or after the last round. */
    method RunDebate(cs: CycleState, q: Request, w: World) returns (path: Path, draft: Option<Output>)
      requires Consistent(w, q) && ValidPolicy(policy) && cs.chiefDecisions == []
      requires Reached(cs.View(), w, q, BeforeDebate(policy), true, ReviewedStatuses(w, policy))
      modifies cs
      ensures path == DebatePath(w, policy.rounds, 1)
      ensures match path
              case StoppedAt(s) =>
                && Reached(cs.View(), w, q, Visited(policy, path), true,
                           ReviewedStatuses(w, policy)[4 := if s.role == Skeptic then StageHold else StageCompleted])
                && (cs.chiefDecisions == [] <==> s.round == 1) && 1 <= s.round
              case HoldAt(r) => Concluded(cs.View(), w, q, policy, r, draft)
              case ProposedAt(r) => Concluded(cs.View(), w, q, policy, r, draft)
              case _ => false
    {
      hide Reached, Consistent, Invoke, SetStage, Retain;
      ghost var m := ReviewedStatuses(w, policy);
      var round := 1;
      assert BeforeDebate(policy) + Debated(0) == BeforeDebate(policy);
      draft := None;
      while true
        invariant 1 <= round <= policy.rounds
        invariant Reached(cs.View(), w, q, BeforeDebate(policy) + Debated(round - 1), true, m)
        invariant DebatePath(w, policy.rounds, 1) == DebatePath(w, policy.rounds, round)
        invariant |cs.chiefDecisions| == round - 1
        decreases policy.rounds - round
      {
        var stopped;
        stopped, draft := RunRound(cs, q, w, round, m);
        if stopped.Some? {
          return StoppedAt(stopped.value), None;
        }
        if draft.value.chief.action == ActHold {
          path := HoldAt(round);
          break;
        }
        if round == policy.rounds {
          path := ProposedAt(round);
          break;
        }
        round := round + 1;
      }
      MarkStage(cs, q, 4, StageCompleted, w, BeforeDebate(policy) + Debated(round), true, m);
      MarkStage(cs, q, 5, StageCompleted, w, BeforeDebate(policy) + Debated(round), true, m[4 := StageCompleted]);
    }

    method MarkReady(cs: CycleState, q: Request, n: nat, status: StageStatus, ghost w: World, ghost slots: seq<Slot>,
                     ghost passed: bool, ghost extra: Option<FailureCategory>, ghost statuses: map<nat, StageStatus>)
      requires Consistent(w, q) && Ready(cs.View(), w, q, slots, passed, extra, statuses)
      modifies cs`stages
      ensures Ready(cs.View(), w, q, slots, passed, extra, statuses[n := status])
    {
      hide Ready, Consistent;
      ReadyStage(cs.View(), w, q, slots, passed, extra, statuses, n, status);
      cs.Stage(n, status);
    }

    /** Makes the last draft final and, unless it is a HOLD, puts its proposal before the risk stage. */
    method Decide(cs: CycleState, q: Request, w: World, risk: RiskStage, ghost path: Path, draft: Output)
      returns (ending: Ending, ghost statuses: map<nat, StageStatus>)
      requires Consistent(w, q) && RiskConsistent(risk, q) && SameIdentity(q)
      requires match path
               case HoldAt(r) => Concluded(cs.View(), w, q, policy, r, Some(draft)) && draft.chief.action == ActHold
               case ProposedAt(r) => Concluded(cs.View(), w, q, policy, r, Some(draft)) && draft.chief.action != ActHold
               case _ => false
      modifies cs
      ensures statuses == StatusesOf(w, q, policy, risk, path)
      ensures Ready(cs.View(), w, q, Visited(policy, path), true, ExtraOf(w, risk, path), statuses)
      ensures ending == EndingOf(w, q, risk, path) && Settled(cs.View(), q, ending)
      ensures cs.chiefDecision.Some? && cs.chiefDecision == DecisionOf(w, path)
      ensures cs.risk == RiskOf(w, risk, path)
    {
      hide Ready, Reached, Consistent, RiskConsistent, Invoke, SetStage, DecisionFits, StatusesOf, EndingOf, ExtraOf,
           ReviewedStatuses;
      ghost var slots := Visited(policy, path);
      ghost var m := ReviewedStatuses(w, policy)[4 := StageCompleted][5 := StageCompleted];
      ReachedReady(cs.View(), w, q, slots, true, m);
      DraftFits(w, q, SlotFor(ChiefTrader, path.round));
      DecisionEnds(w, q, policy, risk, path);
      ghost var before := cs.View();
      cs.chiefDecision := Some(draft);
      cs.proposal := draft.chief.proposal;
      ReadyIgnoresDecision(before, cs.View(), w, q, slots, true, None, m);
      if draft.chief.action == ActHold {
        MarkReady(cs, q, 6, StageSkipped, w, slots, true, None, m);
        ending := Ending(ChiefHold, ChiefSource);
        statuses := m[6 := StageSkipped];
        return;
      }
      var p := draft.chief.proposal.value;
      var decision := risk(p);
      if decision.None? {
        ReadySystemFailure(cs.View(), w, q, slots, true, m, UnknownFailure);
        cs.RecordSystemFailure(q, UnknownFailure);
        MarkReady(cs, q, 6, StageAborted, w, slots, true, Some(UnknownFailure), m);
        ending := Ending(Aborted, Orchestrator);
        statuses := m[6 := StageAborted];
        return;
      }
      assert DecisionFits(decision.value, p, q) by { RiskFits(risk, q, p); }
      ghost var undecided := cs.View();
      cs.risk := decision;
      ReadyIgnoresDecision(undecided, cs.View(), w, q, slots, true, None, m);
      MarkReady(cs, q, 6, StageCompleted, w, slots, true, None, m);
      statuses := m[6 := StageCompleted];
      match decision.value.status {
        case HaltedDecision => ending := Ending(Disposition.RiskHalted, RiskSource);
        case Rejected => ending := Ending(Disposition.RiskRejected, RiskSource);
        case Approved => ending := Ending(if draft.chief.action == ActBuy then WouldBuy else WouldSell, RiskSource);
      }
    }

    /** Everything after the claim: returns how the cycle ended and leaves the state ready to present. */
    method RunStages(cs: CycleState, q: Request, w: World, risk: RiskStage, startedAt: Instant)
      returns (ending: Ending, ghost statuses: map<nat, StageStatus>)
      requires Consistent(w, q) && RiskConsistent(risk, q) && SameIdentity(q) && ValidPolicy(policy)
      requires cs.View() == EmptyState
      modifies cs
      ensures var path := PathOf(w, q, policy, startedAt);
              && statuses == StatusesOf(w, q, policy, risk, path)
              && ending == EndingOf(w, q, risk, path)
              && Ready(cs.View(), w, q, Visited(policy, path), PassedStageOne(path), ExtraOf(w, risk, path), statuses)
              && Settled(cs.View(), q, ending) && ContextFits(q, ending)
              && (cs.chiefDecisions == [] || cs.chiefDecision.Some? <==> !LateFailure(path))
              && cs.chiefDecision == DecisionOf(w, path) && cs.risk == RiskOf(w, risk, path)
    {
      hide Ready, Reached, Consistent, RiskConsistent, Invoke, SetStage, Retain, DecisionFits,
           StageOneVerdict, RiskEnding;
      ghost var path := PathOf(w, q, policy, startedAt);
      if !Compatible(q, startedAt) || q.market.stale {
        var category := if !Compatible(q, startedAt) then SchemaMismatch else StaleSnapshot;
        NothingReached(w, q);
        ReachedReady(cs.View(), w, q, [], false, map[]);
        ReadySystemFailure(cs.View(), w, q, [], false, map[], category);
        cs.RecordSystemFailure(q, category);
        var status := if category == SchemaMismatch then StageAborted else StageHold;
        MarkReady(cs, q, 1, status, w, [], false, Some(category), map[]);
        statuses := map[1 := status];
        assert map[][1 := status] == map[1 := status];
        ending := if category == SchemaMismatch then Ending(Aborted, Orchestrator)
          else Ending(PolicyHold, FailurePolicy);
        return;
      }
      var stopped := RunStageOne(cs, q, w);
      if stopped.Some? {
        statuses := map[1 := if stopped.value then StageAborted else StageHold];
        ReachedReady(cs.View(), w, q, StageOne, false, statuses);
        ending := Ending(if stopped.value then Aborted else PolicyHold, FailurePolicy);
        return;
      }
      ending, statuses := RunReviewed(cs, q, w, risk, path);
    }

    /** Everything after a passed stage one. */
    method RunReviewed(cs: CycleState, q: Request, w: World, risk: RiskStage, ghost path: Path)
      returns (ending: Ending, ghost statuses: map<nat, StageStatus>)
      requires Consistent(w, q) && RiskConsistent(risk, q) && SameIdentity(q) && ValidPolicy(policy)
      requires Reached(cs.View(), w, q, StageOne, true, map[1 := StageOneStatus(w)]) && cs.chiefDecisions == []
      requires q.context.cycleId == q.snapshot.cycleId && q.context.snapshotId == q.snapshot.snapshotId
      requires path == match ReviewStop(w, q, policy)
                       case Some(slot) => StoppedAt(slot)
                       case None => DebatePath(w, policy.rounds, 1)
      modifies cs
      ensures statuses == StatusesOf(w, q, policy, risk, path)
      ensures ending == EndingOf(w, q, risk, path)
      ensures Ready(cs.View(), w, q, Visited(policy, path), true, ExtraOf(w, risk, path), statuses)
      ensures Settled(cs.View(), q, ending) && ContextFits(q, ending)
      ensures cs.chiefDecisions == [] || cs.chiefDecision.Some? <==> !LateFailure(path)
      ensures cs.chiefDecision == DecisionOf(w, path) && cs.risk == RiskOf(w, risk, path)
    {
      hide Ready, Reached, Consistent, RiskConsistent, Invoke, SetStage, Retain, DecisionFits, RiskEnding;
      var review := RunEntryAndQuant(cs, q, w);
      if review.Some? {
        statuses := ReviewStatuses(w, q, review.value);
        ReachedReady(cs.View(), w, q, Visited(policy, path), true, statuses);
        OutcomeShape(w, q, review.value);
        ending := StoppedBy(Invoke(w, q, review.value));
        return;
      }
      var debated, draft := RunDebate(cs, q, w);
      DebatePathShape(w, policy.rounds, 1);
      if debated.StoppedAt? {
        statuses := StatusesOf(w, q, policy, risk, debated);
        ReachedReady(cs.View(), w, q, Visited(policy, path), true, statuses);
        OutcomeShape(w, q, debated.slot);
        ending := StoppedBy(Invoke(w, q, debated.slot));
        return;
      }
      ending, statuses := Decide(cs, q, w, risk, path, draft.value);
      DraftFits(w, q, SlotFor(ChiefTrader, path.round));
    }

    /**
     * One claimed cycle from start to stored record. None means the call raised: the cycle was claimed before, the
     * market view is not the snapshot's, or the finished cycle failed its own validator.
     */
    method RunShadowCycle(q: Request, w: World, risk: RiskStage, startedAt: Instant, completedAt: Instant)
      returns (result: Option<ShadowRecord>)
      requires Consistent(w, q) && RiskConsistent(risk, q) && ValidPolicy(policy)
      modifies repository
      // A claimed cycle is never replayed.
      ensures q.snapshot.cycleId in old(repository.claims) ==>
                result.None? && repository.claims == old(repository.claims)
                  && repository.records == old(repository.records)
      // Otherwise it is claimed once and for all, and its record is stored exactly when it could be built.
      ensures q.snapshot.cycleId !in old(repository.claims) ==>
                && repository.claims == old(repository.claims)[q.snapshot.cycleId :=
                     Claim(q.snapshot.snapshotId, if result.Some? then Finalized else Incomplete)]
                && repository.records
                   == (if result.Some? then old(repository.records)[q.snapshot.cycleId := result.value]
                                          else old(repository.records))
                && (result.Some? <==>
                      && SameIdentity(q) && startedAt <= completedAt && q.market.timeframe == q.timeframe
                      && !C.FailsLate(w, q, policy, startedAt))
      // The record is valid, tells exactly what happened, and holds an intent exactly for an approved trade.
      ensures result.Some? ==>
                && var r, path := result.value, PathOf(w, q, policy, startedAt);
                   && ValidShadowRecord(r) && Tells(r, w, q, policy, risk, path)
                   && C.Tells(r.cycle, w, q, policy, risk, startedAt)
                   && Bears(r.cycle, q, startedAt, completedAt) && Files(r.cycle) && IntentOf(r.cycle, r.intent)
                   && (r.intent.Some? <==> r.cycle.disposition in {WouldBuy, WouldSell})
                   && (r.intent.Some? <==> r.cycle.risk.Some? && r.cycle.risk.value.status == Approved)
                   && |r.cycle.invocations| <= 6 + 2 * policy.rounds
    {
      hide Ready, Consistent, RiskConsistent, Settled, StatusesOf, EndingOf, ExtraOf, PathOf, Visited, Presentable,
           ValidCycle, Failings, Audits, Answers, LateFailure, DecisionOf, RiskOf, C.FailsLate, C.Tells;
      result := None;
      var claimed := repository.ClaimCycle(q.snapshot.cycleId, q.snapshot.snapshotId);
      if !claimed {
        return;
      }
      if q.market.cycleId != q.snapshot.cycleId || q.market.snapshotId != q.snapshot.snapshotId
        || q.market.symbol != q.snapshot.symbol {
        return;
      }
      var cs := new CycleState();
      ghost var path := PathOf(w, q, policy, startedAt);
      var ending; ghost var statuses;
      ending, statuses := RunStages(cs, q, w, risk, startedAt);
      ghost var s := cs.View();
      LateMeans(w, q, policy, startedAt);
      result := Finish(cs, q, startedAt, completedAt, ending, w, Visited(policy, path), PassedStageOne(path),
                       ExtraOf(w, risk, path), statuses);
      PresentableParts(s, q, startedAt, completedAt);
      if result.Some? {
        ReadyParts(s, w, q, Visited(policy, path), PassedStageOne(path), ExtraOf(w, risk, path), statuses);
        CollectedParts(s, w, q, Visited(policy, path), PassedStageOne(path), ExtraOf(w, risk, path));
        AuditsDistinct(w, q, Visited(policy, path));
        VisitedLength(w, q, policy, startedAt);
        ApprovedIffWould(result.value.cycle, s, q, ending);
        TellsCourse(result.value, w, q, policy, risk, startedAt);

      }
    }
  }

  // ----- the path and the record, told from the replies -----

  lemma SameSlots(p: Policy, r: nat)
    ensures StageOne == C.Analysts && Entry2 == C.Entry && Quant3 == C.Quant && Senior3 == C.Senior
    ensures QuantSlots(p) == C.Reviewers(p)
    ensures SlotFor(Skeptic, r) == C.SkepticIn(r) && SlotFor(ChiefTrader, r) == C.ChiefIn(r)
  {}

  lemma {:induction false} DebatedRounds(r: nat)
    ensures Debated(r) == C.Rounds(r)
  {
    if r > 0 { DebatedRounds(r - 1); }
  }

  /** Stage one ends the cycle exactly as the analysts' replies say. */
  lemma VerdictMeans(w: World, q: Request)
    ensures StageOneVerdict(w, q) == Some(true) <==> C.AnalystAborts(w)
    ensures StageOneVerdict(w, q) == Some(false) <==> !C.AnalystAborts(w) && C.AnalystsHold(w)
    ensures StageOneStatus(w) == C.FirstStatus(w)
  {
    C.CallMeans(w, q, Market1);
    C.CallMeans(w, q, Trend1);
    C.CallMeans(w, q, Price1);
    hide Invoke, C.Aborting, C.Garbled, C.AnalystAborts, C.AnalystsHold, C.FirstStatus, StageOneVerdict;
    C.AnalystsMean(w);
    VerdictFromOutcomes(w, q);
    SameSlots(Policy(1, SkipQuant), 0);
    Trusted(w(Market1));
    Trusted(w(Trend1));
    Trusted(w(Price1));
  }

  /** An answer neither aborts nor is garbled. */
  lemma Trusted(r: Reply)
    ensures r.Answer? ==> !C.Aborting(r) && !C.Garbled(r)
    ensures C.Aborting(r) ==> !C.Garbled(r)
    ensures C.Fails(r, {UnknownProviderError}) ==> C.Aborting(r)
  {}

  lemma StopMeans(w: World, q: Request, s: Slot)
    ensures Failed(w, s) && FailureDispositionAt(w, q, s) == AbortCycle <==> C.Aborting(w(s))
    ensures Failed(w, s) && s.role in {QuantResearcher, SeniorQuant} ==> (QuantStops(w, q, s) <==> C.Halts(w, s))
    ensures !Failed(w, s) ==> !QuantStops(w, q, s) && !C.Halts(w, s)
    ensures StopStatus(w, q, s) == C.StopOf(w(s))
  {
    C.CallMeans(w, q, s);
    Trusted(w(s));
    hide Invoke, C.Aborting, C.Garbled;
  }

  /** Where the debate ends, by its last round. */
  function PathIn(w: World, p: Policy, round: nat): Path {
    if !C.Answered(w, C.SkepticIn(round)) then StoppedAt(C.SkepticIn(round))
    else if !C.Answered(w, C.ChiefIn(round)) then StoppedAt(C.ChiefIn(round))
    else if w(C.ChiefIn(round)).output.chief.action == ActHold then HoldAt(round) else ProposedAt(round)
  }

  lemma {:induction false} DebateMeans(w: World, p: Policy, r: nat) returns (round: nat)
    requires 1 <= r <= p.rounds && forall i :: 1 <= i < r ==> C.Undecided(w, i)
    ensures C.LastRound(w, p, round) && DebatePath(w, p.rounds, r) == PathIn(w, p, round)
    decreases p.rounds - r
  {
    if r < p.rounds && C.Undecided(w, r) { round := DebateMeans(w, p, r + 1); } else { round := r; }
  }

  lemma LastRoundUnique(w: World, p: Policy, r: nat, s: nat)
    requires C.LastRound(w, p, r) && C.LastRound(w, p, s)
    ensures r == s
  {}

  lemma PathMeans(w: World, q: Request, p: Policy, at: Instant) returns (round: nat)
    requires ValidPolicy(p)
    ensures C.Debates(w, q, p, at) ==> C.LastRound(w, p, round) && PathOf(w, q, p, at) == PathIn(w, p, round)
    ensures !C.Debates(w, q, p, at) ==>
              PathOf(w, q, p, at)
              == if !C.Usable(q, at) then Incompatible
                 else if q.market.stale then Stale
                 else if C.AnalystAborts(w) then StageOneFailed(true)
                 else if C.AnalystsHold(w) then StageOneFailed(false)
                 else if !C.Answered(w, C.Entry) then StoppedAt(C.Entry)
                 else if C.Halts(w, C.Quant) && p.quant != SkipQuant then StoppedAt(C.Quant) else StoppedAt(C.Senior)
    ensures !C.Debates(w, q, p, at) && C.Usable(q, at) && !q.market.stale && !C.AnalystAborts(w) && !C.AnalystsHold(w)
            && C.Answered(w, C.Entry) ==>
              p.quant != SkipQuant && (C.Halts(w, C.Quant) || (p.quant == QuantAndSenior && C.Halts(w, C.Senior)))
  {
    round := DebateMeans(w, p, 1);
    VerdictMeans(w, q);
    StopMeans(w, q, Quant3);
    StopMeans(w, q, Senior3);
    SameSlots(p, 0);
    hide StageOneVerdict, C.AnalystAborts, C.AnalystsHold, C.Halts, QuantStops, DebatePath, C.LastRound, PathIn;
    ReviewersHalt(w, p);
  }

  lemma ReviewersHalt(w: World, p: Policy)
    ensures (forall s :: s in C.Reviewers(p) ==> !C.Halts(w, s)) <==>
              && (p.quant != SkipQuant ==> !C.Halts(w, C.Quant))
              && (p.quant == QuantAndSenior ==> !C.Halts(w, C.Senior))
  {
    hide C.Halts;
    if p.quant == QuantOnly { assert C.Reviewers(p)[0] == C.Quant; }
    if p.quant == QuantAndSenior { assert C.Reviewers(p)[0] == C.Quant && C.Reviewers(p)[1] == C.Senior; }
  }

  lemma LateMeans(w: World, q: Request, p: Policy, at: Instant)
    requires ValidPolicy(p)
    ensures LateFailure(PathOf(w, q, p, at)) <==> C.FailsLate(w, q, p, at)
  {
    var round := PathMeans(w, q, p, at);
    hide C.Debates, PathOf, C.AnalystAborts, C.AnalystsHold, C.Halts, C.Undecided, C.LastRound;
    forall r: nat | C.LastRound(w, p, round) && C.LastRound(w, p, r) ensures r == round {
      LastRoundUnique(w, p, r, round);
    }
  }

  /** The six statuses a path ends with. */
  function StagesOf(w: World, q: Request, p: Policy, risk: RiskStage, path: Path): seq<StageStatus> {
    var m := StatusesOf(w, q, p, risk, path);
    seq(6, i requires 0 <= i < 6 => if i + 1 in m then m[i + 1] else StageSkipped)
  }

  /** A record that tells a path holds its calls and closes as the path does. */
  lemma TellsAs(r: ShadowRecord, w: World, q: Request, p: Policy, risk: RiskStage, path: Path)
    requires Tells(r, w, q, p, risk, path)
    requires ExtraOf(w, risk, path).Some? ==>
               ExtraOf(w, risk, path).value in {SchemaMismatch, StaleSnapshot, UnknownFailure}
    ensures C.Holds(r.cycle, w, q, Visited(p, path), PassedStageOne(path), ExtraOf(w, risk, path))
    ensures C.Closes(r.cycle, EndingOf(w, q, risk, path).disposition, EndingOf(w, q, risk, path).source,
                     StagesOf(w, q, p, risk, path))
  {
    hide StatusesOf, EndingOf, ExtraOf, Visited, Audits, Answers, Failings;
    forall i | 0 <= i < 6 ensures r.cycle.stages[i].status == StagesOf(w, q, p, risk, path)[i] {
      var n := i + 1;
      assert r.cycle.stages[n - 1].status == (var m := StatusesOf(w, q, p, risk, path); if n in m then m[n]
                                                                                        else StageSkipped);
    }
  }

  lemma PreludeSays(w: World, q: Request, p: Policy, risk: RiskStage, abort: bool)
    ensures var skip := StageSkipped;
            && Visited(p, Incompatible) == [] == Visited(p, Stale) && Visited(p, StageOneFailed(abort)) == StageOne
            && ExtraOf(w, risk, Incompatible) == Some(SchemaMismatch) && ExtraOf(w, risk, Stale) == Some(StaleSnapshot)
            && ExtraOf(w, risk, StageOneFailed(abort)).None?
            && EndingOf(w, q, risk, Incompatible) == Ending(Aborted, Orchestrator)
            && EndingOf(w, q, risk, Stale) == Ending(PolicyHold, FailurePolicy)
            && EndingOf(w, q, risk, StageOneFailed(abort))
               == Ending(if abort then Aborted else PolicyHold, FailurePolicy)
            && StagesOf(w, q, p, risk, Incompatible) == [StageAborted, skip, skip, skip, skip, skip]
            && StagesOf(w, q, p, risk, Stale) == [StageHold, skip, skip, skip, skip, skip]
            && StagesOf(w, q, p, risk, StageOneFailed(abort))
               == [if abort then StageAborted else StageHold, skip, skip, skip, skip, skip]
  {}

  /** How a failed call ends a path. */
  lemma StopSays(w: World, q: Request, p: Policy, risk: RiskStage, s: Slot)
    ensures ExtraOf(w, risk, StoppedAt(s)).None?
    ensures EndingOf(w, q, risk, StoppedAt(s))
         == Ending(if C.Aborting(w(s)) then Aborted else PolicyHold, FailurePolicy)
    ensures DecisionOf(w, StoppedAt(s)).None? && RiskOf(w, risk, StoppedAt(s)).None?
  {
    StopMeans(w, q, s);
    hide C.Aborting, FailureDispositionAt;
  }

  lemma ReviewVisits(p: Policy)
    ensures Visited(p, StoppedAt(C.Entry)) == C.Analysts + [C.Entry]
    ensures Visited(p, StoppedAt(C.Quant)) == C.Analysts + [C.Entry, C.Quant]
    ensures Visited(p, StoppedAt(C.Senior)) == C.Analysts + [C.Entry, C.Quant, C.Senior]
  {
    SameSlots(p, 0);
  }

  lemma ReviewStages(w: World, q: Request, p: Policy, risk: RiskStage)
    ensures var one, skip := C.FirstStatus(w), StageSkipped;
            && StagesOf(w, q, p, risk, StoppedAt(C.Entry)) == [one, C.StopOf(w(C.Entry)), skip, skip, skip, skip]
            && StagesOf(w, q, p, risk, StoppedAt(C.Quant))
               == [one, StageCompleted, C.StopOf(w(C.Quant)), skip, skip, skip]
            && StagesOf(w, q, p, risk, StoppedAt(C.Senior))
               == [one, StageCompleted, C.StopOf(w(C.Senior)), skip, skip, skip]
  {
    hide C.FirstStatus, StageOneStatus, StopStatus, C.StopOf, C.AnalystAborts, C.AnalystsHold, C.Aborting,
         StageOneVerdict, FailureDispositionAt, C.Halts, QuantStops, QuantStatus;
    VerdictMeans(w, q);
    StopMeans(w, q, C.Entry);
    StopMeans(w, q, C.Quant);
    StopMeans(w, q, C.Senior);
  }

  lemma TellsEarly(r: ShadowRecord, w: World, q: Request, p: Policy, risk: RiskStage, at: Instant)
    requires ValidPolicy(p) && !C.Debates(w, q, p, at) && Tells(r, w, q, p, risk, PathOf(w, q, p, at))
    requires r.cycle.chiefDecision == DecisionOf(w, PathOf(w, q, p, at))
             && r.cycle.risk == RiskOf(w, risk, PathOf(w, q, p, at))
    ensures C.EndsEarly(r.cycle, w, q, p, at)
  {
    hide PathOf, C.Debates, C.AnalystAborts, C.AnalystsHold, C.Halts, C.Aborting, C.FirstStatus, C.StopOf, Tells,
         C.Holds, C.Closes, Visited, ExtraOf, EndingOf, StagesOf, C.Usable;
    var _ := PathMeans(w, q, p, at);
    var path := PathOf(w, q, p, at);
    PreludeSays(w, q, p, risk, path.StageOneFailed? && path.abort);
    ReviewVisits(p);
    ReviewStages(w, q, p, risk);
    SameSlots(p, 0);
    if path.StoppedAt? { StopSays(w, q, p, risk, path.slot); }
    TellsAs(r, w, q, p, risk, path);
  }

  lemma ThirdMeans(w: World, p: Policy)
    ensures QuantStatus(w, p) == C.ThirdStatus(w, p)
  {
    hide C.Answered;
    assert !Failed(w, Quant3) == C.Answered(w, C.Quant) && !Failed(w, Senior3) == C.Answered(w, C.Senior) by {
      SameSlots(p, 0);
      AnsweredOrFailed(w, Quant3);
      AnsweredOrFailed(w, Senior3);
    }
    var all := C.Reviewers(p);
    if p.quant == QuantOnly {
      assert all[0] == C.Quant && forall s :: s in all <==> s == C.Quant;
    } else if p.quant == QuantAndSenior {
      assert all[0] == C.Quant && all[1] == C.Senior && forall s :: s in all <==> s == C.Quant || s == C.Senior;
    }
  }

  lemma AnsweredOrFailed(w: World, s: Slot)
    ensures C.Answered(w, s) == !Failed(w, s)
  {}

  lemma DebateVisits(p: Policy, round: nat)
    requires 1 <= round
    ensures var before := C.Analysts + [C.Entry] + C.Reviewers(p);
            && Visited(p, StoppedAt(C.SkepticIn(round))) == before + C.Rounds(round - 1) + [C.SkepticIn(round)]
            && Visited(p, StoppedAt(C.ChiefIn(round))) == before + C.Rounds(round)
            && Visited(p, HoldAt(round)) == before + C.Rounds(round) == Visited(p, ProposedAt(round))
  {
    SameSlots(p, round);
    DebatedRounds(round - 1);
    DebatedRounds(round);
    hide Debated, C.Rounds, C.Reviewers, QuantSlots;
    assert BeforeDebate(p) == C.Analysts + [C.Entry] + C.Reviewers(p);
  }

  lemma DebateStages(w: World, q: Request, p: Policy, risk: RiskStage, round: nat)
    ensures var one, three, done, skip := C.FirstStatus(w), C.ThirdStatus(w, p), StageCompleted, StageSkipped;
            && StagesOf(w, q, p, risk, StoppedAt(C.SkepticIn(round))) == [one, done, three, StageHold, skip, skip]
            && StagesOf(w, q, p, risk, StoppedAt(C.ChiefIn(round))) == [one, done, three, done, skip, skip]
            && StagesOf(w, q, p, risk, HoldAt(round)) == [one, done, three, done, done, skip]
            && StagesOf(w, q, p, risk, ProposedAt(round))
               == [one, done, three, done, done, if ExtraOf(w, risk, ProposedAt(round)).Some? then StageAborted
                   else done]
  {
    hide C.FirstStatus, StageOneStatus, QuantStatus, C.ThirdStatus, StopStatus, ExtraOf, StageOneVerdict,
         C.AnalystAborts, C.AnalystsHold;
    ThirdMeans(w, p);
    VerdictMeans(w, q);
  }

  lemma DecisionSays(w: World, q: Request, p: Policy, risk: RiskStage, round: nat)
    requires Consistent(w, q) && C.Answered(w, C.ChiefIn(round))
    ensures var o := w(C.ChiefIn(round)).output;
            && DecisionOf(w, HoldAt(round)) == Some(o) == DecisionOf(w, ProposedAt(round))
            && RiskOf(w, risk, HoldAt(round)).None? && ExtraOf(w, risk, HoldAt(round)).None?
            && EndingOf(w, q, risk, HoldAt(round)) == Ending(ChiefHold, ChiefSource)
            && (o.chief.action != ActHold ==>
                  && o.chief.proposal.Some?
                  && var d := risk(o.chief.proposal.value);
                     && RiskOf(w, risk, ProposedAt(round)) == d
                     && ExtraOf(w, risk, ProposedAt(round)) == (if d.None? then Some(UnknownFailure) else None)
                     && EndingOf(w, q, risk, ProposedAt(round)) == RiskEnding(o.chief.action, d))
  {
    SameSlots(p, round);
    DraftFits(w, q, C.ChiefIn(round));
    hide Consistent;
  }

  lemma TellsDebate(r: ShadowRecord, w: World, q: Request, p: Policy, risk: RiskStage, round: nat)
    requires Consistent(w, q) && 1 <= round && Tells(r, w, q, p, risk, PathIn(w, p, round))
    requires r.cycle.chiefDecision == DecisionOf(w, PathIn(w, p, round))
             && r.cycle.risk == RiskOf(w, risk, PathIn(w, p, round))
    ensures C.EndsIn(r.cycle, w, q, p, risk, round)
  {
    hide C.Aborting, C.FirstStatus, C.ThirdStatus, Tells, C.Holds, C.Closes, C.Rounds, Consistent, C.Reviewers,
         Visited, ExtraOf, EndingOf, StagesOf, DecisionOf, RiskOf;
    var path := PathIn(w, p, round);
    DebateVisits(p, round);
    DebateStages(w, q, p, risk, round);
    if path.StoppedAt? { StopSays(w, q, p, risk, path.slot); } else { DecisionSays(w, q, p, risk, round); }
    TellsAs(r, w, q, p, risk, path);
  }

  /** The record of a cycle tells what the replies make of it. */
  lemma TellsCourse(r: ShadowRecord, w: World, q: Request, p: Policy, risk: RiskStage, at: Instant)
    requires ValidPolicy(p) && Consistent(w, q) && Tells(r, w, q, p, risk, PathOf(w, q, p, at))
    requires r.cycle.chiefDecision == DecisionOf(w, PathOf(w, q, p, at))
             && r.cycle.risk == RiskOf(w, risk, PathOf(w, q, p, at))
    ensures C.Tells(r.cycle, w, q, p, risk, at)
  {
    var round := PathMeans(w, q, p, at);
    hide PathOf, PathIn, Tells, DecisionOf, RiskOf, C.Debates, C.EndsEarly, C.EndsIn, C.LastRound, Consistent;
    if C.Debates(w, q, p, at) {
      RoundFromOne(w, p, round);
      TellsDebate(r, w, q, p, risk, round);
    } else {
      TellsEarly(r, w, q, p, risk, at);
    }
  }

  lemma RoundFromOne(w: World, p: Policy, round: nat)
    requires C.LastRound(w, p, round)
    ensures 1 <= round
  {}

  function StoppedBy(o: Outcome): Ending { Stopped(IsFailure(o, AbortCycle)) }

  lemma {:induction false} DebatePathShape(w: World, rounds: nat, r: nat)
    requires 1 <= r <= rounds
    ensures match DebatePath(w, rounds, r)
            case StoppedAt(s) =>
              Failed(w, s) && r <= s.round <= rounds
                && (s == SlotFor(Skeptic, s.round) || s == SlotFor(ChiefTrader, s.round))
            case HoldAt(n) => r <= n <= rounds && !Failed(w, SlotFor(ChiefTrader, n)) && ActionAt(w, n) == ActHold
            case ProposedAt(n) => r <= n <= rounds && !Failed(w, SlotFor(ChiefTrader, n)) && ActionAt(w, n) != ActHold
            case _ => false
    decreases rounds - r
  {
    if !Failed(w, SlotFor(Skeptic, r)) && !Failed(w, SlotFor(ChiefTrader, r)) && ActionAt(w, r) != ActHold
      && r < rounds {
      DebatePathShape(w, rounds, r + 1);
    }
  }

  lemma PresentableParts(s: State, q: Request, startedAt: Instant, completedAt: Instant)
    ensures Presentable(s, q, startedAt, completedAt) <==>
              startedAt <= completedAt && q.market.timeframe == q.timeframe
                && (s.chiefDecisions == [] || s.chiefDecision.Some?)
  {}

  lemma CollectedParts(s: State, w: World, q: Request, slots: seq<Slot>, passed: bool, extra: Option<FailureCategory>)
    requires Collected(s, w, q, slots, passed, extra)
    ensures s.invocations == Audits(w, q, slots) && s.outputs == Answers(w, q, slots)
    ensures s.failures == Failings(w, q, slots, passed) + ExtraFailures(q, extra)
  {}

  /** No path makes more than six calls before the debate and two in each of its rounds. */
  lemma VisitedLength(w: World, q: Request, p: Policy, at: Instant)
    requires ValidPolicy(p)
    ensures |Visited(p, PathOf(w, q, p, at))| <= 6 + 2 * p.rounds
  {
    hide StageOneVerdict, QuantStops, Compatible;
    var path := PathOf(w, q, p, at);
    DebatePathShape(w, p.rounds, 1);
    match path
    case StoppedAt(s) =>
      if s.stage >= 4 {
        DebatedLength(s.round);
        DebatedLength(s.round - 1);
      }
    case HoldAt(r) => DebatedLength(r);
    case ProposedAt(r) => DebatedLength(r);
    case _ =>
  }

  lemma ApprovedIffWould(c: Cycle, s: State, q: Request, ending: Ending)
    requires Settled(s, q, ending) && c.risk == s.risk && c.disposition == ending.disposition
    ensures c.disposition in {WouldBuy, WouldSell} <==> c.risk.Some? && c.risk.value.status == Approved
  {}

  lemma ReadyStage(s: State, w: World, q: Request, slots: seq<Slot>, passed: bool, extra: Option<FailureCategory>,
                   statuses: map<nat, StageStatus>, n: nat, status: StageStatus)
    requires Ready(s, w, q, slots, passed, extra, statuses) && Consistent(w, q)
    ensures Ready(SetStage(s, n, status), w, q, slots, passed, extra, statuses[n := status])
  {
    hide Consistent, Unique, StagesOk, Increasing, Collected, SetStage, StatusMap;
    CollectedUnique(s, w, q, slots, passed, extra);
    SetStageOk(s, n, status);
    StageSet(s, w, q, slots, passed, extra, n, status);
    FiledStage(s, n, status);
  }

  lemma StageSet(s: State, w: World, q: Request, slots: seq<Slot>, passed: bool, extra: Option<FailureCategory>,
                 n: nat, status: StageStatus)
    requires Collected(s, w, q, slots, passed, extra)
    ensures Collected(SetStage(s, n, status), w, q, slots, passed, extra)
    ensures StatusMap(SetStage(s, n, status).stages) == StatusMap(s.stages)[n := status]
    ensures SetStage(s, n, status).chiefDecisions == s.chiefDecisions && SetStage(s, n, status).outputs == s.outputs
  {
    hide Audits, Answers, Failings, StageInvocations, StageFailures;
  }

  lemma ReachedReady(s: State, w: World, q: Request, slots: seq<Slot>, passed: bool, statuses: map<nat, StageStatus>)
    requires Reached(s, w, q, slots, passed, statuses)
    ensures Ready(s, w, q, slots, passed, None, statuses)
    ensures s.chiefDecision.None? && s.proposal.None? && s.risk.None?
  {
    assert s.failures + [] == s.failures;
  }

  lemma ReadySystemFailure(s: State, w: World, q: Request, slots: seq<Slot>, passed: bool,
                           statuses: map<nat, StageStatus>,
                           category: FailureCategory)
    requires Ready(s, w, q, slots, passed, None, statuses)
    ensures Ready(AddSystemFailure(s, q, category), w, q, slots, passed, Some(category), statuses)
  {
    assert Failings(w, q, slots, passed) + [] == Failings(w, q, slots, passed);
    FiledSystemFailure(s, q, category);
  }

  lemma ReadyIgnoresDecision(s: State, s': State, w: World, q: Request, slots: seq<Slot>, passed: bool,
                             extra: Option<FailureCategory>, statuses: map<nat, StageStatus>)
    requires Ready(s, w, q, slots, passed, extra, statuses)
    requires s' == s.(chiefDecision := s'.chiefDecision, proposal := s'.proposal, risk := s'.risk)
    ensures Ready(s', w, q, slots, passed, extra, statuses)
  {}

  lemma DraftFits(w: World, q: Request, slot: Slot)
    requires Consistent(w, q) && !Failed(w, slot) && slot.role == ChiefTrader
    ensures ValidChief(w(slot).output) && w(slot).output.cycleId == q.market.cycleId
            && w(slot).output.snapshotId == q.market.snapshotId
  {}

  /** Ending and statuses of a cycle whose debate concluded. */
  lemma DecisionEnds(w: World, q: Request, p: Policy, risk: RiskStage, path: Path)
    requires (path.HoldAt? || path.ProposedAt?) && !Failed(w, SlotFor(ChiefTrader, path.round))
    requires ValidChief(w(SlotFor(ChiefTrader, path.round)).output)
    requires path.HoldAt? <==> w(SlotFor(ChiefTrader, path.round)).output.chief.action == ActHold
    ensures var chief := w(SlotFor(ChiefTrader, path.round)).output.chief;
            var m := ReviewedStatuses(w, p)[4 := StageCompleted][5 := StageCompleted];
            if path.HoldAt? then
              && EndingOf(w, q, risk, path) == Ending(ChiefHold, ChiefSource) && ExtraOf(w, risk, path).None?
              && StatusesOf(w, q, p, risk, path) == m[6 := StageSkipped]
            else
              && chief.proposal.Some? && ProposalAt(w, path.round) == chief.proposal.value
              && var d := risk(chief.proposal.value);
                 && EndingOf(w, q, risk, path) == RiskEnding(chief.action, d)
                 && ExtraOf(w, risk, path) == (if d.None? then Some(UnknownFailure) else None)
                 && StatusesOf(w, q, p, risk, path) == m[6 := if d.None? then StageAborted else StageCompleted]
  {
    hide StageOneStatus, QuantStatus, RiskEnding;
  }

  lemma RiskFits(risk: RiskStage, q: Request, p: Proposal)
    requires RiskConsistent(risk, q) && risk(p).Some?
    ensures DecisionFits(risk(p).value, p, q)
  {}

  /** The call of stages two and three that stops the cycle. */
  function ReviewStop(w: World, q: Request, p: Policy): Option<Slot> {
    if Failed(w, Entry2) then Some(Entry2)
    else if p.quant != SkipQuant && QuantStops(w, q, Quant3) then Some(Quant3)
    else if p.quant == QuantAndSenior && QuantStops(w, q, Senior3) then Some(Senior3)
    else None
  }

  function ReviewStatuses(w: World, q: Request, s: Slot): map<nat, StageStatus> {
    if s == Entry2 then map[1 := StageOneStatus(w), 2 := StopStatus(w, q, s)]
    else map[1 := StageOneStatus(w), 2 := StageCompleted, 3 := StopStatus(w, q, s)]
  }

  function ReviewedStatuses(w: World, p: Policy): map<nat, StageStatus> {
    map[1 := StageOneStatus(w), 2 := StageCompleted, 3 := QuantStatus(w, p)]
  }

  function StatusForStop(o: Outcome): StageStatus { if IsFailure(o, AbortCycle) then StageAborted else StageHold }

  /** The debate has ended with an accepted Chief decision in round r. */
  ghost predicate Concluded(s: State, w: World, q: Request, p: Policy, r: nat, draft: Option<Output>) {
    && Reached(s, w, q, BeforeDebate(p) + Debated(r), true,
               ReviewedStatuses(w, p)[4 := StageCompleted][5 := StageCompleted])
    && 1 <= r && !Failed(w, SlotFor(ChiefTrader, r)) && draft == Some(w(SlotFor(ChiefTrader, r)).output)
    && s.chiefDecisions != [] && s.chiefDecisions[|s.chiefDecisions| - 1] == draft.value
  }

  predicate IsFailure(o: Outcome, d: FailureDisposition) { o.failure.Some? && o.failure.value.disposition == d }

  predicate IsInvalid(o: Outcome) { o.failure.Some? && o.failure.value.category == InvalidOutput }

  function OneFailure(o: Outcome): seq<Failure> { if o.failure.Some? then [o.failure.value] else [] }

  lemma NothingReached(w: World, q: Request)
    ensures Reached(EmptyState, w, q, [], false, map[])
  {
    assert StatusMap(map[]) == map[];
  }

  lemma OutcomeShape(w: World, q: Request, s: Slot)
    ensures Failed(w, s) <==> Invoke(w, q, s).failure.Some?
    ensures Failed(w, s) <==> Invoke(w, q, s).output.None?
    ensures Failed(w, s) ==> FailureDispositionAt(w, q, s) == Invoke(w, q, s).failure.value.disposition
    ensures !Failed(w, s) ==> Invoke(w, q, s).output == Some(w(s).output)
  {}

  lemma VerdictFromOutcomes(w: World, q: Request)
    ensures var a, b, c := Invoke(w, q, Market1), Invoke(w, q, Trend1), Invoke(w, q, Price1);
            StageOneVerdict(w, q) ==
              if IsFailure(a, AbortCycle) || IsFailure(b, AbortCycle) || IsFailure(c, AbortCycle) then Some(true)
              else if IsInvalid(a) || IsInvalid(b) || IsInvalid(c) then Some(false)
              else if (if a.output.Some? then 1 else 0) + (if b.output.Some? then 1 else 0)
                + (if c.output.Some? then 1 else 0) < 2
              then Some(false) else None
    ensures StageOneStatus(w) ==
              if OneFailure(Invoke(w, q, Market1)) + OneFailure(Invoke(w, q, Trend1))
                + OneFailure(Invoke(w, q, Price1)) != []
              then StageDegraded else StageCompleted
  {
    OutcomeShape(w, q, Market1);
    OutcomeShape(w, q, Trend1);
    OutcomeShape(w, q, Price1);
    hide Invoke;
    assert StageOne[0] == Market1 && StageOne[1] == Trend1 && StageOne[2] == Price1;
    assert Market1 in StageOne && Trend1 in StageOne && Price1 in StageOne;
  }

  lemma FailuresOfThree(s: State, w: World, q: Request, statuses: map<nat, StageStatus>)
    requires Reached(s, w, q, StageOne, false, statuses)
    ensures s.failures == OneFailure(Invoke(w, q, Market1)) + OneFailure(Invoke(w, q, Trend1))
            + OneFailure(Invoke(w, q, Price1))
  {
    hide Invoke;
    var two, one := [Market1, Trend1], [Market1];
    assert StageOne[..2] == two && two[..1] == one && one[..0] == [];
    assert Failings(w, q, one, false) == OneFailure(Invoke(w, q, Market1));
    assert Failings(w, q, two, false) == OneFailure(Invoke(w, q, Market1)) + OneFailure(Invoke(w, q, Trend1));
  }

  /** Every analyst and round one succeeds with a BUY; every call of round two times out. */
  function SecondRoundTimesOut(q: Request, p: Proposal): World {
    (s: Slot) => if s.round == 2 then Raised(ProviderTimeout)
         else Answer(Output(OutputOf(Own(s)), q.market.cycleId, q.market.snapshotId, s.role, Chief(ActBuy, Some(p))))
  }

  /**
   * With more than one debate round, consistent replies can leave a cycle whose own validator refuses it: for any
   * usable request, a timeout in round two after a BUY in round one.
   */
  lemma LateFailureHappens(q: Request, policy: Policy, at: Instant, p: Proposal)
    requires ValidPolicy(policy) && 2 <= policy.rounds && Compatible(q, at) && !q.market.stale
    requires p.side == Buy && p.cycleId == q.market.cycleId && p.snapshotId == q.market.snapshotId
    ensures var w: World := SecondRoundTimesOut(q, p);
            Consistent(w, q) && LateFailure(PathOf(w, q, policy, at))
  {
    var w: World := SecondRoundTimesOut(q, p);
    assert StageOneVerdict(w, q).None?;
    assert DebatePath(w, policy.rounds, 1) == DebatePath(w, policy.rounds, 2);
    assert Failed(w, SlotFor(Skeptic, 2));
  }
}
