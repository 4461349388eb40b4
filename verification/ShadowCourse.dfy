/**
 * What the agents' replies make of a shadow cycle, told without the orchestrator: which calls are made, how every
 * stage and the cycle end, and which decision is left. The orchestrator's records are proved to tell exactly this.
 */
module ShadowCourse {
  import opened Prelude
  import opened RiskTypes
  import opened ShadowTypes
  import opened ShadowState
  import opened ShadowInvariants

  // ----- replies -----

  predicate Fails(r: Reply, categories: set<RuntimeCategory>) { (r.Raised? || r.Refused?) && r.category in categories }

  /** A reply after which nothing the agents say can be trusted. */
  predicate Aborting(r: Reply) {
    r.Foreign? || Fails(r, {InvalidRequest, InvalidPromptReference, SchemaIncompatible, CapabilityIncompatible,
                            DuplicateInvocation, UnknownProviderError})
  }

  /** A reply that is no output of its role. */
  predicate Garbled(r: Reply) { r.WrongType? || Fails(r, {InvalidModelOutput}) }

  /** What one call leaves behind, by its reply. */
  lemma CallMeans(w: World, q: Request, s: Slot)
    ensures var o, r := Invoke(w, q, s), w(s);
            && (o.failure.None? <==> r.Answer?) && o.output == (if r.Answer? then Some(r.output) else None)
            && (o.audit.None? <==> r.Raised?)
            && (o.audit.Some? ==>
                  && o.audit.value.slot == s && o.audit.value.id == (if r.Foreign? then r.trace else Own(s))
                  && o.audit.value.output == (if r.Answer? then Some(r.output.id) else None)
                  && o.audit.value.failure == if r.Answer? then None else Some(FailureOf(Own(s))))
            && (o.failure.Some? ==>
                  var f := o.failure.value;
                  && f.id == FailureOf(Own(s)) && f.role == Some(s.role)
                  && f.cycleId == q.market.cycleId && f.snapshotId == q.market.snapshotId
                  && f.category == (if Fails(r, {UnknownProviderError}) then UnknownFailure
                                    else if Aborting(r) then SchemaMismatch
                                    else if Garbled(r) then InvalidOutput
                                    else if Fails(r, {ProviderTimeout}) then Timeout else UnavailableAgent)
                  && f.disposition == if Aborting(r) then AbortCycle
                                      else if !Garbled(r) && s.role in {QuantResearcher, SeniorQuant}
                                      then ContinueDegraded else HoldCycle)
  {}

  // ----- calls -----

  const Analysts := [Slot(1, MarketContext, 0), Slot(1, TrendAnalyst, 0), Slot(1, PriceAction, 0)]
  const Entry := Slot(2, EntryAnalyst, 0)
  const Quant := Slot(3, QuantResearcher, 0)
  const Senior := Slot(3, SeniorQuant, 0)

  function SkepticIn(round: nat): Slot { Slot(4, Skeptic, round) }

  function ChiefIn(round: nat): Slot { Slot(5, ChiefTrader, round) }

  /** The Skeptic and the Chief of every round up to the given one, alternately. */
  function Rounds(rounds: nat): seq<Slot> {
    seq(2 * rounds, i requires 0 <= i < 2 * rounds =>
      if i % 2 == 0 then SkepticIn(i / 2 + 1) else ChiefIn(i / 2 + 1))
  }

  function Reviewers(p: Policy): seq<Slot> {
    if p.quant == SkipQuant then [] else if p.quant == QuantOnly then [Quant] else [Quant, Senior]
  }

  predicate Answered(w: World, s: Slot) { w(s).Answer? }

  // ----- where the cycle ends -----

  /** Inputs that belong together and are not newer than the cycle. */
  predicate Usable(q: Request, at: Instant) {
    && q.context.cycleId == q.snapshot.cycleId && q.context.snapshotId == q.snapshot.snapshotId
    && q.context.accountRef == q.snapshot.accountRef && q.snapshot.completedAt <= q.context.asOf <= at
    && q.context.tradingDayStartedAt <= q.context.asOf
  }

  predicate AnalystAborts(w: World) { exists s :: s in Analysts && Aborting(w(s)) }

  /** An analyst answered no output of its role, or fewer than two answered at all. */
  predicate AnalystsHold(w: World) {
    || (exists s :: s in Analysts && Garbled(w(s)))
    || (exists s, t :: s in Analysts && t in Analysts && s != t && !Answered(w, s) && !Answered(w, t))
  }

  lemma AnalystsMean(w: World)
    ensures var a, b, c := Analysts[0], Analysts[1], Analysts[2];
            && (AnalystAborts(w) <==> Aborting(w(a)) || Aborting(w(b)) || Aborting(w(c)))
            && (AnalystsHold(w) <==>
                  || Garbled(w(a)) || Garbled(w(b)) || Garbled(w(c))
                  || (!Answered(w, a) && !Answered(w, b)) || (!Answered(w, a) && !Answered(w, c))
                  || (!Answered(w, b) && !Answered(w, c)))
            && FirstStatus(w) == if Answered(w, a) && Answered(w, b) && Answered(w, c) then StageCompleted
                                 else StageDegraded
  {
    hide Aborting, Garbled, Answered;
    var all := Analysts;
    assert all[0] in all && all[1] in all && all[2] in all;
    forall s | s in all ensures s == all[0] || s == all[1] || s == all[2] {}
  }

  /** A review stops the cycle unless it answers or was merely unavailable. */
  predicate Halts(w: World, s: Slot) { Aborting(w(s)) || Garbled(w(s)) }

  /** The inputs, the analysts and the selected reviews let the cycle reach its debate. */
  predicate Debates(w: World, q: Request, p: Policy, at: Instant) {
    && Usable(q, at) && !q.market.stale && !AnalystAborts(w) && !AnalystsHold(w) && Answered(w, Entry)
    && (forall s :: s in Reviewers(p) ==> !Halts(w, s))
  }

  predicate Undecided(w: World, round: nat) {
    && Answered(w, SkepticIn(round)) && Answered(w, ChiefIn(round))
    && w(ChiefIn(round)).output.chief.action != ActHold
  }

  /** The round the debate ends with: the first that fails or holds, or else the last. */
  predicate LastRound(w: World, p: Policy, round: nat) {
    && 1 <= round <= p.rounds && (forall r :: 1 <= r < round ==> Undecided(w, r))
    && (round == p.rounds || !Undecided(w, round))
  }

  /** A debate round after the first fails: the validator will find a Chief decision that never became final. */
  ghost predicate FailsLate(w: World, q: Request, p: Policy, at: Instant) {
    && Debates(w, q, p, at)
    && exists r :: 2 <= r && LastRound(w, p, r) && !(Answered(w, SkepticIn(r)) && Answered(w, ChiefIn(r)))
  }

  // ----- what the record says -----

  predicate Closes(c: Cycle, disposition: Disposition, source: Source, stages: seq<StageStatus>) {
    && c.disposition == disposition && c.source == source && |c.stages| == |stages| == 6
    && forall i :: 0 <= i < 6 ==> c.stages[i].status == stages[i]
  }

  predicate Undecisive(c: Cycle) { c.chiefDecision.None? && c.risk.None? }

  /** The record holds exactly the results of these calls, and perhaps a failure of the orchestrator itself. */
  ghost predicate Holds(c: Cycle, w: World, q: Request, calls: seq<Slot>, passed: bool,
                        extra: Option<FailureCategory>) {
    && c.invocations == Audits(w, q, calls) && c.outputs == Answers(w, q, calls)
    && c.failures == Failings(w, q, calls, passed)
                     + match extra
                       case None => []
                       case Some(k) =>
                         [Failure(SystemFailure(k), q.snapshot.cycleId, q.snapshot.snapshotId, None, k,
                                  if k == StaleSnapshot then HoldCycle else AbortCycle)]
  }

  function FirstStatus(w: World): StageStatus {
    if forall s :: s in Analysts ==> Answered(w, s) then StageCompleted else StageDegraded
  }

  function ThirdStatus(w: World, p: Policy): StageStatus {
    if p.quant == SkipQuant then StageSkipped
    else if forall s :: s in Reviewers(p) ==> Answered(w, s) then StageCompleted else StageDegraded
  }

  /** A failed call ends the cycle: aborted when its reply aborts, held otherwise. */
  predicate EndedBy(c: Cycle, r: Reply, stages: seq<StageStatus>) {
    Closes(c, if Aborting(r) then Aborted else PolicyHold, FailurePolicy, stages) && Undecisive(c)
  }

  function StopOf(r: Reply): StageStatus { if Aborting(r) then StageAborted else StageHold }

  /** A cycle that ends before its debate. */
  ghost predicate EndsEarly(c: Cycle, w: World, q: Request, p: Policy, at: Instant) {
    var one, skip := FirstStatus(w), StageSkipped;
    if !Usable(q, at) then
      && Holds(c, w, q, [], false, Some(SchemaMismatch)) && Undecisive(c)
      && Closes(c, Aborted, Orchestrator, [StageAborted, skip, skip, skip, skip, skip])
    else if q.market.stale then
      && Holds(c, w, q, [], false, Some(StaleSnapshot)) && Undecisive(c)
      && Closes(c, PolicyHold, FailurePolicy, [StageHold, skip, skip, skip, skip, skip])
    else if AnalystAborts(w) then
      && Holds(c, w, q, Analysts, false, None) && Undecisive(c)
      && Closes(c, Aborted, FailurePolicy, [StageAborted, skip, skip, skip, skip, skip])
    else if AnalystsHold(w) then
      && Holds(c, w, q, Analysts, false, None) && Undecisive(c)
      && Closes(c, PolicyHold, FailurePolicy, [StageHold, skip, skip, skip, skip, skip])
    else if !Answered(w, Entry) then
      && Holds(c, w, q, Analysts + [Entry], true, None)
      && EndedBy(c, w(Entry), [one, StopOf(w(Entry)), skip, skip, skip, skip])
    else if Halts(w, Quant) then
      && Holds(c, w, q, Analysts + [Entry, Quant], true, None)
      && EndedBy(c, w(Quant), [one, StageCompleted, StopOf(w(Quant)), skip, skip, skip])
    else
      && Holds(c, w, q, Analysts + [Entry, Quant, Senior], true, None)
      && EndedBy(c, w(Senior), [one, StageCompleted, StopOf(w(Senior)), skip, skip, skip])
  }

  /** A cycle whose debate ends with the given round. */
  ghost predicate EndsIn(c: Cycle, w: World, q: Request, p: Policy, risk: Proposal -> Option<Decision>, round: nat)
    requires 1 <= round
  {
    var one, three, done := FirstStatus(w), ThirdStatus(w, p), StageCompleted;
    var before := Analysts + [Entry] + Reviewers(p);
    var skeptic, chief := SkepticIn(round), ChiefIn(round);
    if !Answered(w, skeptic) then
      && Holds(c, w, q, before + Rounds(round - 1) + [skeptic], true, None)
      && EndedBy(c, w(skeptic), [one, done, three, StageHold, StageSkipped, StageSkipped])
    else if !Answered(w, chief) then
      && Holds(c, w, q, before + Rounds(round), true, None)
      && EndedBy(c, w(chief), [one, done, three, done, StageSkipped, StageSkipped])
    else
      var decision := w(chief).output;
      && c.chiefDecision == Some(decision)
      && if decision.chief.action == ActHold then
           && Holds(c, w, q, before + Rounds(round), true, None) && c.risk.None?
           && Closes(c, ChiefHold, ChiefSource, [one, done, three, done, done, StageSkipped])
         else
           && decision.chief.proposal.Some? && c.risk == risk(decision.chief.proposal.value)
           && match c.risk
              case None =>
                && Holds(c, w, q, before + Rounds(round), true, Some(UnknownFailure))
                && Closes(c, Aborted, Orchestrator, [one, done, three, done, done, StageAborted])
              case Some(d) =>
                && Holds(c, w, q, before + Rounds(round), true, None)
                && Closes(c, match d.status
                             case HaltedDecision => Disposition.RiskHalted
                             case Rejected => Disposition.RiskRejected
                             case Approved => if decision.chief.action == ActBuy then WouldBuy else WouldSell,
                          RiskSource, [one, done, three, done, done, done])
  }

  /** The whole record, told from the replies. */
  ghost predicate Tells(c: Cycle, w: World, q: Request, p: Policy, risk: Proposal -> Option<Decision>, at: Instant) {
    if Debates(w, q, p, at) then exists round :: LastRound(w, p, round) && EndsIn(c, w, q, p, risk, round)
    else EndsEarly(c, w, q, p, at)
  }
}
