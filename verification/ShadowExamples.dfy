/** Concrete cycles: a request whose calls all time out, with and without the faults its own validator refuses. */
module ShadowExamples {
  import opened Prelude
  import opened RiskTypes
  import opened ShadowTypes
  import opened ShadowState
  import opened ShadowInvariants
  import opened ShadowOrchestration
  import C = ShadowCourse
  import R = RiskEngineModel

  const TimedOut: World := (s: Slot) => Raised(ProviderTimeout)
  const NoRisk: RiskStage := (p: Proposal) => None
  const ONE_ROUND := Policy(1, SkipQuant)

  function RequestFor(timeframe: Identifier): Request {
    var n := R.SAMPLE_SNAPSHOT;
    Request(n, "M15", R.SAMPLE_CONTEXT, Market(n.cycleId, n.snapshotId, n.symbol, timeframe, false))
  }

  lemma TimedOutIsConsistent(timeframe: Identifier, at: Instant)
    ensures var q := RequestFor(timeframe);
            && Consistent(TimedOut, q) && RiskConsistent(NoRisk, q) && SameIdentity(q)
            && !C.FailsLate(TimedOut, q, ONE_ROUND, at)
  {
    var q := RequestFor(timeframe);
    assert StageOneVerdict(TimedOut, q).Some?;
    LateMeans(TimedOut, q, ONE_ROUND, at);
  }

  /**
   * The record of this cycle is built exactly when the market view has the snapshot's timeframe and the clock did
   * not run backwards; otherwise the call raises and leaves its claim incomplete, with nothing stored.
   */
  method TimedOutCycle(timeframe: Identifier, startedAt: Instant, completedAt: Instant)
    returns (repository: AuditRepository, result: Option<ShadowRecord>)
    ensures fresh(repository)
    ensures result.Some? <==> timeframe == "M15" && startedAt <= completedAt
    ensures "c" in repository.claims && repository.claims["c"].state == (if result.Some? then Finalized else Incomplete)
    ensures repository.records == if result.Some? then map["c" := result.value] else map[]
  {
    TimedOutIsConsistent(timeframe, startedAt);
    hide *;
    repository := new AuditRepository();
    var orchestrator := new ShadowCycleOrchestrator(repository, ONE_ROUND);
    SampleRequest(timeframe);
    result := orchestrator.RunShadowCycle(RequestFor(timeframe), TimedOut, NoRisk, startedAt, completedAt);
  }

  lemma SampleRequest(timeframe: Identifier)
    ensures var q := RequestFor(timeframe);
            q.snapshot.cycleId == "c" && q.timeframe == "M15" && q.market.timeframe == timeframe
    ensures ValidPolicy(ONE_ROUND)
  {}

  /** A supplied market view of another primary timeframe: the finished cycle fails its own validator. */
  method OtherTimeframeRefused() returns (repository: AuditRepository, result: Option<ShadowRecord>)
    ensures result.None? && repository.records == map[] && "c" in repository.claims
            && repository.claims["c"].state == Incomplete
  {
    repository, result := TimedOutCycle("H1", 0, 1);
  }

  /** A clock that runs backwards during the cycle does the same. */
  method BackwardClockRefused() returns (repository: AuditRepository, result: Option<ShadowRecord>)
    ensures result.None? && repository.records == map[] && "c" in repository.claims
            && repository.claims["c"].state == Incomplete
  {
    repository, result := TimedOutCycle("M15", 1, 0);
  }
}
