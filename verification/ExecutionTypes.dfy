/** Immutable execution records and the lifecycle their constructor enforces. */
module ExecutionTypes {
  import opened Prelude
  import opened RiskTypes

  datatype Phase = Created | Claimed | Dispatching | Submitted | Confirmed | Refused | Unknown | ReconciliationFailed

  datatype Category =
    | PreflightExpired | DecisionExpired | CycleOrSymbolMismatch
    | AccountMismatch | EnvironmentMismatch | NonDemoAccount
    | OpenPositionConflict | BrokerMetadataChanged | UnsupportedExecutionMode | UnsupportedFillingMode
    | ProtectionUnsupported | StaleExecutionTick | SpreadLimitExceeded | PriceDriftExceeded
    | RiskHalted | RiskRejected | FreshVolumeMismatch | ClaimNotOwned | IntentExpired | NotAuthorized
    | ControlNotEnabled | AcceptanceChainInvalid | AdapterFailure | OrderCheckRejected | BrokerRejected
    | DispatchResultUnknown | ReconciliationTimeout | BrokerIdentityMismatch | PartialFill | ReconciliationMismatch
    | FillOutsidePolicy | ProtectiveLevelMismatch | ProcessRestart

  datatype Preflight = Preflight(
    startedAt: Instant,
    completedAt: Instant,
    analysisSnapshotId: Identifier,
    executionSnapshotId: Identifier,
    referencePrice: real,
    riskPrice: real,
    spreadTicks: real,
    driftTicks: real,
    deviationPoints: int)

  /** The proposal re-evaluated on fresh facts, with the decision it received. */
  datatype Revalidation = Revalidation(proposal: Proposal, decision: Decision, evaluatedAt: Instant)

  datatype Intent = Intent(
    intentId: Identifier,
    clientTradeId: Identifier,
    sourceDigest: Identifier,
    accountRef: Identifier,
    environmentRef: Identifier,
    symbol: Identifier,
    side: Side,
    volume: real,
    referencePrice: real,
    riskPrice: real,
    stopLoss: real,
    takeProfit: real,
    deviationPoints: int,
    createdAt: Instant,
    expiresAt: Instant)

  /** What the sealed-intent constructor accepts. */
  predicate ValidIntent(i: Intent) {
    && 0.0 < i.volume && 0.0 < i.referencePrice && 0.0 < i.riskPrice && 0.0 < i.stopLoss && 0.0 < i.takeProfit
    && 0 <= i.deviationPoints
    && i.createdAt < i.expiresAt
    && match i.side {
         case Buy => i.stopLoss < i.riskPrice < i.takeProfit
         case Sell => i.takeProfit < i.riskPrice < i.stopLoss
       }
  }

  datatype OrderCheck = OrderCheck(accepted: bool, checkedAt: Instant)

  datatype Guard = Guard(evaluatedAt: Instant, failure: Option<Category>)

  datatype Evidence = Evidence(
    accountRef: Identifier,
    environmentRef: Identifier,
    symbol: Identifier,
    side: Side,
    volume: real,
    dispatchStartedAt: Instant,
    dispatchCompletedAt: Instant,
    observedAt: Instant,
    orderId: Option<int>,
    dealId: Option<int>,
    positionId: Option<int>,
    fillPrice: Option<real>,
    stopLoss: Option<real>,
    takeProfit: Option<real>)

  datatype Disposition = Accepted | RejectedByBroker | Uncertain

  datatype Receipt = Receipt(disposition: Disposition, startedAt: Instant, completedAt: Instant)

  predicate ValidReceipt(r: Receipt) { r.startedAt <= r.completedAt }

  datatype Match = MatchConfirmed | NotFound | Mismatch

  datatype Reconciliation = Reconciliation(
    match_: Match,
    reconciledAt: Instant,
    evidence: seq<Evidence>,
    failure: Option<Category>)

  datatype Event = Event(sequence: nat, phase: Phase, at: Instant, failure: Option<Category>)

  datatype Record = Record(
    intent: Intent,
    phase: Phase,
    claimOwner: Option<Identifier>,
    preflight: Preflight,
    revalidation: Revalidation,
    orderCheck: Option<OrderCheck>,
    guard: Option<Guard>,
    submission: Option<Receipt>,
    reconciliation: Option<Reconciliation>,
    events: seq<Event>)

  predicate Allowed(left: Phase, right: Phase) {
    match left
    case Created => right == Claimed
    case Claimed => right == Dispatching || right == Refused
    case Dispatching => right == Submitted || right == Refused || right == Unknown
    case Submitted => right == Confirmed || right == Unknown || right == ReconciliationFailed
    case Unknown => right == Confirmed || right == ReconciliationFailed
    case _ => false
  }

  predicate Chronological(events: seq<Event>) {
    forall i {:trigger events[i]} :: 0 < i < |events| ==> events[i - 1].at <= events[i].at
  }

  predicate FollowsGraph(events: seq<Event>) {
    forall i {:trigger events[i]} :: 0 < i < |events| ==> Allowed(events[i - 1].phase, events[i].phase)
  }

  /** The lifecycle validator of an execution record. */
  predicate ValidRecord(r: Record) {
    && r.events != []
    && r.events[0].phase == Created
    && r.events[|r.events| - 1].phase == r.phase
    && (forall i :: 0 <= i < |r.events| ==> r.events[i].sequence == i + 1)
    && Chronological(r.events)
    && FollowsGraph(r.events)
    && (r.phase != Created ==> r.claimOwner.Some?)
    && (r.phase in {Submitted, Confirmed, Unknown, ReconciliationFailed} ==> r.submission.Some?)
    && (r.phase == Confirmed ==> r.reconciliation.Some? && r.reconciliation.value.match_ == MatchConfirmed)
  }

  function Prefer<T>(newer: Option<T>, older: Option<T>): Option<T> {
    if newer.Some? then newer else older
  }

  /** The record with one more event; fields given as None keep their previous value. */
  function Extend(r: Record, phase: Phase, at: Instant, failure: Option<Category>, orderCheck: Option<OrderCheck>,
                  guard: Option<Guard>, submission: Option<Receipt>, reconciliation: Option<Reconciliation>): Record {
    r.(phase := phase,
       orderCheck := Prefer(orderCheck, r.orderCheck),
       guard := Prefer(guard, r.guard),
       submission := Prefer(submission, r.submission),
       reconciliation := Prefer(reconciliation, r.reconciliation),
       events := r.events + [Event(|r.events| + 1, phase, at, failure)])
  }

  /** A validated advance; None when the extended record would not validate. */
  function Advance(r: Record, phase: Phase, at: Instant, failure: Option<Category>, orderCheck: Option<OrderCheck>,
                   guard: Option<Guard>, submission: Option<Receipt>,
                   reconciliation: Option<Reconciliation>): Option<Record> {
    var updated := Extend(r, phase, at, failure, orderCheck, guard, submission, reconciliation);
    if ValidRecord(updated) then Some(updated) else None
  }

  /** Extending a valid record is valid exactly along the graph, forward in time, with the data its phase needs. */
  lemma ExtendValidIff(r: Record, phase: Phase, at: Instant, failure: Option<Category>, orderCheck: Option<OrderCheck>,
                       guard: Option<Guard>, submission: Option<Receipt>, reconciliation: Option<Reconciliation>)
    requires ValidRecord(r) && r.phase != Created
    ensures var x := Extend(r, phase, at, failure, orderCheck, guard, submission, reconciliation);
            ValidRecord(x) <==>
              && Allowed(r.phase, phase)
              && r.events[|r.events| - 1].at <= at
              && (phase in {Submitted, Confirmed, Unknown, ReconciliationFailed} ==> x.submission.Some?)
              && (phase == Confirmed ==> x.reconciliation.Some? && x.reconciliation.value.match_ == MatchConfirmed)
  {
    EventsExtend(r.events, Event(|r.events| + 1, phase, at, failure));
    hide Chronological, FollowsGraph, Allowed;
  }

  lemma EventsExtend(events: seq<Event>, e: Event)
    requires events != []
    ensures Chronological(events + [e]) <==> Chronological(events) && events[|events| - 1].at <= e.at
    ensures FollowsGraph(events + [e]) <==> FollowsGraph(events) && Allowed(events[|events| - 1].phase, e.phase)
  {
    hide Allowed;
    var all, n := events + [e], |events|;
    assert all[n] == e && all[n - 1] == events[n - 1];
    forall i {:trigger events[i]} | 0 < i < n ensures all[i - 1] == events[i - 1] && all[i] == events[i] {}
    if Chronological(all) {
      assert forall i {:trigger events[i]} :: 0 < i < n ==> all[i - 1].at <= all[i].at;
    }
    if FollowsGraph(all) {
      assert forall i {:trigger events[i]} :: 0 < i < n ==> Allowed(all[i - 1].phase, all[i].phase);
    }
  }

  /** How far along the lifecycle a phase is; every allowed transition moves strictly forward. */
  function Depth(phase: Phase): nat {
    match phase
    case Created => 0
    case Claimed => 1
    case Dispatching => 2
    case Submitted => 3
    case Unknown => 4
    case _ => 5
  }

  lemma {:induction false} DepthGrows(events: seq<Event>, k: nat)
    requires FollowsGraph(events) && k < |events|
    ensures k <= Depth(events[k].phase)
  {
    if k > 0 {
      DepthGrows(events, k - 1);
      assert Allowed(events[k - 1].phase, events[k].phase);
    }
  }

  function Phases(events: seq<Event>): seq<Phase> {
    seq(|events|, i requires 0 <= i < |events| => events[i].phase)
  }

  /** The fourteen ways in which an execution can have gone so far. */
  predicate Course(p: seq<Phase>) {
    || p == [Created]
    || p == [Created, Claimed]
    || p == [Created, Claimed, Refused]
    || p == [Created, Claimed, Dispatching]
    || p == [Created, Claimed, Dispatching, Refused]
    || p == [Created, Claimed, Dispatching, Unknown]
    || p == [Created, Claimed, Dispatching, Unknown, Confirmed]
    || p == [Created, Claimed, Dispatching, Unknown, ReconciliationFailed]
    || p == [Created, Claimed, Dispatching, Submitted]
    || p == [Created, Claimed, Dispatching, Submitted, Confirmed]
    || p == [Created, Claimed, Dispatching, Submitted, ReconciliationFailed]
    || p == [Created, Claimed, Dispatching, Submitted, Unknown]
    || p == [Created, Claimed, Dispatching, Submitted, Unknown, Confirmed]
    || p == [Created, Claimed, Dispatching, Submitted, Unknown, ReconciliationFailed]
  }

  lemma CourseNext(p: seq<Phase>, next: Phase)
    requires p != []
    ensures Course(p + [next]) <==> Course(p) && Allowed(p[|p| - 1], next)
  {
    if Course(p + [next]) { CourseBack(p, next); }
    if Course(p) && Allowed(p[|p| - 1], next) { CourseOn(p, next); }
  }

  lemma CourseBack(p: seq<Phase>, next: Phase)
    requires p != [] && Course(p + [next])
    ensures Course(p) && Allowed(p[|p| - 1], next)
  {
    var all := p + [next];
    assert all[..|p|] == p && all[|p|] == next && all[|p| - 1] == p[|p| - 1];
  }

  lemma CourseOn(p: seq<Phase>, next: Phase)
    requires p != [] && Course(p) && Allowed(p[|p| - 1], next)
    ensures Course(p + [next])
  {}

  /** The events of a record follow the lifecycle exactly when they are one of those courses. */
  lemma {:induction false} LifecycleIsCourse(events: seq<Event>)
    requires events != []
    ensures events[0].phase == Created && FollowsGraph(events) <==> Course(Phases(events))
  {
    hide Allowed;
    var n := |events| - 1;
    var before, last := events[..n], events[n];
    if n == 0 {
      assert Phases(events) == [events[0].phase];
    } else {
      LifecycleIsCourse(before);
      EventsExtend(before, last);
      assert before + [last] == events;
      assert Phases(events) == Phases(before) + [last.phase];
      CourseNext(Phases(before), last.phase);
      hide Course, FollowsGraph;
    }
  }

  /** No execution record ever holds more than six events. */
  lemma AtMostSixEvents(r: Record)
    requires ValidRecord(r)
    ensures 1 <= |r.events| <= 6
  {
    DepthGrows(r.events, |r.events| - 1);
  }

  lemma StepDeepens(events: seq<Event>, k: nat)
    requires FollowsGraph(events) && 0 < k < |events|
    ensures Depth(events[k - 1].phase) < Depth(events[k].phase)
  {
    assert Allowed(events[k - 1].phase, events[k].phase);
  }

  lemma {:induction false} DepthStrict(events: seq<Event>, j: nat, k: nat)
    requires FollowsGraph(events) && j < k < |events|
    ensures Depth(events[j].phase) < Depth(events[k].phase)
  {
    hide FollowsGraph, Depth;
    if j < k - 1 { DepthStrict(events, j, k - 1); }
    StepDeepens(events, k);
  }

  /** A record passes through each phase at most once, so it records at most one dispatch. */
  lemma EachPhaseOnce(r: Record, j: nat, k: nat)
    requires ValidRecord(r) && j < k < |r.events|
    ensures r.events[j].phase != r.events[k].phase
  {
    DepthStrict(r.events, j, k);
  }

  /** Beyond dispatch every valid record still contains its dispatch event. */
  lemma {:induction false} ReachedThroughDispatch(events: seq<Event>, k: nat)
    requires FollowsGraph(events) && k < |events| && events[0].phase == Created
    requires events[k].phase in {Submitted, Confirmed, Unknown, ReconciliationFailed}
    ensures exists j :: 0 <= j < k && events[j].phase == Dispatching
  {
    assert k > 0;
    assert Allowed(events[k - 1].phase, events[k].phase);
    if events[k - 1].phase != Dispatching {
      ReachedThroughDispatch(events, k - 1);
    }
  }

  datatype Control = ControlDisabled | ControlEnabled | ControlPaused | ControlHalted

  datatype ControlEvent = ControlEvent(previous: Option<Control>, state: Control, occurredAt: Instant)

  /** What the control-event constructor accepts. */
  predicate ValidControlEvent(e: ControlEvent) {
    match e.previous
    case None => e.state == ControlDisabled
    case Some(ControlDisabled) => e.state == ControlEnabled || e.state == ControlHalted
    case Some(ControlEnabled) => e.state in {ControlPaused, ControlDisabled, ControlHalted}
    case Some(ControlPaused) => e.state in {ControlEnabled, ControlDisabled, ControlHalted}
    case Some(ControlHalted) => e.state == ControlDisabled
  }

  /** Control starts disabled, never stays where it is, leaves a halt only disabled, and pauses only while enabled. */
  lemma ControlRule(e: ControlEvent)
    ensures e.previous.None? ==> (ValidControlEvent(e) <==> e.state == ControlDisabled)
    ensures e.previous.Some? ==>
              (ValidControlEvent(e) <==>
                 && e.state != e.previous.value
                 && (e.previous.value == ControlHalted ==> e.state == ControlDisabled)
                 && (e.state == ControlPaused ==> e.previous.value == ControlEnabled))
  {}

  /** An append-only log in which every event continues the one before it. */
  predicate ValidControlLog(log: seq<ControlEvent>) {
    forall i {:trigger log[i]} :: 0 <= i < |log| ==>
      && ValidControlEvent(log[i])
      && log[i].previous == if i == 0 then None else Some(log[i - 1].state)
  }

  /** Leaving HALTED for ENABLED always passes through an explicit DISABLED event. */
  lemma {:induction false} HaltNeedsReset(log: seq<ControlEvent>, halted: nat, enabled: nat)
    requires ValidControlLog(log) && halted < enabled < |log|
    requires log[halted].state == ControlHalted && log[enabled].state == ControlEnabled
    ensures exists k :: halted < k < enabled && log[k].state == ControlDisabled
  {
    BeforeEnabled(log, enabled);
    hide ValidControlLog;
    if log[enabled - 1].state == ControlPaused {
      PausedWasEnabled(log, enabled - 1);
      HaltNeedsReset(log, halted, enabled - 2);
    }
  }

  lemma BeforeEnabled(log: seq<ControlEvent>, k: nat)
    requires ValidControlLog(log) && 0 < k < |log| && log[k].state == ControlEnabled
    ensures log[k - 1].state == ControlDisabled || log[k - 1].state == ControlPaused
  {
    assert ValidControlEvent(log[k]);
  }

  lemma PausedWasEnabled(log: seq<ControlEvent>, k: nat)
    requires ValidControlLog(log) && k < |log| && log[k].state == ControlPaused
    ensures 0 < k && log[k - 1].state == ControlEnabled
  {
    assert ValidControlEvent(log[k]);
  }
}
