/**
 * Guarded one-shot execution as a state machine: any number of threads run the execute and
 * reconcile-unknown workflows over one store, one repository operation or adapter call at a time,
 * interleaved with crashes, restart recovery and operator control events.
 */
module ExecutionProtocol {
  import opened Prelude
  import opened RiskTypes
  import opened ExecutionTypes
  import opened ExecutionStore
  import F = PreflightModel
  import B = ReconciliationModel

  datatype Env = Env(acceptance: F.Acceptance, policy: F.Policy)

  /** What a thread does once its pending save has succeeded. */
  datatype Then = ReturnIt | SubmitIt | ReconcileIt | HaltIt

  /** Where a thread stands, named after the operation it performs next. */
  datatype Pc =
    | Idle
    | Claiming(env: Env, intent: Intent, preflight: Preflight, revalidation: Revalidation, owner: Identifier)
    | Checking(env: Env, r: Record)
    | Observing(env: Env, r: Record, check: OrderCheck)
    | ReadingClaim(env: Env, r: Record, check: OrderCheck, o: F.FinalObservation, guardTime: Instant)
    | ReadingControl(env: Env, r: Record, check: OrderCheck, o: F.FinalObservation, guardTime: Instant, owned: bool)
    | Saving(r: Record, then_: Then)
    | Submitting(r: Record)
    | Reconciling(r: Record)
    | Halting(r: Record, since: nat)
    | HaltAppending(r: Record, previous: Control, since: nat)
    | Returned(r: Record, saved: bool, since: nat, seen: nat)
    | Stopped // raised to its caller, or crashed

  /** Everything an operation can receive from outside: adapter results, clock readings, storage failures. */
  datatype Input =
    | BeginExecute(settings: Settings, candidate: F.Candidate, observation: F.Observation, env: Env, authorized: bool,
                   started: Instant, completed: Instant, createdAt: Instant, owner: Identifier)
    | BeginReconcile(id: Identifier)
    | DoClaim(at: Instant, storageFails: bool)
    | DoCheck(check: Option<OrderCheck>, now: Instant)
    | DoObserve(seen: Option<F.FinalObservation>, now: Instant)
    | DoReadClaim
    | DoReadControl
    | DoSave(storageFails: bool)
    | DoSubmit(receipt: Option<Receipt>, now: Instant)
    | DoFind(evidence: Option<seq<Evidence>>, now: Instant)
    | DoReadHalt
    | DoAppendHalt(at: Instant, storageFails: bool)
    | Crash

  /** One thread together with what it shares with the others; `submitted` logs every broker submission call. */
  datatype Config = Config(store: Store, submitted: seq<Identifier>, pc: Pc)

  /** The next save, or a raise when the advanced record does not validate. */
  function SaveThen(updated: Option<Record>, then_: Then): Pc {
    if updated.Some? then Saving(updated.value, then_) else Stopped
  }

  function Reject(r: Record, category: Category, at: Instant, check: Option<OrderCheck>, guard: Option<Guard>): Pc {
    SaveThen(Advance(r, Refused, at, Some(category), check, guard, None, None), ReturnIt)
  }

  function Begin(i: Input): Pc
    requires i.BeginExecute?
  {
    if !(ValidSettings(i.settings) && F.ValidPolicy(i.env.policy) && F.ValidShadow(i.candidate.shadow)
         && ValidContext(i.observation.context) && i.authorized) then Stopped
    else
      var checked :=
        F.ValidateFresh(i.candidate, i.observation, i.env.acceptance, i.env.policy, i.started, i.completed);
      if !checked.Ok? then Stopped
      else
        var risk := F.FreshRisk(i.settings, i.candidate, i.observation, checked.value);
        if !risk.Ok? then Stopped
        else
          var intent :=
            F.SealIntent(i.candidate, i.env.acceptance, i.env.policy, checked.value, risk.value, i.createdAt);
          if !intent.Ok? then Stopped else Claiming(i.env, intent.value, checked.value, risk.value, i.owner)
  }

  function AfterCheck(pc: Pc, check: Option<OrderCheck>, now: Instant): Pc
    requires pc.Checking?
  {
    if check.None? then Reject(pc.r, AdapterFailure, now, None, None)
    else if !check.value.accepted then Reject(pc.r, OrderCheckRejected, now, check, None)
    else Observing(pc.env, pc.r, check.value)
  }

  function AfterObserve(pc: Pc, seen: Option<F.FinalObservation>, now: Instant): Pc
    requires pc.Observing?
  {
    if seen.None? then Reject(pc.r, AdapterFailure, now, Some(pc.check), None)
    else ReadingClaim(pc.env, pc.r, pc.check, seen.value, now)
  }

  function AfterGuard(pc: Pc, control: Control): Pc
    requires pc.ReadingControl?
  {
    var failure := F.GuardFailure(pc.r.intent, pc.env.acceptance, pc.env.policy, pc.o, pc.owned, control, pc.guardTime);
    var guard := Guard(pc.guardTime, failure);
    if failure.Some? then Reject(pc.r, failure.value, pc.guardTime, Some(pc.check), Some(guard))
    else SaveThen(Advance(pc.r, Dispatching, pc.guardTime, None, Some(pc.check), Some(guard), None, None), SubmitIt)
  }

  function AfterSave(store: Store, pc: Pc): Pc
    requires pc.Saving?
  {
    match pc.then_
    case ReturnIt => Returned(pc.r, true, 0, 0)
    case SubmitIt => Submitting(pc.r)
    case ReconcileIt => Reconciling(pc.r)
    case HaltIt => Halting(pc.r, |store.control|)
  }

  /** A receipt that cannot be constructed is an adapter exception like any other. */
  function AfterSubmit(r: Record, receipt: Option<Receipt>, now: Instant): Pc
    requires r.guard.Some?
  {
    if receipt.None? || !ValidReceipt(receipt.value) then
      var uncertain := Receipt(Uncertain, r.guard.value.evaluatedAt, now);
      if !ValidReceipt(uncertain) then Stopped
      else SaveThen(Advance(r, Unknown, now, Some(DispatchResultUnknown), None, None, Some(uncertain), None), HaltIt)
    else
      var at := receipt.value.completedAt;
      match receipt.value.disposition
      case RejectedByBroker =>
        SaveThen(Advance(r, Refused, at, Some(BrokerRejected), None, None, receipt, None), ReturnIt)
      case Uncertain =>
        SaveThen(Advance(r, Unknown, at, Some(DispatchResultUnknown), None, None, receipt, None), HaltIt)
      case Accepted => SaveThen(Advance(r, Submitted, at, None, None, None, receipt, None), ReconcileIt)
  }

  function AfterFind(r: Record, evidence: Option<seq<Evidence>>, now: Instant): Pc {
    if r.submission.None? then Stopped
    else if evidence.None? then
      if r.phase == Submitted
      then SaveThen(Advance(r, Unknown, now, Some(ReconciliationTimeout), None, None, None, None), HaltIt)
      else Returned(r, false, 0, 0)
    else
      var found := B.Reconcile(r.intent, r.submission.value, evidence.value, now);
      match found.match_
      case MatchConfirmed => SaveThen(Advance(r, Confirmed, now, None, None, None, None, Some(found)), ReturnIt)
      case NotFound =>
        if r.phase == Unknown then Returned(r, false, 0, 0)
        else SaveThen(Advance(r, Unknown, now, found.failure, None, None, None, Some(found)), HaltIt)
      case Mismatch =>
        SaveThen(Advance(r, ReconciliationFailed, now, found.failure, None, None, None, Some(found)), HaltIt)
  }

  function HaltEvent(previous: Control, at: Instant): ControlEvent {
    ControlEvent(Some(previous), ControlHalted, at)
  }

  function StepClaim(c: Config, at: Instant, storageFails: bool): Config
    requires c.pc.Claiming?
  {
    var r := ClaimRecord(c.pc.intent, c.pc.preflight, c.pc.revalidation, c.pc.owner, at);
    var claimed := Claim(c.store, r);
    if claimed.None? || storageFails then c.(pc := Stopped)
    else c.(store := claimed.value, pc := Checking(c.pc.env, r))
  }

  function StepSave(c: Config, storageFails: bool): Config
    requires c.pc.Saving?
  {
    var saved := Save(c.store, c.pc.r);
    if saved.None? || storageFails then c.(pc := Stopped)
    else c.(store := saved.value, pc := AfterSave(saved.value, c.pc))
  }

  function StepSubmit(c: Config, receipt: Option<Receipt>, now: Instant): Config
    requires c.pc.Submitting?
  {
    c.(submitted := c.submitted + [c.pc.r.intent.intentId],
       pc := if c.pc.r.guard.Some? then AfterSubmit(c.pc.r, receipt, now) else Stopped)
  }

  function StepAppendHalt(c: Config, at: Instant, storageFails: bool): Config
    requires c.pc.HaltAppending?
  {
    var appended := AppendControl(c.store, HaltEvent(c.pc.previous, at));
    if appended.None? || storageFails then c.(pc := Stopped)
    else c.(store := appended.value, pc := Returned(c.pc.r, true, c.pc.since, |appended.value.control|))
  }

  /** The operations that touch neither the store nor the broker. */
  function LocalPc(store: Store, pc: Pc, i: Input): Pc {
    match i
    case Crash => Stopped
    case BeginExecute(_, _, _, _, _, _, _, _, _) => if pc.Idle? then Begin(i) else pc
    case BeginReconcile(id) =>
      if !pc.Idle? then pc
      else if id in store.records && store.records[id].phase == Unknown then Reconciling(store.records[id]) else Stopped
    case DoCheck(check, now) => if pc.Checking? then AfterCheck(pc, check, now) else pc
    case DoObserve(seen, now) => if pc.Observing? then AfterObserve(pc, seen, now) else pc
    case DoReadClaim =>
      if !pc.ReadingClaim? then pc
      else ReadingControl(pc.env, pc.r, pc.check, pc.o, pc.guardTime,
                          pc.r.claimOwner.Some? && ClaimIsOwned(store, pc.r.intent.intentId, pc.r.claimOwner.value))
    case DoReadControl => if pc.ReadingControl? then AfterGuard(pc, ControlState(store.control)) else pc
    case DoFind(evidence, now) => if pc.Reconciling? then AfterFind(pc.r, evidence, now) else pc
    case DoReadHalt =>
      if !pc.Halting? then pc
      else if ControlState(store.control) == ControlHalted then Returned(pc.r, true, pc.since, |store.control|)
      else HaltAppending(pc.r, ControlState(store.control), pc.since)
    case _ => pc
  }

  /** One operation of one thread; an input that does not fit the thread's position changes nothing. */
  function Step(c: Config, i: Input): Config {
    match i
    case DoClaim(at, storageFails) => if c.pc.Claiming? then StepClaim(c, at, storageFails) else c
    case DoSave(storageFails) => if c.pc.Saving? then StepSave(c, storageFails) else c
    case DoSubmit(receipt, now) => if c.pc.Submitting? then StepSubmit(c, receipt, now) else c
    case DoAppendHalt(at, storageFails) => if c.pc.HaltAppending? then StepAppendHalt(c, at, storageFails) else c
    case _ => c.(pc := LocalPc(c.store, c.pc, i))
  }

  // ----- the whole machine -----

  datatype State = State(store: Store, submitted: seq<Identifier>, threads: map<nat, Pc>)

  datatype Action =
    | ThreadStep(tid: nat, input: Input)
    | Restart(at: Instant)
    | Operator(event: ControlEvent)

  /** The restart clock is not behind any event of a record it must recover. */
  predicate ClockCurrent(s: Store, at: Instant) {
    forall id :: id in s.records && s.records[id].events != [] ==>
      s.records[id].events[|s.records[id].events| - 1].at <= at
  }

  function PcOf(s: State, tid: nat): Pc { if tid in s.threads then s.threads[tid] else Idle }

  function Next(s: State, a: Action): State {
    match a
    case ThreadStep(tid, input) =>
      var c := Step(Config(s.store, s.submitted, PcOf(s, tid)), input);
      State(c.store, c.submitted, s.threads[tid := c.pc])
    case Restart(at) =>
      if ClockCurrent(s.store, at) && RecoverAll(s.store, at).Some?
      then s.(store := RecoverAll(s.store, at).value) else s
    case Operator(event) =>
      if ValidControlEvent(event) && AppendControl(s.store, event).Some?
      then s.(store := AppendControl(s.store, event).value) else s
  }

  const Initial := State(Store(map[], map[], map[], []), [], map[])

  /** The state after any finite run. */
  function Run(actions: seq<Action>): State {
    if actions == [] then Initial else Next(Run(actions[..|actions| - 1]), actions[|actions| - 1])
  }

  // ----- the invariant -----

  predicate Bad(phase: Phase) { phase == Unknown || phase == ReconciliationFailed }

  predicate HasDispatch(r: Record) {
    exists j :: 0 <= j < |r.events| && r.events[j].phase == Dispatching
  }

  /** An accepted order check, and a final guard passed before the intent expired. */
  predicate Guarded(intent: Intent, orderCheck: Option<OrderCheck>, guard: Option<Guard>) {
    && orderCheck.Some? && orderCheck.value.accepted
    && guard.Some? && guard.value.failure.None? && guard.value.evaluatedAt < intent.expiresAt
  }

  /**
   * A record that may be stored: a valid lifecycle over a sealed intent, dispatched only past its guard and
   * confirmed only by proof.
   */
  predicate RecordOk(r: Record) {
    && ValidRecord(r) && r.phase != Created
    && F.Sealed(r.intent, r.preflight, r.revalidation)
    && (HasDispatch(r) ==> Guarded(r.intent, r.orderCheck, r.guard))
    && (r.phase == Confirmed ==>
          && r.reconciliation.Some? && |r.reconciliation.value.evidence| == 1
          && B.ProvesExecution(r.intent, r.reconciliation.value.evidence[0]))
  }

  predicate StoreOk(s: Store) {
    && ValidControlLog(s.control)
    && forall id :: id in s.records ==>
         && s.records[id].intent.intentId == id
         && RecordOk(s.records[id])
         && s.records[id].intent.sourceDigest in s.sources && s.sources[s.records[id].intent.sourceDigest] == id
         && s.records[id].intent.clientTradeId in s.clients && s.clients[s.records[id].intent.clientTradeId] == id
  }

  predicate SameExecution(a: Record, b: Record) {
    a.intent == b.intent && a.preflight == b.preflight && a.revalidation == b.revalidation
  }

  predicate Claimed_(s: Store, r: Record) {
    RecordOk(r) && r.intent.intentId in s.records && SameExecution(r, s.records[r.intent.intentId])
  }

  /** The thread's copy is an earlier or current version of what is stored. */
  predicate Known(s: Store, r: Record) {
    Claimed_(s, r) && r.events <= s.records[r.intent.intentId].events
  }

  predicate HaltSeen(s: Store, since: nat, seen: nat) {
    since <= seen <= |s.control| && 0 < seen && s.control[seen - 1].state == ControlHalted
  }

  predicate PcOk(s: Store, pc: Pc) {
    match pc
    case Claiming(_, intent, preflight, revalidation, _) => F.Sealed(intent, preflight, revalidation)
    case Checking(_, r) => Known(s, r) && r.phase == Claimed
    case Observing(_, r, check) => Known(s, r) && r.phase == Claimed && check.accepted
    case ReadingClaim(_, r, check, _, _) => Known(s, r) && r.phase == Claimed && check.accepted
    case ReadingControl(_, r, check, _, _, _) => Known(s, r) && r.phase == Claimed && check.accepted
    case Saving(r, then_) =>
      && Claimed_(s, r)
      && (Bad(r.phase) <==> then_ == HaltIt)
      && (then_ == SubmitIt <==> r.phase == Dispatching)
      && (then_ == ReconcileIt ==> r.phase == Submitted)
      && (then_ == SubmitIt ==> r.guard.Some?)
    case Submitting(r) => Known(s, r) && r.phase == Dispatching && r.guard.Some?
    case Reconciling(r) => Known(s, r) && (r.phase == Submitted || r.phase == Unknown)
    case Halting(r, since) => since <= |s.control| && Bad(r.phase)
    case HaltAppending(r, previous, since) => since <= |s.control| && Bad(r.phase) && previous != ControlHalted
    case Returned(r, saved, since, seen) => saved && Bad(r.phase) ==> HaltSeen(s, since, seen)
    case _ => true
  }

  /** The intent a thread has claimed and may still submit. */
  function Pending(pc: Pc): Option<Identifier> {
    match pc
    case Checking(_, r) => Some(r.intent.intentId)
    case Observing(_, r, _) => Some(r.intent.intentId)
    case ReadingClaim(_, r, _, _, _) => Some(r.intent.intentId)
    case ReadingControl(_, r, _, _, _, _) => Some(r.intent.intentId)
    case Saving(r, SubmitIt) => Some(r.intent.intentId)
    case Submitting(r) => Some(r.intent.intentId)
    case _ => None
  }

  predicate SubmittedOk(s: Store, submitted: seq<Identifier>) {
    && (forall i, j :: 0 <= i < j < |submitted| ==> submitted[i] != submitted[j])
    && (forall id :: id in submitted ==> id in s.records && HasDispatch(s.records[id]))
  }

  predicate Inv(s: State) {
    && StoreOk(s.store)
    && SubmittedOk(s.store, s.submitted)
    && (forall t :: t in s.threads ==> PcOk(s.store, s.threads[t]))
    && (forall t :: t in s.threads && Pending(s.threads[t]).Some? ==>
          Pending(s.threads[t]).value in s.store.records && Pending(s.threads[t]).value !in s.submitted)
    && (forall t, u :: t in s.threads && u in s.threads && t != u && Pending(s.threads[t]).Some? ==>
          Pending(s.threads[t]) != Pending(s.threads[u]))
  }

  /** Stored executions never change identity, their histories only grow, and so does the control log. */
  predicate Grows(s: Store, s': Store) {
    && s.control <= s'.control
    && forall id :: id in s.records ==>
         id in s'.records && SameExecution(s.records[id], s'.records[id])
           && s.records[id].events <= s'.records[id].events
  }

  lemma PcOkGrows(s: Store, s': Store, pc: Pc)
    requires PcOk(s, pc) && Grows(s, s')
    ensures PcOk(s', pc)
  {
    hide F.Sealed, ValidRecord, B.ProvesExecution;
  }

  lemma SubmittedOkGrows(s: Store, s': Store, submitted: seq<Identifier>)
    requires SubmittedOk(s, submitted) && Grows(s, s')
    ensures SubmittedOk(s', submitted)
  {
    hide F.Sealed, ValidRecord, B.ProvesExecution;
    forall id | id in submitted ensures id in s'.records && HasDispatch(s'.records[id]) {
      var j :| 0 <= j < |s.records[id].events| && s.records[id].events[j].phase == Dispatching;
      assert s'.records[id].events[j].phase == Dispatching;
    }
  }

  lemma ClaimedShape(r: Record)
    requires ValidRecord(r) && r.phase == Claimed
    ensures r.events != [] && r.events[|r.events| - 1].phase == Claimed && FollowsGraph(r.events)
  {}

  lemma NotYetDispatched(events: seq<Event>, j: nat)
    requires FollowsGraph(events) && j < |events| && events[|events| - 1].phase == Claimed
    ensures events[j].phase != Dispatching
  {
    hide FollowsGraph;
    if j < |events| - 1 { DepthStrict(events, j, |events| - 1); }
  }

  /** Before dispatch a record holds no dispatch event. */
  lemma ClaimedHasNoDispatch(r: Record)
    requires ValidRecord(r) && r.phase == Claimed
    ensures !HasDispatch(r)
  {
    hide ValidRecord, FollowsGraph;
    ClaimedShape(r);
    forall j | 0 <= j < |r.events| ensures r.events[j].phase != Dispatching { NotYetDispatched(r.events, j); }
  }

  /** An advance that validates keeps a record storable when dispatch comes guarded and confirmation proven. */
  lemma AdvanceOk(r: Record, phase: Phase, at: Instant, failure: Option<Category>, orderCheck: Option<OrderCheck>,
                  guard: Option<Guard>, submission: Option<Receipt>, reconciliation: Option<Reconciliation>)
    requires RecordOk(r) && phase != Created
    requires r.phase == Claimed || (orderCheck.None? && guard.None?)
    requires phase == Dispatching ==> Guarded(r.intent, orderCheck, guard)
    requires phase == Confirmed ==>
               && reconciliation.Some? && |reconciliation.value.evidence| == 1
               && B.ProvesExecution(r.intent, reconciliation.value.evidence[0])
    ensures var x := Advance(r, phase, at, failure, orderCheck, guard, submission, reconciliation);
            x.Some? ==>
              && RecordOk(x.value) && SameExecution(x.value, r) && x.value.phase == phase
              && r.events <= x.value.events && x.value.guard == Prefer(guard, r.guard)
  {
    hide F.Sealed, B.ProvesExecution, ValidRecord;
    var x := Extend(r, phase, at, failure, orderCheck, guard, submission, reconciliation);
    if r.phase == Claimed { ClaimedHasNoDispatch(r); }
    if HasDispatch(x) && phase != Dispatching {
      var j :| 0 <= j < |x.events| && x.events[j].phase == Dispatching;
      assert r.events[j] == x.events[j];
    }
  }

  lemma BeginOk(s: Store, i: Input)
    requires i.BeginExecute?
    ensures PcOk(s, Begin(i)) && Pending(Begin(i)).None?
  {
    if Begin(i).Claiming? {
      F.SealingSucceeds(i.settings, i.candidate, i.observation, i.env.acceptance, i.env.policy,
                        i.started, i.completed, i.createdAt);
    }
  }

  lemma ClaimOk(s: Store, intent: Intent, preflight: Preflight, revalidation: Revalidation, owner: Identifier,
                at: Instant)
    requires StoreOk(s) && F.Sealed(intent, preflight, revalidation)
    requires Claim(s, ClaimRecord(intent, preflight, revalidation, owner, at)).Some?
    ensures var r := ClaimRecord(intent, preflight, revalidation, owner, at);
            var s' := Claim(s, r).value;
            StoreOk(s') && Grows(s, s') && Known(s', r) && intent.intentId !in s.records
  {
    hide F.Sealed, ValidRecord, B.ProvesExecution;
  }

  lemma GuardStepOk(s: Store, pc: Pc, control: Control)
    requires pc.ReadingControl? && PcOk(s, pc)
    ensures PcOk(s, AfterGuard(pc, control))
    ensures Pending(AfterGuard(pc, control)).Some? ==> Pending(AfterGuard(pc, control)) == Pending(pc)
  {
    hide F.Sealed, ValidRecord, B.ProvesExecution, F.GuardFailure;
    var failure := F.GuardFailure(pc.r.intent, pc.env.acceptance, pc.env.policy, pc.o, pc.owned, control, pc.guardTime);
    var guard := Some(Guard(pc.guardTime, failure));
    F.GuardPassesIff(pc.r.intent, pc.env.acceptance, pc.env.policy, pc.o, pc.owned, control, pc.guardTime);
    AdvanceOk(pc.r, Refused, pc.guardTime, failure, Some(pc.check), guard, None, None);
    if failure.None? {
      AdvanceOk(pc.r, Dispatching, pc.guardTime, None, Some(pc.check), guard, None, None);
    }
  }

  lemma RejectOk(s: Store, r: Record, category: Category, at: Instant, check: Option<OrderCheck>, guard: Option<Guard>)
    requires Known(s, r) && r.phase == Claimed
    ensures PcOk(s, Reject(r, category, at, check, guard)) && Pending(Reject(r, category, at, check, guard)).None?
  {
    hide F.Sealed, ValidRecord, B.ProvesExecution;
    AdvanceOk(r, Refused, at, Some(category), check, guard, None, None);
  }

  lemma SubmitStepOk(s: Store, r: Record, receipt: Option<Receipt>, now: Instant)
    requires Known(s, r) && r.phase == Dispatching && r.guard.Some?
    ensures PcOk(s, AfterSubmit(r, receipt, now)) && Pending(AfterSubmit(r, receipt, now)).None?
  {
    hide F.Sealed, ValidRecord, B.ProvesExecution;
    var uncertain := Some(Receipt(Uncertain, r.guard.value.evaluatedAt, now));
    AdvanceOk(r, Unknown, now, Some(DispatchResultUnknown), None, None, uncertain, None);
    if receipt.Some? {
      var at := receipt.value.completedAt;
      AdvanceOk(r, Refused, at, Some(BrokerRejected), None, None, receipt, None);
      AdvanceOk(r, Unknown, at, Some(DispatchResultUnknown), None, None, receipt, None);
      AdvanceOk(r, Submitted, at, None, None, None, receipt, None);
    }
  }

  lemma FindStepOk(s: Store, r: Record, evidence: Option<seq<Evidence>>, now: Instant)
    requires Known(s, r) && (r.phase == Submitted || r.phase == Unknown)
    ensures PcOk(s, AfterFind(r, evidence, now)) && Pending(AfterFind(r, evidence, now)).None?
  {
    hide F.Sealed, ValidRecord, B.ProvesExecution, B.Reconcile;
    AdvanceOk(r, Unknown, now, Some(ReconciliationTimeout), None, None, None, None);
    if r.submission.Some? && evidence.Some? {
      var found := B.Reconcile(r.intent, r.submission.value, evidence.value, now);
      B.ConfirmedIff(r.intent, r.submission.value, evidence.value, now);
      if found.match_ == MatchConfirmed {
        AdvanceOk(r, Confirmed, now, None, None, None, None, Some(found));
      }
      AdvanceOk(r, Unknown, now, found.failure, None, None, None, Some(found));
      AdvanceOk(r, ReconciliationFailed, now, found.failure, None, None, None, Some(found));
    }
  }

  lemma SaveStoreOk(s: Store, r: Record)
    requires StoreOk(s) && Claimed_(s, r) && Save(s, r).Some?
    ensures var s' := Save(s, r).value; StoreOk(s') && Grows(s, s') && Known(s', r) && s'.control == s.control
  {
    hide RecordOk, ValidControlLog;
    SameExecutionReflexive(s);
  }

  lemma SaveOk(s: Store, pc: Pc)
    requires StoreOk(s) && pc.Saving? && PcOk(s, pc) && Save(s, pc.r).Some?
    ensures var s' := Save(s, pc.r).value;
            && StoreOk(s') && Grows(s, s') && PcOk(s', AfterSave(s', pc))
            && (Pending(AfterSave(s', pc)).Some? ==> Pending(AfterSave(s', pc)) == Pending(pc))
  {
    hide RecordOk, StoreOk, Grows, Save, Known, Claimed_;
    SaveStoreOk(s, pc.r);
  }

  lemma HaltOk(s: Store, previous: Control, at: Instant)
    requires StoreOk(s) && previous != ControlHalted && AppendControl(s, HaltEvent(previous, at)).Some?
    ensures var s' := AppendControl(s, HaltEvent(previous, at)).value;
            StoreOk(s') && Grows(s, s') && |s'.control| == |s.control| + 1
              && s'.control[|s.control|].state == ControlHalted
  {
    ControlAppendOk(s, HaltEvent(previous, at));
  }

  lemma ControlAppendOk(s: Store, e: ControlEvent)
    requires StoreOk(s) && ValidControlEvent(e) && AppendControl(s, e).Some?
    ensures StoreOk(AppendControl(s, e).value) && Grows(s, AppendControl(s, e).value)
  {
    hide RecordOk, SameExecution, ValidControlEvent;
    var log := s.control + [e];
    forall i | 0 <= i < |log|
      ensures ValidControlEvent(log[i]) && log[i].previous == if i == 0 then None else Some(log[i - 1].state)
    {
      if i < |s.control| { assert log[i] == s.control[i] && (i > 0 ==> log[i - 1] == s.control[i - 1]); }
    }
    assert ValidControlLog(log);
    SameExecutionReflexive(s);
  }

  lemma SameExecutionReflexive(s: Store)
    ensures forall id :: id in s.records ==> SameExecution(s.records[id], s.records[id])
  {}

  /** What one operation of one thread preserves, and how it may change claims and submissions. */
  predicate StepEffect(c: Config, c': Config) {
    && StoreOk(c'.store) && Grows(c.store, c'.store) && PcOk(c'.store, c'.pc)
    && (Pending(c'.pc).Some? ==>
          || Pending(c'.pc) == Pending(c.pc)
          || (Pending(c'.pc).value !in c.store.records && Pending(c'.pc).value in c'.store.records))
    && (c'.submitted == c.submitted
        || (c.pc.Submitting? && c'.submitted == c.submitted + [c.pc.r.intent.intentId] && Pending(c'.pc).None?))
  }

  lemma CheckStepOk(s: Store, pc: Pc, i: Input)
    requires StoreOk(s) && PcOk(s, pc) && i.DoCheck? && pc.Checking?
    ensures PcOk(s, LocalPc(s, pc, i))
    ensures Pending(LocalPc(s, pc, i)).Some? ==> Pending(LocalPc(s, pc, i)) == Pending(pc)
  {
    hide RecordOk, F.Sealed, ValidRecord, Reject, StoreOk;
    RejectOk(s, pc.r, AdapterFailure, i.now, None, None);
    RejectOk(s, pc.r, OrderCheckRejected, i.now, i.check, None);
  }

  lemma ObserveStepOk(s: Store, pc: Pc, i: Input)
    requires StoreOk(s) && PcOk(s, pc) && i.DoObserve? && pc.Observing?
    ensures PcOk(s, LocalPc(s, pc, i))
    ensures Pending(LocalPc(s, pc, i)).Some? ==> Pending(LocalPc(s, pc, i)) == Pending(pc)
  {
    hide RecordOk, F.Sealed, ValidRecord, Reject, StoreOk;
    RejectOk(s, pc.r, AdapterFailure, i.now, Some(pc.check), None);
  }

  lemma ReadClaimOk(s: Store, pc: Pc, i: Input)
    requires StoreOk(s) && PcOk(s, pc) && i.DoReadClaim? && pc.ReadingClaim?
    ensures PcOk(s, LocalPc(s, pc, i))
    ensures Pending(LocalPc(s, pc, i)).Some? ==> Pending(LocalPc(s, pc, i)) == Pending(pc)
  {
    hide RecordOk, F.Sealed, ValidRecord, StoreOk;
  }

  lemma ReadControlOk(s: Store, pc: Pc, i: Input)
    requires StoreOk(s) && PcOk(s, pc) && i.DoReadControl? && pc.ReadingControl?
    ensures PcOk(s, LocalPc(s, pc, i))
    ensures Pending(LocalPc(s, pc, i)).Some? ==> Pending(LocalPc(s, pc, i)) == Pending(pc)
  {
    hide RecordOk, F.Sealed, ValidRecord, AfterGuard, StoreOk;
    GuardStepOk(s, pc, ControlState(s.control));
  }

  lemma BeginReconcileOk(s: Store, pc: Pc, i: Input)
    requires StoreOk(s) && PcOk(s, pc) && i.BeginReconcile? && pc.Idle?
    ensures PcOk(s, LocalPc(s, pc, i))
    ensures Pending(LocalPc(s, pc, i)).Some? ==> Pending(LocalPc(s, pc, i)) == Pending(pc)
  {
    hide RecordOk, F.Sealed, ValidRecord;
  }

  lemma FindOk(s: Store, pc: Pc, i: Input)
    requires StoreOk(s) && PcOk(s, pc) && i.DoFind? && pc.Reconciling?
    ensures PcOk(s, LocalPc(s, pc, i))
    ensures Pending(LocalPc(s, pc, i)).Some? ==> Pending(LocalPc(s, pc, i)) == Pending(pc)
  {
    hide RecordOk, F.Sealed, ValidRecord, AfterFind, StoreOk;
    FindStepOk(s, pc.r, i.evidence, i.now);
  }

  lemma ReadHaltOk(s: Store, pc: Pc, i: Input)
    requires StoreOk(s) && PcOk(s, pc) && i.DoReadHalt? && pc.Halting?
    ensures PcOk(s, LocalPc(s, pc, i))
    ensures Pending(LocalPc(s, pc, i)).Some? ==> Pending(LocalPc(s, pc, i)) == Pending(pc)
  {
    hide RecordOk, F.Sealed, ValidRecord, StoreOk;
  }

  /** The operations that only move the thread keep it sound and never create a new claim. */
  lemma LocalPcOk(s: Store, pc: Pc, i: Input)
    requires StoreOk(s) && PcOk(s, pc)
    ensures PcOk(s, LocalPc(s, pc, i))
    ensures Pending(LocalPc(s, pc, i)).Some? ==> Pending(LocalPc(s, pc, i)) == Pending(pc)
  {
    hide StoreOk, PcOk, Begin, AfterCheck, AfterObserve, AfterGuard, AfterFind, ClaimIsOwned;
    StoppedOk(s);
    match i
    case BeginExecute(_, _, _, _, _, _, _, _, _) => if pc.Idle? { BeginOk(s, i); }
    case BeginReconcile(_) => if pc.Idle? { BeginReconcileOk(s, pc, i); }
    case DoCheck(_, _) => if pc.Checking? { CheckStepOk(s, pc, i); }
    case DoObserve(_, _) => if pc.Observing? { ObserveStepOk(s, pc, i); }
    case DoReadClaim => if pc.ReadingClaim? { ReadClaimOk(s, pc, i); }
    case DoReadControl => if pc.ReadingControl? { ReadControlOk(s, pc, i); }
    case DoFind(_, _) => if pc.Reconciling? { FindOk(s, pc, i); }
    case DoReadHalt => if pc.Halting? { ReadHaltOk(s, pc, i); }
    case _ =>
  }

  lemma StepClaimOk(c: Config, at: Instant, storageFails: bool)
    requires StoreOk(c.store) && PcOk(c.store, c.pc) && c.pc.Claiming?
    ensures StepEffect(c, StepClaim(c, at, storageFails))
  {
    hide RecordOk, Claim, StoreOk, F.Sealed, ValidRecord;
    var r := ClaimRecord(c.pc.intent, c.pc.preflight, c.pc.revalidation, c.pc.owner, at);
    if Claim(c.store, r).Some? {
      ClaimOk(c.store, c.pc.intent, c.pc.preflight, c.pc.revalidation, c.pc.owner, at);
    }
  }

  lemma StepSaveOk(c: Config, storageFails: bool)
    requires StoreOk(c.store) && PcOk(c.store, c.pc) && c.pc.Saving?
    ensures StepEffect(c, StepSave(c, storageFails))
  {
    hide RecordOk, Save, StoreOk, PcOk, AfterSave;
    if Save(c.store, c.pc.r).Some? {
      SaveOk(c.store, c.pc);
    }
    StoppedOk(c.store);
  }

  lemma StoppedOk(s: Store)
    ensures PcOk(s, Stopped) && Grows(s, s)
  {}

  lemma StepSubmitOk(c: Config, receipt: Option<Receipt>, now: Instant)
    requires StoreOk(c.store) && PcOk(c.store, c.pc) && c.pc.Submitting?
    ensures StepEffect(c, StepSubmit(c, receipt, now))
  {
    hide RecordOk, StoreOk, AfterSubmit;
    SubmitStepOk(c.store, c.pc.r, receipt, now);
  }

  lemma StepAppendHaltOk(c: Config, at: Instant, storageFails: bool)
    requires StoreOk(c.store) && PcOk(c.store, c.pc) && c.pc.HaltAppending?
    ensures StepEffect(c, StepAppendHalt(c, at, storageFails))
  {
    hide RecordOk, StoreOk, AppendControl;
    if AppendControl(c.store, HaltEvent(c.pc.previous, at)).Some? {
      HaltOk(c.store, c.pc.previous, at);
    }
  }

  lemma StepOk(c: Config, i: Input)
    requires StoreOk(c.store) && PcOk(c.store, c.pc)
    ensures StepEffect(c, Step(c, i))
  {
    hide StoreOk, PcOk, StepClaim, StepSave, StepSubmit, StepAppendHalt, LocalPc;
    StoppedOk(c.store);
    match i
    case DoClaim(at, storageFails) => if c.pc.Claiming? { StepClaimOk(c, at, storageFails); }
    case DoSave(storageFails) => if c.pc.Saving? { StepSaveOk(c, storageFails); }
    case DoSubmit(receipt, now) => if c.pc.Submitting? { StepSubmitOk(c, receipt, now); }
    case DoAppendHalt(at, storageFails) => if c.pc.HaltAppending? { StepAppendHaltOk(c, at, storageFails); }
    case _ => LocalPcOk(c.store, c.pc, i);
  }

  // ----- the machine keeps the invariant -----

  lemma RecoverAllOk(s: Store, at: Instant)
    requires StoreOk(s) && ClockCurrent(s, at) && RecoverAll(s, at).Some?
    ensures StoreOk(RecoverAll(s, at).value) && Grows(s, RecoverAll(s, at).value)
  {
    hide F.Sealed, ValidRecord, B.ProvesExecution, RecoverRecord;
    var s' := RecoverAll(s, at).value;
    forall id | id in s.records
      ensures RecordOk(s'.records[id]) && SameExecution(s.records[id], s'.records[id])
              && s.records[id].events <= s'.records[id].events
    {
      RecoverRecordOk(s.records[id], at);
    }
  }

  lemma RecoverRecordOk(r: Record, at: Instant)
    requires RecordOk(r) && (r.events != [] ==> r.events[|r.events| - 1].at <= at) && RecoverRecord(r, at).Some?
    ensures var x := RecoverRecord(r, at).value; RecordOk(x) && SameExecution(r, x) && r.events <= x.events
  {
    hide F.Sealed, B.ProvesExecution, ValidRecord;
    var x := RecoverRecord(r, at).value;
    AtMostSixEvents(r);
    if Incomplete(r) {
      RecoveryKeepsLifecycleIff(r, at);
      assert HasDispatch(x) ==> HasDispatch(r) by {
        if HasDispatch(x) {
          var j :| 0 <= j < |x.events| && x.events[j].phase == Dispatching;
          assert r.events[j] == x.events[j];
        }
      }
    }
  }

  lemma SubmissionLogged(s: Store, submitted: seq<Identifier>, r: Record)
    requires SubmittedOk(s, submitted) && Known(s, r) && r.phase == Dispatching && r.intent.intentId !in submitted
    ensures SubmittedOk(s, submitted + [r.intent.intentId])
  {
    hide F.Sealed;
    var stored := s.records[r.intent.intentId];
    assert stored.events[|r.events| - 1].phase == Dispatching;
  }

  lemma ThreadStepKeepsInv(s: State, tid: nat, i: Input)
    requires Inv(s)
    ensures Inv(Next(s, ThreadStep(tid, i)))
  {
    hide StoreOk, PcOk, Step, SubmittedOk, Grows;
    var c := Config(s.store, s.submitted, PcOf(s, tid));
    IdleOk(s.store);
    StepOk(c, i);
    var c', s' := Step(c, i), Next(s, ThreadStep(tid, i));
    SubmittedOkGrows(c.store, c'.store, s.submitted);
    if c'.submitted != c.submitted {
      SubmitFacts(c.store, c'.store, c.pc);
      SubmissionLogged(c'.store, s.submitted, c.pc.r);
    }
    forall t | t in s'.threads ensures PcOk(s'.store, s'.threads[t]) {
      if t != tid { PcOkGrows(s.store, s'.store, s.threads[t]); }
    }
    GrowsKeys(s.store, s'.store);
    FreshClaim(s.store, s.submitted);
  }

  lemma IdleOk(s: Store)
    ensures PcOk(s, Idle)
  {}

  lemma SubmitFacts(s: Store, s': Store, pc: Pc)
    requires PcOk(s, pc) && pc.Submitting? && Grows(s, s')
    ensures Known(s', pc.r) && pc.r.phase == Dispatching && Pending(pc) == Some(pc.r.intent.intentId)
  {
    hide RecordOk;
  }

  lemma GrowsKeys(s: Store, s': Store)
    requires Grows(s, s')
    ensures s.records.Keys <= s'.records.Keys
  {}

  lemma FreshClaim(s: Store, submitted: seq<Identifier>)
    requires SubmittedOk(s, submitted)
    ensures forall id :: id in submitted ==> id in s.records
  {}

  lemma OutsideStepKeepsInv(s: State, s': State)
    requires Inv(s) && StoreOk(s'.store) && Grows(s.store, s'.store)
    requires s'.submitted == s.submitted && s'.threads == s.threads
    ensures Inv(s')
  {
    hide StoreOk, PcOk, SubmittedOk, Grows;
    SubmittedOkGrows(s.store, s'.store, s.submitted);
    GrowsKeys(s.store, s'.store);
    forall t | t in s.threads ensures PcOk(s'.store, s.threads[t]) {
      PcOkGrows(s.store, s'.store, s.threads[t]);
    }
  }

  lemma NextKeepsInv(s: State, a: Action)
    requires Inv(s)
    ensures Inv(Next(s, a))
  {
    hide StoreOk, PcOk, SubmittedOk, RecoverAll, AppendControl, Grows;
    match a
    case ThreadStep(tid, i) => ThreadStepKeepsInv(s, tid, i);
    case Restart(at) =>
      if ClockCurrent(s.store, at) && RecoverAll(s.store, at).Some? {
        RecoverAllOk(s.store, at);
        OutsideStepKeepsInv(s, Next(s, a));
      }
    case Operator(event) =>
      if ValidControlEvent(event) && AppendControl(s.store, event).Some? {
        ControlAppendOk(s.store, event);
        OutsideStepKeepsInv(s, Next(s, a));
      }
  }

  lemma {:induction false} RunKeepsInv(actions: seq<Action>)
    ensures Inv(Run(actions))
  {
    if actions != [] {
      RunKeepsInv(actions[..|actions| - 1]);
      NextKeepsInv(Run(actions[..|actions| - 1]), actions[|actions| - 1]);
    }
  }

  // ----- what every run guarantees -----

  /** No intent, source or client trade is ever submitted twice, and every submission had its dispatch stored. */
  lemma ExactlyOnceDispatch(actions: seq<Action>)
    ensures var s := Run(actions);
            && (forall i, j :: 0 <= i < j < |s.submitted| ==> s.submitted[i] != s.submitted[j])
            && (forall i :: 0 <= i < |s.submitted| ==>
                  s.submitted[i] in s.store.records && HasDispatch(s.store.records[s.submitted[i]]))
            && (forall i, j :: 0 <= i < j < |s.submitted| ==>
                  && s.store.records[s.submitted[i]].intent.sourceDigest
                     != s.store.records[s.submitted[j]].intent.sourceDigest
                  && s.store.records[s.submitted[i]].intent.clientTradeId
                     != s.store.records[s.submitted[j]].intent.clientTradeId)
  {
    hide RecordOk, HasDispatch;
    RunKeepsInv(actions);
    var s := Run(actions);
    forall i, j | 0 <= i < j < |s.submitted|
      ensures s.store.records[s.submitted[i]].intent.sourceDigest != s.store.records[s.submitted[j]].intent.sourceDigest
      ensures s.store.records[s.submitted[i]].intent.clientTradeId
           != s.store.records[s.submitted[j]].intent.clientTradeId
    {
      assert s.submitted[i] in s.store.records && s.submitted[j] in s.store.records;
    }
  }

  /** Whatever was submitted had an accepted order check and a final guard passed before its intent expired. */
  lemma SubmittedOnlyPastGuard(actions: seq<Action>, id: Identifier)
    requires id in Run(actions).submitted
    ensures id in Run(actions).store.records
    ensures var r := Run(actions).store.records[id]; Guarded(r.intent, r.orderCheck, r.guard)
  {
    hide ValidRecord, F.Sealed, HasDispatch;
    RunKeepsInv(actions);
  }

  /** Every stored record has a valid lifecycle of at most six events over one sealed intent. */
  lemma StoredRecordsValid(actions: seq<Action>, id: Identifier)
    requires id in Run(actions).store.records
    ensures var r := Run(actions).store.records[id];
            ValidRecord(r) && |r.events| <= 6 && F.Sealed(r.intent, r.preflight, r.revalidation)
  {
    hide ValidRecord, F.Sealed;
    RunKeepsInv(actions);
    AtMostSixEvents(Run(actions).store.records[id]);
  }

  /**
   * Confirmed executions lose at most the freshly allowed risk when closed at their protective stop, and that is
   * at most one percent of the equity observed before the dispatch.
   */
  lemma ConfirmedLossBounded(actions: seq<Action>, id: Identifier)
    requires id in Run(actions).store.records && Run(actions).store.records[id].phase == Confirmed
    ensures var r := Run(actions).store.records[id];
            && F.Sealed(r.intent, r.preflight, r.revalidation)
            && r.reconciliation.Some? && |r.reconciliation.value.evidence| == 1
            && var e := r.reconciliation.value.evidence[0];
               var sizing := r.revalidation.decision.sizing.value;
               && B.ProvesExecution(r.intent, e)
               && B.LossAtStop(e.side, e.fillPrice.value, e.stopLoss.value, e.volume, sizing.tickSize, sizing.tickValue)
                  <= sizing.allowedRisk
               && 0.0 < r.revalidation.decision.metrics.currentEquity
               && sizing.allowedRisk <= r.revalidation.decision.metrics.currentEquity / 100.0
  {
    hide ValidRecord;
    RunKeepsInv(actions);
    var r := Run(actions).store.records[id];
    B.LossBounded(r.intent, r.preflight, r.revalidation, r.reconciliation.value.evidence[0]);
    F.AtMostOnePercent(r.revalidation.decision);
  }

  /**
   * When the guard asks for the claim, it finds it owned exactly while the stored record still has this workflow's
   * owner and nothing has been appended to it since the claim: no other process has recovered or advanced it.
   */
  lemma OwnedMeansUntouched(actions: seq<Action>, tid: nat)
    requires tid in Run(actions).threads && Run(actions).threads[tid].ReadingClaim?
    requires Run(actions).threads[tid].r.claimOwner.Some?
    ensures var s, r := Run(actions).store, Run(actions).threads[tid].r;
            && r.intent.intentId in s.records
            && (ClaimIsOwned(s, r.intent.intentId, r.claimOwner.value)
                <==> s.records[r.intent.intentId].claimOwner == r.claimOwner
                     && s.records[r.intent.intentId].events == r.events)
  {
    RunKeepsInv(actions);
    var s, r := Run(actions).store, Run(actions).threads[tid].r;
    assert PcOk(s, Run(actions).threads[tid]);
    hide Run, ValidRecord, F.Sealed, Guarded, B.ProvesExecution;
    var stored := s.records[r.intent.intentId];
    assert RecordOk(stored) && RecordOk(r) && r.events <= stored.events;
    hide PcOk, StoreOk, RecordOk;
    if |r.events| < |stored.events| { PhaseMovesOn(r, stored); } else { LastPhase(r, stored); }
  }

  lemma PhaseMovesOn(r: Record, later: Record)
    requires ValidRecord(r) && ValidRecord(later) && r.events < later.events
    ensures later.phase != r.phase && later.events != r.events
  {
    EachPhaseOnce(later, |r.events| - 1, |later.events| - 1);
  }

  lemma LastPhase(r: Record, same: Record)
    requires ValidRecord(r) && ValidRecord(same) && r.events <= same.events && |same.events| <= |r.events|
    ensures same.events == r.events && same.phase == r.phase
  {}

  /** A workflow that returned after saving an uncertain or failed record saw the control log HALTED after that save. */
  lemma UncertaintyHalts(actions: seq<Action>, tid: nat)
    requires tid in Run(actions).threads && Run(actions).threads[tid].Returned?
    requires Run(actions).threads[tid].saved && Bad(Run(actions).threads[tid].r.phase)
    ensures var s := Run(actions);
            ValidControlLog(s.store.control) && HaltSeen(s.store, s.threads[tid].since, s.threads[tid].seen)
  {
    hide RecordOk;
    RunKeepsInv(actions);
    assert PcOk(Run(actions).store, Run(actions).threads[tid]);
  }
}
