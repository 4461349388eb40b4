/**
 * The execution service in its own imperative form. Every method returns, beside its result, the ghost
 * trace of operations it performed, and proves that trace to be a run of one thread of the protocol.
 */
module ExecutionService {
  import opened Prelude
  import opened RiskTypes
  import opened ExecutionTypes
  import opened ExecutionStore
  import opened ExecutionProtocol
  import F = PreflightModel
  import B = ReconciliationModel

  /** What the outside world will answer: adapter results and clock readings, in the order they are asked for. */
  datatype World = World(
    claimAt: Instant,
    check: Option<OrderCheck>,
    checkedAt: Instant,
    observation: Option<F.FinalObservation>,
    guardAt: Instant,
    receipt: Option<Receipt>,
    submittedAt: Instant,
    evidence: Option<seq<Evidence>>,
    foundAt: Instant,
    haltAt: Instant)

  /** One thread's configuration after a sequence of its own operations. */
  ghost function RunThread(c: Config, trace: seq<Input>): Config {
    if trace == [] then c else Step(RunThread(c, trace[..|trace| - 1]), trace[|trace| - 1])
  }

  lemma Continue(c: Config, trace: seq<Input>, i: Input)
    ensures RunThread(c, trace + [i]) == Step(RunThread(c, trace), i)
  {
    assert (trace + [i])[..|trace|] == trace;
  }

  lemma {:induction false} Append(c: Config, first: seq<Input>, second: seq<Input>)
    ensures RunThread(c, first + second) == RunThread(RunThread(c, first), second)
  {
    if second == [] {
      assert first + second == first;
    } else {
      var n := |second| - 1;
      Append(c, first, second[..n]);
      assert first + second == (first + second[..n]) + [second[n]];
      Continue(c, first + second[..n], second[n]);
    }
  }

  /** Where a finished call leaves its thread: with its record, or raised. */
  ghost predicate Finished(pc: Pc, result: Option<Record>) {
    match result
    case Some(r) => pc.Returned? && pc.r == r
    case None => pc.Stopped?
  }

  ghost function ResultOf(pc: Pc): Option<Record> { if pc.Returned? then Some(pc.r) else None }

  /** The operation received exactly what the world answers; it neither crashed nor lost its storage. */
  ghost predicate Answered(world: World, i: Input) {
    match i
    case DoClaim(at, storageFails) => at == world.claimAt && !storageFails
    case DoCheck(check, now) => check == world.check && now == world.checkedAt
    case DoObserve(seen, now) => seen == world.observation && now == world.guardAt
    case DoSave(storageFails) => !storageFails
    case DoSubmit(receipt, now) => receipt == world.receipt && now == world.submittedAt
    case DoFind(evidence, now) => evidence == world.evidence && now == world.foundAt
    case DoAppendHalt(at, storageFails) => at == world.haltAt && !storageFails
    case Crash => false
    case _ => true
  }

  ghost predicate AllAnswered(world: World, trace: seq<Input>) {
    forall i :: 0 <= i < |trace| ==> Answered(world, trace[i])
  }

  // ----- what the world's answers make of an execution -----

  /** The record has come to this phase, with this failure on its last event. */
  predicate Ends(r: Record, phase: Phase, failure: Option<Category>) {
    r.phase == phase && r.events != []
      && r.events[|r.events| - 1].phase == phase && r.events[|r.events| - 1].failure == failure
  }

  predicate IsHalted(log: seq<ControlEvent>) { log != [] && log[|log| - 1].state == ControlHalted }

  /** What the evidence makes of an accepted submission begun at `started`. */
  predicate Evidenced(world: World, i: Intent, started: Instant, r: Record) {
    if world.evidence.None? || world.evidence.value == [] then Ends(r, Unknown, Some(ReconciliationTimeout))
    else if Proven(world.evidence.value, i, started) then
      Ends(r, Confirmed, None) && r.reconciliation.Some? && r.reconciliation.value.evidence == world.evidence.value
    else
      && r.phase == ReconciliationFailed && r.reconciliation.Some?
      && r.reconciliation.value.evidence == world.evidence.value
  }

  predicate Proven(evidence: seq<Evidence>, i: Intent, started: Instant) {
    && |evidence| == 1 && B.ProvesExecution(i, evidence[0])
    && started <= evidence[0].dispatchStartedAt && evidence[0].dispatchCompletedAt <= evidence[0].observedAt
  }

  /** One look for evidence; finding none leaves an execution that is not merely submitted as it is. */
  predicate Reconciled(world: World, before: Record, r: Record) {
    && before.submission.Some? && r.intent == before.intent
    && if (world.evidence.None? && before.phase != Submitted) || (world.evidence == Some([]) && before.phase == Unknown)
       then r == before
       else Evidenced(world, before.intent, before.submission.value.startedAt, r)
  }

  /** What a submission comes to: an answer that cannot be used leaves it unknown. */
  predicate Answers(world: World, i: Intent, r: Record) {
    && r.intent == i
    && match world.receipt
       case None => Ends(r, Unknown, Some(DispatchResultUnknown))
       case Some(receipt) =>
         if receipt.completedAt < receipt.startedAt then Ends(r, Unknown, Some(DispatchResultUnknown))
         else match receipt.disposition
              case RejectedByBroker => Ends(r, Refused, Some(BrokerRejected))
              case Uncertain => Ends(r, Unknown, Some(DispatchResultUnknown))
              case Accepted => Evidenced(world, i, receipt.startedAt, r)
  }

  /** A guard that refuses ends the execution unsent; one that passes leads to the one submission. */
  predicate GuardedBy(world: World, i: Intent, failure: Option<Category>, r: Record, sent: bool) {
    if failure.Some? then r.intent == i && Ends(r, Refused, failure) && !sent else Answers(world, i, r) && sent
  }

  /** The whole course of a claimed execution, told from the world's answers. */
  predicate Executed(world: World, env: Env, control: Control, i: Intent, r: Record, sent: bool) {
    && r.intent == i
    && if world.check.None? then Ends(r, Refused, Some(AdapterFailure)) && !sent
       else if !world.check.value.accepted then Ends(r, Refused, Some(OrderCheckRejected)) && !sent
       else if world.observation.None? then Ends(r, Refused, Some(AdapterFailure)) && !sent
       else
         var o := world.observation.value;
         var failure := F.GuardFailure(i, env.acceptance, env.policy, o, true, control, world.guardAt);
         GuardedBy(world, i, failure, r, sent)
  }

  lemma AdvanceEnds(r: Record, phase: Phase, at: Instant, failure: Option<Category>, orderCheck: Option<OrderCheck>,
                    guard: Option<Guard>, submission: Option<Receipt>, reconciliation: Option<Reconciliation>)
    ensures var x := Advance(r, phase, at, failure, orderCheck, guard, submission, reconciliation);
            x.Some? ==>
              && Ends(x.value, phase, failure) && x.value.intent == r.intent
              && (submission.Some? ==> x.value.submission == submission)
              && (guard.Some? ==> x.value.guard == guard)
              && (reconciliation.Some? ==> x.value.reconciliation == reconciliation)
  {
    hide ValidRecord;
  }

  lemma EvidenceOutcome(world: World, r: Record)
    requires r.submission.Some?
    ensures world.evidence.None? && r.phase != Submitted ==> Reconciled(world, r, r)
    ensures world.evidence.None? && r.phase == Submitted ==>
              var x := Advance(r, Unknown, world.foundAt, Some(ReconciliationTimeout), None, None, None, None);
              x.Some? ==> Reconciled(world, r, x.value)
    ensures world.evidence.Some? ==>
              var found := B.Reconcile(r.intent, r.submission.value, world.evidence.value, world.foundAt);
              match found.match_
              case MatchConfirmed =>
                var x := Advance(r, Confirmed, world.foundAt, None, None, None, None, Some(found));
                x.Some? ==> Reconciled(world, r, x.value)
              case NotFound =>
                var x := Advance(r, Unknown, world.foundAt, found.failure, None, None, None, Some(found));
                if r.phase == Unknown then Reconciled(world, r, r) else x.Some? ==> Reconciled(world, r, x.value)
              case Mismatch =>
                var x := Advance(r, ReconciliationFailed, world.foundAt, found.failure, None, None, None, Some(found));
                x.Some? ==> Reconciled(world, r, x.value)
  {
    hide Advance, B.Reconcile, B.ProvesExecution;
    var now := world.foundAt;
    AdvanceEnds(r, Unknown, now, Some(ReconciliationTimeout), None, None, None, None);
    if world.evidence.Some? {
      var found := B.Reconcile(r.intent, r.submission.value, world.evidence.value, now);
      B.ConfirmedIff(r.intent, r.submission.value, world.evidence.value, now);
      B.FailureIff(r.intent, r.submission.value, world.evidence.value, now);
      AdvanceEnds(r, Confirmed, now, None, None, None, None, Some(found));
      AdvanceEnds(r, Unknown, now, found.failure, None, None, None, Some(found));
      AdvanceEnds(r, ReconciliationFailed, now, found.failure, None, None, None, Some(found));
    }
  }

  lemma UncertainOutcome(world: World, r: Record, uncertain: Receipt)
    requires world.receipt.None? || !ValidReceipt(world.receipt.value)
    ensures var x := Advance(r, Unknown, world.submittedAt, Some(DispatchResultUnknown), None, None, Some(uncertain),
                             None);
            x.Some? ==> Answers(world, r.intent, x.value)
  {
    hide Advance;
    AdvanceEnds(r, Unknown, world.submittedAt, Some(DispatchResultUnknown), None, None, Some(uncertain), None);
  }

  lemma ReceiptOutcome(world: World, r: Record)
    requires world.receipt.Some? && ValidReceipt(world.receipt.value)
    ensures var receipt := world.receipt.value;
            match receipt.disposition
            case RejectedByBroker =>
              var x :=
                Advance(r, Refused, receipt.completedAt, Some(BrokerRejected), None, None, Some(receipt), None);
              x.Some? ==> Answers(world, r.intent, x.value)
            case Uncertain =>
              var x :=
                Advance(r, Unknown, receipt.completedAt, Some(DispatchResultUnknown), None, None, Some(receipt), None);
              x.Some? ==> Answers(world, r.intent, x.value)
            case Accepted =>
              var x := Advance(r, Submitted, receipt.completedAt, None, None, None, Some(receipt), None);
              x.Some? ==> forall y :: Reconciled(world, x.value, y) ==> Answers(world, r.intent, y)
  {
    hide Advance, Evidenced;
    var receipt := world.receipt.value;
    AdvanceEnds(r, Refused, receipt.completedAt, Some(BrokerRejected), None, None, Some(receipt), None);
    AdvanceEnds(r, Unknown, receipt.completedAt, Some(DispatchResultUnknown), None, None, Some(receipt), None);
    AdvanceEnds(r, Submitted, receipt.completedAt, None, None, None, Some(receipt), None);
  }

  /** A claimed record is owned by whoever claimed it, and claiming leaves the control log alone. */
  lemma ClaimOwned(s: Store, i: Intent, preflight: Preflight, revalidation: Revalidation, owner: Identifier,
                   at: Instant)
    ensures var r := ClaimRecord(i, preflight, revalidation, owner, at);
            && r.intent == i && r.claimOwner == Some(owner)
            && (Claim(s, r).Some? ==>
                  ClaimIsOwned(Claim(s, r).value, i.intentId, owner) && Claim(s, r).value.control == s.control)
  {
    hide ValidRecord;
  }

  /** An intent is sealed at the fresh quote of its own side and judged at the worst price the policy tolerates. */
  predicate AtFreshQuote(i: Intent, request: Input)
    requires request.BeginExecute?
  {
    var tick := request.observation.tick;
    var slippage := request.env.policy.maximumSlippageTicks * request.observation.snapshot.symbolInfo.tickSize;
    && i.side == request.candidate.shadow.proposal.side
    && (i.side == Buy ==> i.referencePrice == tick.ask && i.riskPrice == tick.ask + slippage)
    && (i.side == Sell ==> i.referencePrice == tick.bid && i.riskPrice == tick.bid - slippage)
  }

  lemma SealedPrices(s: Settings, c: F.Candidate, o: F.Observation, env: Env, started: Instant, completed: Instant,
                     createdAt: Instant)
    requires ValidSettings(s) && F.ValidPolicy(env.policy) && F.ValidShadow(c.shadow) && ValidContext(o.context)
    requires F.ValidateFresh(c, o, env.acceptance, env.policy, started, completed).Ok?
    requires F.FreshRisk(s, c, o, F.ValidateFresh(c, o, env.acceptance, env.policy, started, completed).value).Ok?
    ensures var f := F.ValidateFresh(c, o, env.acceptance, env.policy, started, completed).value;
            var i := F.SealIntent(c, env.acceptance, env.policy, f, F.FreshRisk(s, c, o, f).value, createdAt);
            var slippage := env.policy.maximumSlippageTicks * o.snapshot.symbolInfo.tickSize;
            && i.Ok? && i.value.side == c.shadow.proposal.side
            && (i.value.side == Buy ==>
                  i.value.referencePrice == o.tick.ask && i.value.riskPrice == o.tick.ask + slippage)
            && (i.value.side == Sell ==>
                  i.value.referencePrice == o.tick.bid && i.value.riskPrice == o.tick.bid - slippage)
  {
    hide F.ValidateFresh, F.FreshRisk, F.SealIntent;
    F.DeviationIsExact(c, o, env.acceptance, env.policy, started, completed);
    F.SealingSucceeds(s, c, o, env.acceptance, env.policy, started, completed, createdAt);
  }

  lemma BeginPrices(request: Input)
    requires request.BeginExecute? && Begin(request).Claiming?
    ensures AtFreshQuote(Begin(request).intent, request) && Begin(request).env == request.env
  {
    hide F.ValidateFresh, F.FreshRisk, F.SealIntent, F.Sealed, ValidSettings, ValidContext, F.ValidPolicy,
         F.ValidShadow;
    SealedPrices(request.settings, request.candidate, request.observation, request.env, request.started,
                 request.completed, request.createdAt);
  }

  class Service {
    const repository: ExecutionRepository
    var submitted: seq<Identifier> // every call of the broker's one submission method

    constructor (repository: ExecutionRepository)
      ensures this.repository == repository && submitted == []
    {
      this.repository := repository;
      submitted := [];
    }

    ghost function At(pc: Pc): Config
      reads this, repository
    {
      Config(repository.Abs(), submitted, pc)
    }

    /** Saves an advanced record and returns it; a record that does not validate raises before the save. */
    method SaveAndReturn(updated: Option<Record>, ghost world: World)
      returns (result: Option<Record>, ghost trace: seq<Input>)
      modifies repository
      ensures submitted == old(submitted)
      ensures result.Some? ==> result == updated
      ensures AllAnswered(world, trace)
      ensures exists pc :: Finished(pc, result) && At(pc) == RunThread(old(At(SaveThen(updated, ReturnIt))), trace)
    {
      trace := [];
      if updated.None? {
        assert Finished(Stopped, None) && At(Stopped) == RunThread(old(At(SaveThen(updated, ReturnIt))), trace);
        return None, [];
      }
      var ok := repository.SaveRecord(updated.value);
      trace := [DoSave(false)];
      Continue(old(At(SaveThen(updated, ReturnIt))), [], DoSave(false));
      ghost var pc := if ok then Returned(updated.value, true, 0, 0) else Stopped;
      result := if ok then updated else None;
      assert Finished(pc, result) && At(pc) == RunThread(old(At(SaveThen(updated, ReturnIt))), trace);
    }

    /** Saves an uncertain or failed record, then halts execution control unless it is halted already. */
    method SaveAndHalt(updated: Option<Record>, world: World) returns (result: Option<Record>, ghost trace: seq<Input>)
      modifies repository
      ensures submitted == old(submitted)
      ensures result.Some? ==> result == updated && IsHalted(repository.control)
      ensures AllAnswered(world, trace)
      ensures exists pc :: Finished(pc, result) && At(pc) == RunThread(old(At(SaveThen(updated, HaltIt))), trace)
    {
      ghost var start := old(At(SaveThen(updated, HaltIt)));
      trace := [];
      if updated.None? {
        assert Finished(Stopped, None) && At(Stopped) == RunThread(start, []);
        return None, [];
      }
      hide RunThread;
      var ok := repository.SaveRecord(updated.value);
      trace := [DoSave(false)];
      StartOne(start, DoSave(false));
      if !ok {
        assert Finished(Stopped, None) && At(Stopped) == RunThread(start, trace);
        return None, trace;
      }
      assert At(Halting(updated.value, |repository.control|)) == RunThread(start, trace);
      ghost var more;
      result, more := HaltSaved(updated.value, world);
      Append(start, trace, more);
      trace := trace + more;
    }

    /** Appends a halt event behind the saved record unless control is halted already. */
    method HaltSaved(r: Record, world: World) returns (result: Option<Record>, ghost trace: seq<Input>)
      modifies repository
      ensures submitted == old(submitted)
      ensures result.Some? ==> result == Some(r) && IsHalted(repository.control)
      ensures AllAnswered(world, trace)
      ensures exists pc :: Finished(pc, result) && At(pc) == RunThread(old(At(Halting(r, |repository.control|))), trace)
    {
      hide RunThread;
      ghost var since := |repository.control|;
      ghost var start := At(Halting(r, since));
      var previous := ControlState(repository.control);
      StartOne(start, DoReadHalt);
      trace := [DoReadHalt];
      if previous == ControlHalted {
        assert Finished(Returned(r, true, since, since), Some(r));
        assert At(Returned(r, true, since, since)) == RunThread(start, trace);
        return Some(r), trace;
      }
      assert At(HaltAppending(r, previous, since)) == RunThread(start, trace);
      var appended := repository.AppendControlEvent(ControlEvent(Some(previous), ControlHalted, world.haltAt));
      Continue(start, trace, DoAppendHalt(world.haltAt, false));
      trace := trace + [DoAppendHalt(world.haltAt, false)];
      ghost var pc := if appended then Returned(r, true, since, |repository.control|) else Stopped;
      result := if appended then Some(r) else None;
      assert Finished(pc, result) && At(pc) == RunThread(start, trace);
    }

    /** Looks for broker evidence once; there is no path from here back to a submission. */
    method ReconcileRecord(r: Record, world: World) returns (result: Option<Record>, ghost trace: seq<Input>)
      modifies repository
      ensures submitted == old(submitted)
      ensures result.Some? ==> Reconciled(world, r, result.value)
      ensures AllAnswered(world, trace)
      ensures exists pc :: Finished(pc, result) && At(pc) == RunThread(old(At(Reconciling(r))), trace)
    {
      hide Advance, RunThread, B.Reconcile, Reconciled;
      ghost var start := old(At(Reconciling(r)));
      ghost var find := DoFind(world.evidence, world.foundAt);
      StartOne(start, find);
      ghost var more: seq<Input> := [];
      if r.submission.None? {
        result := None;
        assert Finished(Stopped, result) && At(Stopped) == RunThread(start, [find]);
        return None, [find];
      }
      var now := world.foundAt;
      EvidenceOutcome(world, r);
      if world.evidence.None? {
        if r.phase != Submitted {
          assert Finished(Returned(r, false, 0, 0), Some(r))
                 && At(Returned(r, false, 0, 0)) == RunThread(start, [find]);
          return Some(r), [find];
        }
        var unknown := Advance(r, Unknown, now, Some(ReconciliationTimeout), None, None, None, None);
        assert At(SaveThen(unknown, HaltIt)) == RunThread(start, [find]);
        result, more := SaveAndHalt(unknown, world);
      } else {
        var found := B.Reconcile(r.intent, r.submission.value, world.evidence.value, now);
        if found.match_ == MatchConfirmed {
          var confirmed := Advance(r, Confirmed, now, None, None, None, None, Some(found));
          assert At(SaveThen(confirmed, ReturnIt)) == RunThread(start, [find]);
          result, more := SaveAndReturn(confirmed, world);
        } else if found.match_ == NotFound {
          if r.phase == Unknown {
            assert Finished(Returned(r, false, 0, 0), Some(r))
                   && At(Returned(r, false, 0, 0)) == RunThread(start, [find]);
            return Some(r), [find];
          }
          var unknown := Advance(r, Unknown, now, found.failure, None, None, None, Some(found));
          assert At(SaveThen(unknown, HaltIt)) == RunThread(start, [find]);
          result, more := SaveAndHalt(unknown, world);
        } else {
          var failed := Advance(r, ReconciliationFailed, now, found.failure, None, None, None, Some(found));
          assert At(SaveThen(failed, HaltIt)) == RunThread(start, [find]);
          result, more := SaveAndHalt(failed, world);
        }
      }
      Append(start, [find], more);
      trace := [find] + more;
    }

    /** Reconciles an existing UNKNOWN execution; anything else raises. */
    method ReconcileUnknown(id: Identifier, world: World) returns (result: Option<Record>, ghost trace: seq<Input>)
      modifies repository
      ensures trace != [] && trace[0] == BeginReconcile(id)
      ensures submitted == old(submitted)
      ensures result.Some? ==>
                && id in old(repository.records) && old(repository.records)[id].phase == Unknown
                && Reconciled(world, old(repository.records)[id], result.value)
      ensures AllAnswered(world, trace)
      ensures exists pc :: Finished(pc, result) && At(pc) == RunThread(old(At(Idle)), trace)
    {
      hide RunThread;
      ghost var start := old(At(Idle));
      StartOne(start, BeginReconcile(id));
      if id !in repository.records || repository.records[id].phase != Unknown {
        assert Finished(Stopped, None) && At(Stopped) == RunThread(start, [BeginReconcile(id)]);
        return None, [BeginReconcile(id)];
      }
      assert At(Reconciling(repository.records[id])) == RunThread(start, [BeginReconcile(id)]);
      ghost var more;
      result, more := ReconcileRecord(repository.records[id], world);
      Append(start, [BeginReconcile(id)], more);
      trace := [BeginReconcile(id)] + more;
    }

    /** The one submission call and what follows from its result. */
    method SubmitAndSettle(dispatching: Record, world: World) returns (result: Option<Record>, ghost trace: seq<Input>)
      requires dispatching.guard.Some?
      modifies this`submitted, repository
      ensures submitted == old(submitted) + [dispatching.intent.intentId]
      ensures result.Some? ==> Answers(world, dispatching.intent, result.value)
      ensures AllAnswered(world, trace)
      ensures exists pc :: Finished(pc, result) && At(pc) == RunThread(old(At(Submitting(dispatching))), trace)
    {
      hide Advance, RunThread, Answers, Reconciled;
      ghost var start := old(At(Submitting(dispatching)));
      ghost var submit := DoSubmit(world.receipt, world.submittedAt);
      StartOne(start, submit);
      ghost var more: seq<Input> := [];
      submitted := submitted + [dispatching.intent.intentId];
      if world.receipt.None? || !ValidReceipt(world.receipt.value) {
        var now := world.submittedAt;
        var uncertain := Receipt(Uncertain, dispatching.guard.value.evaluatedAt, now);
        if !ValidReceipt(uncertain) {
          assert Finished(Stopped, None) && At(Stopped) == RunThread(start, [submit]);
          return None, [submit];
        }
        var unknown :=
          Advance(dispatching, Unknown, now, Some(DispatchResultUnknown), None, None, Some(uncertain), None);
        UncertainOutcome(world, dispatching, uncertain);
        assert At(SaveThen(unknown, HaltIt)) == RunThread(start, [submit]);
        result, more := SaveAndHalt(unknown, world);
      } else {
        var receipt := world.receipt.value;
        ReceiptOutcome(world, dispatching);
        if receipt.disposition == RejectedByBroker {
          var rejected :=
            Advance(dispatching, Refused, receipt.completedAt, Some(BrokerRejected), None, None, Some(receipt), None);
          assert At(SaveThen(rejected, ReturnIt)) == RunThread(start, [submit]);
          result, more := SaveAndReturn(rejected, world);
        } else if receipt.disposition == Uncertain {
          var unknown :=
            Advance(dispatching, Unknown, receipt.completedAt, Some(DispatchResultUnknown), None, None,
                    Some(receipt), None);
          assert At(SaveThen(unknown, HaltIt)) == RunThread(start, [submit]);
          result, more := SaveAndHalt(unknown, world);
        } else {
          var advanced := Advance(dispatching, Submitted, receipt.completedAt, None, None, None, Some(receipt), None);
          assert At(SaveThen(advanced, ReconcileIt)) == RunThread(start, [submit]);
          if advanced.None? {
            assert Finished(Stopped, None) && At(Stopped) == RunThread(start, [submit]);
            return None, [submit];
          }
          var ok := repository.SaveRecord(advanced.value);
          Continue(start, [submit], DoSave(false));
          assert [submit] + [DoSave(false)] == [submit, DoSave(false)];
          if !ok {
            assert Finished(Stopped, None) && At(Stopped) == RunThread(start, [submit, DoSave(false)]);
            return None, [submit, DoSave(false)];
          }
          assert At(Reconciling(advanced.value)) == RunThread(start, [submit, DoSave(false)]);
          ghost var rest;
          result, rest := ReconcileRecord(advanced.value, world);
          Append(start, [submit, DoSave(false)], rest);
          trace := [submit, DoSave(false)] + rest;
          return result, trace;
        }
      }
      Append(start, [submit], more);
      trace := [submit] + more;
    }

    /** Guard, persist DISPATCHING, then send; or reject without sending. */
    method GuardAndDispatch(env: Env, r: Record, check: OrderCheck, o: F.FinalObservation, world: World)
      returns (result: Option<Record>, ghost trace: seq<Input>)
      requires r.claimOwner.Some?
      modifies this`submitted, repository
      ensures submitted == old(submitted) || submitted == old(submitted) + [r.intent.intentId]
      ensures result.Some? ==>
                GuardedBy(world, r.intent,
                          F.GuardFailure(r.intent, env.acceptance, env.policy, o,
                                         ClaimIsOwned(old(repository.Abs()), r.intent.intentId, r.claimOwner.value),
                                         ControlState(old(repository.control)), world.guardAt),
                          result.value, submitted != old(submitted))
      ensures AllAnswered(world, trace)
      ensures exists pc :: Finished(pc, result)
                           && At(pc) == RunThread(old(At(ReadingClaim(env, r, check, o, world.guardAt))), trace)
    {
      hide Advance, RunThread, F.GuardFailure, ClaimIsOwned, Answers;
      ghost var start := old(At(ReadingClaim(env, r, check, o, world.guardAt)));
      var now := world.guardAt;
      var claimOwned := ClaimIsOwned(repository.Abs(), r.intent.intentId, r.claimOwner.value);
      StartOne(start, DoReadClaim);
      assert At(ReadingControl(env, r, check, o, now, claimOwned)) == RunThread(start, [DoReadClaim]);
      var control := ControlState(repository.control);
      Continue(start, [DoReadClaim], DoReadControl);
      trace := [DoReadClaim] + [DoReadControl];
      ghost var more;
      var failure := F.GuardFailure(r.intent, env.acceptance, env.policy, o, claimOwned, control, now);
      var guard := Guard(now, failure);
      if failure.Some? {
        var rejected := Advance(r, Refused, now, failure, Some(check), Some(guard), None, None);
        AdvanceEnds(r, Refused, now, failure, Some(check), Some(guard), None, None);
        assert At(SaveThen(rejected, ReturnIt)) == RunThread(start, trace);
        result, more := SaveAndReturn(rejected, world);
        Append(start, trace, more);
        trace := trace + more;
        return;
      }
      var dispatching := Advance(r, Dispatching, now, None, Some(check), Some(guard), None, None);
      AdvanceEnds(r, Dispatching, now, None, Some(check), Some(guard), None, None);
      assert At(SaveThen(dispatching, SubmitIt)) == RunThread(start, trace);
      if dispatching.None? {
        assert Finished(Stopped, None);
        return None, trace;
      }
      var ok := repository.SaveRecord(dispatching.value);
      Continue(start, trace, DoSave(false));
      trace := trace + [DoSave(false)];
      if !ok {
        assert Finished(Stopped, None) && At(Stopped) == RunThread(start, trace);
        return None, trace;
      }
      assert At(Submitting(dispatching.value)) == RunThread(start, trace);
      assert dispatching.value.guard.Some? by {
        AdvanceKeepsGuard(r, now, check, guard);
      }
      result, more := SubmitAndSettle(dispatching.value, world);
      Append(start, trace, more);
      trace := trace + more;
    }

    /** Runs the bounded claim, check, guard and one-send workflow from a fresh request. */
    method Execute(request: Input, world: World) returns (result: Option<Record>, ghost trace: seq<Input>)
      requires request.BeginExecute?
      modifies this`submitted, repository
      ensures trace != [] && trace[0] == request
      ensures Begin(request).Claiming? ==>
                || submitted == old(submitted)
                || submitted == old(submitted) + [Begin(request).intent.intentId]
      ensures !Begin(request).Claiming? ==> result.None? && submitted == old(submitted)
      ensures result.Some? ==>
                && Begin(request).Claiming?
                && AtFreshQuote(result.value.intent, request)
                && Executed(world, request.env, ControlState(old(repository.control)), Begin(request).intent,
                            result.value, submitted != old(submitted))
      ensures AllAnswered(world, trace)
      ensures exists pc :: Finished(pc, result) && At(pc) == RunThread(old(At(Idle)), trace)
    {
      hide Advance, RunThread, Begin, Claim, ClaimIsOwned, F.GuardFailure, Evidenced, AtFreshQuote;
      ghost var start := old(At(Idle));
      StartOne(start, request);
      var begun := Begin(request);
      BeginShape(request);
      trace := [request];
      if !begun.Claiming? {
        assert Finished(Stopped, None) && At(Stopped) == RunThread(start, trace);
        return None, trace;
      }
      assert At(begun) == RunThread(start, trace);
      BeginPrices(request);
      var claimed :=
        repository.ClaimExecution(begun.intent, begun.preflight, begun.revalidation, begun.owner, world.claimAt);
      Continue(start, trace, DoClaim(world.claimAt, false));
      trace := trace + [DoClaim(world.claimAt, false)];
      if claimed.None? {
        assert Finished(Stopped, None) && At(Stopped) == RunThread(start, trace);
        return None, trace;
      }
      ClaimOwned(old(repository.Abs()), begun.intent, begun.preflight, begun.revalidation, begun.owner, world.claimAt);
      var r, env := claimed.value, begun.env;
      assert At(Checking(env, r)) == RunThread(start, trace);

      ghost var more;
      Continue(start, trace, DoCheck(world.check, world.checkedAt));
      trace := trace + [DoCheck(world.check, world.checkedAt)];
      if world.check.None? || !world.check.value.accepted {
        var category := if world.check.None? then AdapterFailure else OrderCheckRejected;
        var rejected := Advance(r, Refused, world.checkedAt, Some(category), world.check, None, None, None);
        AdvanceEnds(r, Refused, world.checkedAt, Some(category), world.check, None, None, None);
        assert At(SaveThen(rejected, ReturnIt)) == RunThread(start, trace);
        result, more := SaveAndReturn(rejected, world);
        Append(start, trace, more);
        trace := trace + more;
        return;
      }
      var check := world.check.value;
      Continue(start, trace, DoObserve(world.observation, world.guardAt));
      trace := trace + [DoObserve(world.observation, world.guardAt)];
      if world.observation.None? {
        var rejected := Advance(r, Refused, world.guardAt, Some(AdapterFailure), Some(check), None, None, None);
        AdvanceEnds(r, Refused, world.guardAt, Some(AdapterFailure), Some(check), None, None, None);
        assert At(SaveThen(rejected, ReturnIt)) == RunThread(start, trace);
        result, more := SaveAndReturn(rejected, world);
      } else {
        assert At(ReadingClaim(env, r, check, world.observation.value, world.guardAt)) == RunThread(start, trace);
        result, more := GuardAndDispatch(env, r, check, world.observation.value, world);
      }
      Append(start, trace, more);
      trace := trace + more;
    }
  }

  lemma StartOne(c: Config, i: Input)
    ensures RunThread(c, [i]) == Step(c, i)
  {
    Continue(c, [], i);
    assert [] + [i] == [i];
  }

  lemma AdvanceKeepsGuard(r: Record, at: Instant, check: OrderCheck, guard: Guard)
    ensures var x := Advance(r, Dispatching, at, None, Some(check), Some(guard), None, None);
            x.Some? ==> x.value.guard == Some(guard)
  {}

  lemma BeginShape(request: Input)
    requires request.BeginExecute?
    ensures Begin(request).Claiming? || Begin(request) == Stopped
  {}

  function Lift(tid: nat, trace: seq<Input>): seq<Action> {
    seq(|trace|, i requires 0 <= i < |trace| => ThreadStep(tid, trace[i]))
  }

  /** A service call made at any point of any run is itself a continuation of that run, so its guarantees apply. */
  lemma {:induction false} ServiceCallsAreRuns(actions: seq<Action>, tid: nat, trace: seq<Input>)
    ensures var s, s' := Run(actions), Run(actions + Lift(tid, trace));
            Config(s'.store, s'.submitted, PcOf(s', tid))
            == RunThread(Config(s.store, s.submitted, PcOf(s, tid)), trace)
  {
    hide Step;
    if trace == [] {
      assert actions + Lift(tid, trace) == actions;
    } else {
      var n := |trace| - 1;
      ServiceCallsAreRuns(actions, tid, trace[..n]);
      var all := actions + Lift(tid, trace);
      assert all[..|all| - 1] == actions + Lift(tid, trace[..n]);
    }
  }
}
