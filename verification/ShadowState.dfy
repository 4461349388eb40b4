/** Agent calls of a shadow cycle and the state the running cycle accumulates from them. */
module ShadowState {
  import opened Prelude
  import opened RiskTypes
  import opened ShadowTypes

  datatype RuntimeCategory =
    | InvalidRequest | InvalidPromptReference | SchemaIncompatible | CapabilityIncompatible | BudgetExceeded
    | DuplicateInvocation | ProviderUnavailable | ProviderAuthentication | ProviderPermission | ProviderRateLimit
    | ProviderTransient | ProviderTimeout | ProviderRefusal | InvalidModelOutput | UnknownProviderError

  /** How one agent call comes back. */
  datatype Reply =
    | Raised(category: RuntimeCategory)      // the runtime raised; there is no trace to audit
    | Foreign(trace: InvocationId)           // the trace names another invocation or role
    | WrongType                              // an output of another role's type
    | Refused(category: RuntimeCategory)     // a well-formed failure result
    | Answer(output: Output)

  type World = Slot -> Reply

  datatype QuantSelection = SkipQuant | QuantOnly | QuantAndSenior

  datatype Policy = Policy(rounds: nat, quant: QuantSelection)

  predicate ValidPolicy(p: Policy) { 1 <= p.rounds <= 3 }

  /** The snapshot with its primary timeframe, the account context and the market view given to the agents. */
  datatype Request = Request(snapshot: Snapshot, timeframe: Identifier, context: AccountContext, market: Market)

  function SlotFor(role: Role, round: nat): Slot {
    Slot(match role
         case MarketContext | TrendAnalyst | PriceAction => 1
         case EntryAnalyst => 2
         case QuantResearcher | SeniorQuant => 3
         case Skeptic => 4
         case ChiefTrader => 5, role, round)
  }

  /** The order in which the cycle reaches its slots. */
  function Rank(s: Slot): int {
    match s.role
    case MarketContext => 0
    case TrendAnalyst => 1
    case PriceAction => 2
    case EntryAnalyst => 3
    case QuantResearcher => 4
    case SeniorQuant => 5
    case Skeptic => 4 + 2 * s.round
    case ChiefTrader => 5 + 2 * s.round
  }

  function CategoryOf(c: RuntimeCategory): FailureCategory {
    match c
    case ProviderTimeout => Timeout
    case InvalidModelOutput => InvalidOutput
    case SchemaIncompatible | CapabilityIncompatible | DuplicateInvocation | InvalidRequest | InvalidPromptReference =>
      SchemaMismatch
    case BudgetExceeded | ProviderUnavailable | ProviderAuthentication | ProviderPermission | ProviderRateLimit
       | ProviderTransient | ProviderRefusal => UnavailableAgent
    case UnknownProviderError => UnknownFailure
  }

  function DispositionOf(c: FailureCategory, role: Role): FailureDisposition {
    if c == SchemaMismatch || c == UnknownFailure then AbortCycle
    else if (c == Timeout || c == UnavailableAgent)
      && (role == QuantResearcher || role == SeniorQuant) then ContinueDegraded
    else HoldCycle
  }

  // ----- one invocation -----

  datatype Outcome = Outcome(output: Option<Output>, failure: Option<Failure>, audit: Option<Invocation>)

  function FailureFor(q: Request, s: Slot, c: RuntimeCategory): Failure {
    var category := CategoryOf(c);
    Failure(FailureOf(Own(s)), q.market.cycleId, q.market.snapshotId, Some(s.role), category,
            DispositionOf(category, s.role))
  }

  function Invoke(w: World, q: Request, s: Slot): Outcome {
    match w(s)
    case Raised(c) => Outcome(None, Some(FailureFor(q, s, c)), None)
    case Foreign(trace) =>
      var f := FailureFor(q, s, SchemaIncompatible);
      Outcome(None, Some(f), Some(Invocation(s, trace, None, Some(f.id))))
    case WrongType =>
      var f := FailureFor(q, s, InvalidModelOutput);
      Outcome(None, Some(f), Some(Invocation(s, Own(s), None, Some(f.id))))
    case Refused(c) =>
      var f := FailureFor(q, s, c);
      Outcome(None, Some(f), Some(Invocation(s, Own(s), None, Some(f.id))))
    case Answer(o) => Outcome(Some(o), None, Some(Invocation(s, Own(s), Some(o.id), None)))
  }

  function AuditId(w: World, s: Slot): InvocationId { if w(s).Foreign? then w(s).trace else Own(s) }

  /**
   * Replies are trace-consistent: an accepted output carries the trusted id, trace and role of its slot, and no
   * two calls come back under one invocation id.
   */
  ghost predicate Consistent(w: World, q: Request) {
    && (forall s :: w(s).Answer? ==>
          var o := w(s).output;
          && o.id == OutputOf(Own(s)) && o.role == s.role
          && o.cycleId == q.market.cycleId && o.snapshotId == q.market.snapshotId
          && (s.role == ChiefTrader ==> ValidChief(o)))
    && (forall s, t :: s != t ==> AuditId(w, s) != AuditId(w, t))
  }

  // ----- the accumulating state -----

  datatype State = State(
    stages: map<nat, StageRecord>,
    invocations: seq<Invocation>,
    outputs: seq<Output>,
    failures: seq<Failure>,
    chiefDecisions: seq<Output>,
    chiefDecision: Option<Output>,
    proposal: Option<Proposal>,
    risk: Option<Decision>)

  const EmptyState := State(map[], [], [], [], [], None, None, None)

  function Retain(s: State, o: Outcome): State {
    s.(invocations := s.invocations + if o.audit.Some? then [o.audit.value] else [],
       outputs := s.outputs + if o.output.Some? then [o.output.value] else [],
       failures := s.failures + if o.failure.Some? then [o.failure.value] else [])
  }

  function StageOf(role: Role): nat { SlotFor(role, 0).stage }

  function StageInvocations(invocations: seq<Invocation>, n: nat): seq<InvocationId> {
    if invocations == [] then []
    else
      var last := invocations[|invocations| - 1];
      StageInvocations(invocations[..|invocations| - 1], n) + if last.slot.stage == n then [last.id] else []
  }

  function StageFailures(failures: seq<Failure>, n: nat): seq<FailureId> {
    if failures == [] then []
    else
      var last := failures[|failures| - 1];
      StageFailures(failures[..|failures| - 1], n)
      + if last.role.Some? && StageOf(last.role.value) == n then [last.id] else []
  }

  function SetStage(s: State, n: nat, status: StageStatus): State {
    s.(stages := s.stages[n :=
                          StageRecord(n, status, StageInvocations(s.invocations, n), StageFailures(s.failures, n))])
  }

  function FillFrom(s: State, n: nat): State
    decreases 7 - n
  {
    if n > 6 then s else FillFrom(if n in s.stages then s else SetStage(s, n, StageSkipped), n + 1)
  }

  function FillSkipped(s: State): State { FillFrom(s, 1) }

  function AddSystemFailure(s: State, q: Request, category: FailureCategory): State {
    s.(failures :=
       s.failures + [Failure(SystemFailure(category), q.snapshot.cycleId, q.snapshot.snapshotId, None, category,
                                         if category == SchemaMismatch || category == UnknownFailure then AbortCycle
                                           else HoldCycle)])
  }

  function LookUp(replacements: seq<Failure>, f: Failure): Failure {
    if replacements == [] then f
    else if replacements[|replacements| - 1].id == f.id then replacements[|replacements| - 1]
    else LookUp(replacements[..|replacements| - 1], f)
  }

  function ReplaceFailures(s: State, replacements: seq<Failure>): State {
    s.(failures := seq(|s.failures|, i requires 0 <= i < |s.failures| => LookUp(replacements, s.failures[i])))
  }

  /** The mutable state of one running cycle. */
  class CycleState {
    var stages: map<nat, StageRecord>
    var invocations: seq<Invocation>
    var outputs: seq<Output>
    var failures: seq<Failure>
    var chiefDecisions: seq<Output>
    var chiefDecision: Option<Output>
    var proposal: Option<Proposal>
    var risk: Option<Decision>

    function View(): State
      reads this
    {
      State(stages, invocations, outputs, failures, chiefDecisions, chiefDecision, proposal, risk)
    }

    constructor ()
      ensures View() == EmptyState
    {
      stages, invocations, outputs, failures := map[], [], [], [];
      chiefDecisions, chiefDecision, proposal, risk := [], None, None, None;
    }

    method RetainOutcome(o: Outcome)
      modifies this
      ensures View() == Retain(old(View()), o)
    {
      if o.audit.Some? { invocations := invocations + [o.audit.value]; }
      if o.output.Some? { outputs := outputs + [o.output.value]; }
      if o.failure.Some? { failures := failures + [o.failure.value]; }
    }

    method Replace(replacements: seq<Failure>)
      modifies this`failures
      ensures View() == ReplaceFailures(old(View()), replacements)
    {
      var replaced: seq<Failure> := [];
      for i := 0 to |failures|
        invariant failures == old(failures) && |replaced| == i
        invariant forall k :: 0 <= k < i ==> replaced[k] == LookUp(replacements, failures[k])
      {
        var n := |replacements|;
        assert replacements[..n] == replacements;
        while n > 0 && replacements[n - 1].id != failures[i].id
          invariant 0 <= n <= |replacements|
          invariant LookUp(replacements, failures[i]) == LookUp(replacements[..n], failures[i])
        {
          assert replacements[..n][..n - 1] == replacements[..n - 1];
          n := n - 1;
        }
        replaced := replaced + [if n > 0 then replacements[n - 1] else failures[i]];
      }
      failures := replaced;
    }

    method RecordSystemFailure(q: Request, category: FailureCategory)
      modifies this`failures
      ensures View() == AddSystemFailure(old(View()), q, category)
    {
      var disposition := if category == SchemaMismatch || category == UnknownFailure then AbortCycle else HoldCycle;
      failures := failures
        + [Failure(SystemFailure(category), q.snapshot.cycleId, q.snapshot.snapshotId, None, category, disposition)];
    }

    method Stage(n: nat, status: StageStatus)
      modifies this`stages
      ensures View() == SetStage(old(View()), n, status)
    {
      var invocationIds: seq<InvocationId> := [];
      for i := 0 to |invocations|
        invariant invocationIds == StageInvocations(invocations[..i], n)
      {
        assert invocations[..i + 1][..i] == invocations[..i];
        if invocations[i].slot.stage == n { invocationIds := invocationIds + [invocations[i].id]; }
      }
      var failureIds: seq<FailureId> := [];
      for i := 0 to |failures|
        invariant failureIds == StageFailures(failures[..i], n)
      {
        assert failures[..i + 1][..i] == failures[..i];
        if failures[i].role.Some? && StageOf(failures[i].role.value) == n {
          failureIds := failureIds + [failures[i].id];
        }
      }
      assert invocations[..|invocations|] == invocations && failures[..|failures|] == failures;
      stages := stages[n := StageRecord(n, status, invocationIds, failureIds)];
    }

    method FillMissing()
      modifies this`stages
      ensures View() == FillSkipped(old(View()))
    {
      var n := 1;
      while n <= 6
        invariant 1 <= n <= 7
        invariant FillFrom(View(), n) == FillSkipped(old(View()))
      {
        if n !in stages { Stage(n, StageSkipped); }
        n := n + 1;
      }
    }
  }
}
