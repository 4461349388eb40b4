/**
 * The single-agent runtime router: a bounded retry loop that drives the budget ledger, while other
 * invocations keep using the same ledger between its steps.
 */
module Router {
  import opened Prelude
  import opened Budget

  datatype Category =
    | InvalidRequest | BudgetExceeded | DuplicateId | ProviderTimeout | ProviderTransient | ProviderRateLimit
    | UnknownProviderError | InvalidModelOutput | OtherCategory

  datatype ProviderError = ProviderError(category: Category, retryable: bool, dispatchOccurred: bool)

  datatype RetryPolicy = RetryPolicy(maxAttempts: int, retryTimeouts: bool, retryTransient: bool, retryRateLimits: bool)

  datatype Usage = Usage(inputTokens: Option<nat>, outputTokens: Option<nat>)

  const NoUsage := Usage(None, None)

  /** What one provider call comes back with. */
  datatype Reply =
    | Response(usage: Usage, outputValid: bool)
    | TimedOut
    | Failed(error: ProviderError)
    | Unexpected

  /** One attempt as the world will answer it, with the ledger traffic of other invocations around its steps. */
  datatype Attempt = Attempt(
    expired: bool,
    reserveAt: Utc,
    dispatchAt: Utc,
    finishAt: Utc,
    reply: Reply,
    beforeReserve: seq<Op>,
    beforeDispatch: seq<Op>,
    duringCall: seq<Op>)

  datatype Availability = Reported | Estimated | Unavailable

  datatype Telemetry = Telemetry(
    attempts: int,
    retries: int,
    cost: Option<real>,
    availability: Availability,
    reservationState: Option<ReservationState>,
    reservations: seq<Reservation>)

  /** The telemetry schema. */
  predicate ValidTelemetry(t: Telemetry) {
    && t.retries == (if t.attempts > 1 then t.attempts - 1 else 0)
    && (t.availability == Unavailable <==> t.cost.None?)
    && (t.cost.Some? ==> 0.0 <= t.cost.value)
    && |t.reservations| == t.attempts
    && (forall i :: 0 <= i < |t.reservations| ==> t.reservations[i].attempt == i + 1)
    && t.reservationState == (if t.reservations == [] then None else Some(t.reservations[|t.reservations| - 1].state))
  }

  datatype Result = Result(failure: Option<Category>, telemetry: Telemetry)

  function ReportedCost(usage: Usage, pricing: Pricing): Option<real> {
    if usage.inputTokens.None? || usage.outputTokens.None? then None
    else Some(EstimateMaximumCost(usage.inputTokens.value, usage.outputTokens.value, pricing))
  }

  function ErrorOf(reply: Reply): ProviderError
    requires !reply.Response?
  {
    match reply
    case TimedOut => ProviderError(ProviderTimeout, true, true)
    case Failed(error) => error
    case Unexpected => ProviderError(UnknownProviderError, false, true)
  }

  predicate RetryAllowed(error: ProviderError, policy: RetryPolicy) {
    error.retryable && match error.category
                       case ProviderTimeout => policy.retryTimeouts
                       case ProviderTransient => policy.retryTransient
                       case ProviderRateLimit => policy.retryRateLimits
                       case _ => false
  }

  /** A reply after which the policy lets another attempt follow. */
  predicate Again(reply: Reply, policy: RetryPolicy) {
    || (reply.TimedOut? && policy.retryTimeouts)
    || (reply.Failed? && reply.error.retryable
        && (|| (reply.error.category == ProviderTimeout && policy.retryTimeouts)
            || (reply.error.category == ProviderTransient && policy.retryTransient)
            || (reply.error.category == ProviderRateLimit && policy.retryRateLimits)))
  }

  lemma AgainIff(reply: Reply, policy: RetryPolicy)
    requires !reply.Response?
    ensures RetryAllowed(ErrorOf(reply), policy) <==> Again(reply, policy)
  {}

  function CategoryOf(failure: Failure): Category {
    match failure
    case DuplicateInvocation => DuplicateId
    case AttemptsNotConsecutive | PolicyMismatch | PricingMismatch | CurrencyMismatch | PricingNotValid =>
      InvalidRequest
    case _ => BudgetExceeded
  }

  /** What an attempt still costs: nothing once released. */
  function Liability(r: Reservation): real { if r.state == Released then 0.0 else Charge(r) }

  function ReservedAmount(rows: seq<Reservation>): real {
    if rows == [] then 0.0 else ReservedAmount(rows[..|rows| - 1]) + Liability(rows[|rows| - 1])
  }

  predicate PriorReleased(rows: seq<Reservation>) {
    forall i :: 0 <= i < |rows| - 1 ==> rows[i].state == Released
  }

  function Measure(usage: Usage, pricing: Pricing, attempts: int, rows: seq<Reservation>,
                   state: Option<ReservationState>): Telemetry {
    var reported := ReportedCost(usage, pricing);
    var exact := reported.Some? && PriorReleased(rows);
    Telemetry(attempts, if attempts > 1 then attempts - 1 else 0,
              if exact then reported else if rows != [] then Some(ReservedAmount(rows)) else None,
              if exact then Reported else if rows != [] then Estimated else Unavailable,
              state, rows)
  }

  function OpId(op: Op): Identifier {
    if op.OpReserve? then op.request.invocationId else op.key.0
  }

  predicate Foreign(ops: seq<Op>, id: Identifier) { forall i :: 0 <= i < |ops| ==> OpId(ops[i]) != id }

  /** The traffic around the steps of these attempts is all of other invocations. */
  predicate ForeignTraffic(attempts: seq<Attempt>, id: Identifier) {
    forall i :: 0 <= i < |attempts| ==>
      && Foreign(attempts[i].beforeReserve, id) && Foreign(attempts[i].beforeDispatch, id)
      && Foreign(attempts[i].duringCall, id)
  }

  /** Every row of one invocation is the same in both ledgers. */
  ghost predicate SameRows(l: Ledger, l': Ledger, id: Identifier) {
    forall a: int :: ((id, a) in l <==> (id, a) in l') && ((id, a) in l ==> l[(id, a)] == l'[(id, a)])
  }

  /** The rows of one invocation are exactly those listed, numbered from one. */
  ghost predicate ExactlyAttempts(l: Ledger, id: Identifier, rows: seq<Reservation>) {
    forall a: int :: ((id, a) in l <==> 1 <= a <= |rows|) && (1 <= a <= |rows| ==> l[(id, a)] == rows[a - 1])
  }

  /** An attempt record carries its own number and never a negative charge. */
  predicate RowOk(id: Identifier, i: nat, r: Reservation) {
    r.attempt == i + 1 && r.invocationId == id && 0.0 <= Charge(r) && 0.0 <= r.reserved
  }

  predicate RowsOk(id: Identifier, rows: seq<Reservation>) {
    forall i :: 0 <= i < |rows| ==> RowOk(id, i, rows[i])
  }

  function Numbered(id: Identifier, n: nat): seq<Key> { seq(n, i => (id, i + 1)) }

  predicate Concluded(state: ReservationState) { state in {Settled, Uncertain, Released} }

  /** The ledger's own total for one invocation, over its rows that are not released. */
  ghost function InvocationTotal(l: Ledger, id: Identifier): real {
    Sum(l, set k | k in l && k.0 == id && l[k].state != Released)
  }

  lemma {:induction false} TotalOfFirst(l: Ledger, id: Identifier, rows: seq<Reservation>, n: nat)
    requires ExactlyAttempts(l, id, rows) && n <= |rows|
    ensures ReservedAmount(rows[..n]) == Sum(l, set k | k in l && k.0 == id && l[k].state != Released && k.1 <= n)
  {
    var upTo := set k | k in l && k.0 == id && l[k].state != Released && k.1 <= n;
    if n == 0 {
      assert upTo == {};
    } else {
      TotalOfFirst(l, id, rows, n - 1);
      var k := (id, n);
      var before := set k | k in l && k.0 == id && l[k].state != Released && k.1 <= n - 1;
      assert rows[..n][..n - 1] == rows[..n - 1];
      assert l[k] == rows[n - 1];
      if l[k].state == Released {
        assert upTo == before;
      } else {
        assert upTo - {k} == before;
        SumRemove(l, upTo, k);
      }
    }
  }

  lemma NoAttempts(l: Ledger, id: Identifier)
    ensures !HasAttempts(l, id) ==> ExactlyAttempts(l, id, [])
  {
    if a: int :| (id, a) in l {
      assert (id, a).0 == id;
    }
  }

  /** Before the first attempt: no rows, and no key dispatched. */
  lemma NoRows(l: Ledger, id: Identifier)
    ensures !HasAttempts(l, id) ==> ExactlyAttempts(l, id, [])
    ensures RowsOk(id, []) && AllFailed([]) && Numbered(id, 0) == []
  {
    NoAttempts(l, id);
  }

  lemma OneMore(sent: seq<Key>, id: Identifier, n: nat)
    ensures sent + Numbered(id, n) + [(id, n + 1)] == sent + Numbered(id, n + 1)
  {
    assert Numbered(id, n + 1) == Numbered(id, n) + [(id, n + 1)];
  }

  lemma RowsExtended(id: Identifier, rows: seq<Reservation>, r: Reservation)
    requires RowsOk(id, rows) && AllFailed(rows) && RowOk(id, |rows|, r)
    requires r.state == Released || r.state == Uncertain
    ensures RowsOk(id, rows + [r]) && AllFailed(rows + [r])
  {}

  lemma Appended(l: Ledger, l': Ledger, id: Identifier, rows: seq<Reservation>, r: Reservation)
    requires ExactlyAttempts(l, id, rows) && l' == l[(id, |rows| + 1) := r]
    ensures ExactlyAttempts(l', id, rows + [r])
  {}

  lemma LastRow(l: Ledger, id: Identifier, rows: seq<Reservation>, r: Reservation)
    requires ExactlyAttempts(l, id, rows + [r])
    ensures (id, |rows| + 1) in l && l[(id, |rows| + 1)] == r
  {}

  lemma Rewritten(l: Ledger, l': Ledger, id: Identifier, rows: seq<Reservation>, r: Reservation, r': Reservation)
    requires ExactlyAttempts(l, id, rows + [r]) && l' == l[(id, |rows| + 1) := r']
    ensures ExactlyAttempts(l', id, rows + [r'])
  {}

  lemma Unaffected(l: Ledger, l': Ledger, id: Identifier, rows: seq<Reservation>)
    requires ExactlyAttempts(l, id, rows) && SameRows(l, l', id)
    ensures ExactlyAttempts(l', id, rows)
  {}

  /** The router's own sum over its attempt records is the ledger's total for the invocation. */
  lemma RouterTotalIsLedgerTotal(l: Ledger, id: Identifier, rows: seq<Reservation>)
    requires ExactlyAttempts(l, id, rows)
    ensures ReservedAmount(rows) == InvocationTotal(l, id)
  {
    TotalOfFirst(l, id, rows, |rows|);
    assert rows[..|rows|] == rows;
    var all := set k | k in l && k.0 == id && l[k].state != Released;
    assert all == set k | k in l && k.0 == id && l[k].state != Released && k.1 <= |rows|;
  }

  lemma {:induction false} AllReleasedCostsNothing(rows: seq<Reservation>)
    requires forall i :: 0 <= i < |rows| ==> rows[i].state == Released
    ensures ReservedAmount(rows) == 0.0
  {
    if rows != [] { AllReleasedCostsNothing(rows[..|rows| - 1]); }
  }

  lemma {:induction false} AmountNonNegative(id: Identifier, rows: seq<Reservation>)
    requires RowsOk(id, rows)
    ensures 0.0 <= ReservedAmount(rows)
  {
    if rows != [] { AmountNonNegative(id, rows[..|rows| - 1]); }
  }

  /**
   * The reported cost is what the ledger holds: when usage is known exactly, the last attempt was settled at
   * that cost and every earlier one released; otherwise the telemetry already is the ledger's sum.
   */
  lemma TelemetryCostIsLedgerTotal(l: Ledger, id: Identifier, rows: seq<Reservation>, usage: Usage, pricing: Pricing,
                                   state: Option<ReservationState>)
    requires ExactlyAttempts(l, id, rows) && RowsOk(id, rows) && rows != []
    requires ReportedCost(usage, pricing).Some? ==>
               rows[|rows| - 1].state == Settled && rows[|rows| - 1].settled == ReportedCost(usage, pricing)
    ensures Measure(usage, pricing, |rows|, rows, state).cost == Some(InvocationTotal(l, id))
  {
    RouterTotalIsLedgerTotal(l, id, rows);
    if ReportedCost(usage, pricing).Some? && PriorReleased(rows) {
      AllReleasedCostsNothing(rows[..|rows| - 1]);
    }
  }

  /**
   * What a returning invocation accounts for: attempts are numbered 1..n, all concluded, only the last may be
   * settled, and the cost told to the caller is exactly what the ledger holds for the invocation.
   */
  ghost predicate Conserved(l: Ledger, id: Identifier, r: Result, maxAttempts: int) {
    var t := r.telemetry;
    && ValidTelemetry(t)
    && 0 <= t.attempts <= maxAttempts
    && ExactlyAttempts(l, id, t.reservations)
    && (forall i :: 0 <= i < t.attempts ==> Concluded(t.reservations[i].state))
    && (forall i :: 0 <= i < t.attempts - 1 ==> t.reservations[i].state != Settled)
    && (r.failure.None? ==> 0 < t.attempts && t.reservations[t.attempts - 1].state != Released)
    && t.cost == (if t.attempts == 0 then None else Some(InvocationTotal(l, id)))
  }

  /** A million times what these tokens cost. */
  function PerMillion(input: nat, output: nat, pricing: Pricing): real {
    input as real * pricing.inputCostPerMillion + output as real * pricing.outputCostPerMillion
  }

  /** What the row of an attempt says once the attempt is over. */
  predicate RowTells(r: Reservation, t: Request, a: Attempt) {
    && t.estimate.Some? && r.reserved * 1000000.0 == PerMillion(t.estimate.value, t.runtime.maxOutputTokens, t.pricing)
    && r.cycleId == t.cycleId && r.createdAt == a.reserveAt && r.updatedAt == a.finishAt
    && match a.reply
       case Response(usage, _) =>
         if usage.inputTokens.Some? && usage.outputTokens.Some? then
           && r.state == Settled && r.settled.Some?
           && r.settled.value * 1000000.0 == PerMillion(usage.inputTokens.value, usage.outputTokens.value, t.pricing)
         else r.state == Uncertain
       case Failed(error) => r.state == if error.dispatchOccurred then Uncertain else Released
       case _ => r.state == Uncertain
  }

  /** Attempts that failed one after the other, each but perhaps the last in a way that lets another follow. */
  predicate FailedInTurn(rows: seq<Reservation>, t: Request, retry: RetryPolicy, attempts: seq<Attempt>) {
    && |rows| <= |attempts|
    && (forall i :: 0 <= i < |rows| ==>
          !attempts[i].expired && !attempts[i].reply.Response? && RowTells(rows[i], t, attempts[i]))
    && forall i :: 0 <= i < |rows| - 1 ==> Again(attempts[i].reply, retry)
  }

  /** The answered attempt behind those that failed. */
  predicate AnsweredInTurn(rows: seq<Reservation>, t: Request, retry: RetryPolicy, attempts: seq<Attempt>) {
    && rows != [] && |rows| <= |attempts|
    && var n := |rows| - 1;
       && FailedInTurn(rows[..n], t, retry, attempts) && (0 < n ==> Again(attempts[n - 1].reply, retry))
       && !attempts[n].expired && attempts[n].reply.Response? && RowTells(rows[n], t, attempts[n])
  }

  /** Why an invocation whose n attempts all failed made no further one, and what it reports then. */
  ghost predicate Stopped(l: Ledger, t: Request, policy: Policy, retry: RetryPolicy, attempts: seq<Attempt>, n: nat,
                          failure: Option<Category>)
    requires n <= |attempts|
  {
    if 0 < n && (n == |attempts| || !Again(attempts[n - 1].reply, retry)) then
      failure == match attempts[n - 1].reply
                 case Failed(error) => Some(error.category)
                 case TimedOut => Some(ProviderTimeout)
                 case _ => Some(UnknownProviderError)
    else if n < |attempts| && attempts[n].expired then failure == Some(ProviderTimeout)
    else
      && n < |attempts|
      && var granted := GuardReserve(l, AttemptRequest(t, attempts[n], n), policy);
         && granted.Refused?
         && failure == match granted.failure
                       case DuplicateInvocation => Some(DuplicateId)
                       case AttemptsNotConsecutive => Some(InvalidRequest)
                       case PolicyMismatch => Some(InvalidRequest)
                       case PricingMismatch => Some(InvalidRequest)
                       case CurrencyMismatch => Some(InvalidRequest)
                       case PricingNotValid => Some(InvalidRequest)
                       case _ => Some(BudgetExceeded)
  }

  /** The whole report of a returning invocation, told from the replies its attempts met. */
  ghost predicate Reports(r: Result, l: Ledger, t: Request, policy: Policy, retry: RetryPolicy,
                          preflight: Option<Category>, attempts: seq<Attempt>) {
    var rows, n := r.telemetry.reservations, |r.telemetry.reservations|;
    && n <= |attempts| && r.telemetry.attempts == n
    && if preflight.Some? then n == 0 && r.failure == preflight
       else if 0 < n && attempts[n - 1].reply.Response? then
         && AnsweredInTurn(rows, t, retry, attempts)
         && r.failure == (if attempts[n - 1].reply.outputValid then None else Some(InvalidModelOutput))
         && (r.telemetry.availability == Reported <==>
               rows[n - 1].state == Settled && forall i :: 0 <= i < n - 1 ==> rows[i].state == Released)
       else
         && FailedInTurn(rows, t, retry, attempts) && Stopped(l, t, policy, retry, attempts, n, r.failure)
         && r.telemetry.availability == if n == 0 then Unavailable else Estimated
  }

  predicate AllFailed(rows: seq<Reservation>) {
    forall i :: 0 <= i < |rows| ==> rows[i].state == Released || rows[i].state == Uncertain
  }

  function AnswerResult(rows: seq<Reservation>, last: Reservation, usage: Usage, outputValid: bool,
                        pricing: Pricing): Result {
    Result(if outputValid then None else Some(InvalidModelOutput),
           Measure(usage, pricing, |rows| + 1, rows + [last], Some(last.state)))
  }

  function FailureResult(rows: seq<Reservation>, error: Option<Category>, pricing: Pricing): Result {
    Result(error, Measure(NoUsage, pricing, |rows|, rows, if rows == [] then None else Some(rows[|rows| - 1].state)))
  }

  lemma AnswerConserved(l: Ledger, id: Identifier, rows: seq<Reservation>, last: Reservation, usage: Usage,
                        outputValid: bool, pricing: Pricing, maxAttempts: int)
    requires ExactlyAttempts(l, id, rows + [last]) && RowsOk(id, rows) && RowOk(id, |rows|, last) && AllFailed(rows)
    requires ValidPricing(pricing) && |rows| < maxAttempts
    requires last.state == if ReportedCost(usage, pricing).Some? then Settled else Uncertain
    requires ReportedCost(usage, pricing).Some? ==> last.settled == ReportedCost(usage, pricing)
    ensures Conserved(l, id, AnswerResult(rows, last, usage, outputValid, pricing), maxAttempts)
    ensures AnswerResult(rows, last, usage, outputValid, pricing).telemetry.attempts == |rows| + 1
  {
    hide ExactlyAttempts, ReservedAmount, InvocationTotal, ReportedCost, Charge;
    var all := rows + [last];
    TelemetryCostIsLedgerTotal(l, id, all, usage, pricing, Some(last.state));
    AmountNonNegative(id, all);
    RouterTotalIsLedgerTotal(l, id, all);
  }

  lemma FailureConserved(l: Ledger, id: Identifier, rows: seq<Reservation>, error: Option<Category>, pricing: Pricing,
                         maxAttempts: int)
    requires ExactlyAttempts(l, id, rows) && RowsOk(id, rows) && AllFailed(rows) && |rows| <= maxAttempts && error.Some?
    ensures Conserved(l, id, FailureResult(rows, error, pricing), maxAttempts)
    ensures FailureResult(rows, error, pricing).telemetry.attempts == |rows|
  {
    hide ExactlyAttempts, ReservedAmount, InvocationTotal, Charge;
    AmountNonNegative(id, rows);
    RouterTotalIsLedgerTotal(l, id, rows);
  }

  lemma ReportedNonNegative(usage: Usage, pricing: Pricing)
    requires ValidPricing(pricing)
    ensures ReportedCost(usage, pricing).Some? ==> 0.0 <= ReportedCost(usage, pricing).value
  {
    if usage.inputTokens.Some? && usage.outputTokens.Some? {
      CostNonNegative(usage.inputTokens.value, usage.outputTokens.value, pricing);
    }
  }

  // ----- when an invocation raises -----

  /** The ledger after the traffic of other invocations. */
  ghost function Traffic(policies: map<Identifier, Policy>, l: Ledger, ops: seq<Op>): Ledger {
    if ops == [] then l else Apply(policies, Traffic(policies, l, ops[..|ops| - 1]), ops[|ops| - 1])
  }

  function Moved(l: Ledger, k: Key, expected: ReservationState, state: ReservationState, at: Utc): Ledger {
    var outcome := Transition(l, k, expected, state, at);
    if outcome.Done? then outcome.value else l
  }

  function AttemptRequest(t: Request, a: Attempt, n: nat): Request { t.(attempt := n + 1, at := a.reserveAt) }

  /** The ledger when attempt n has been reserved, sent and replied to, or the refusal of its reservation. */
  ghost function Sent(policies: map<Identifier, Policy>, l: Ledger, t: Request, policy: Policy, a: Attempt,
                      n: nat): Outcome<Ledger> {
    var reserved := GuardReserve(l, AttemptRequest(t, a, n), policy);
    if reserved.Refused? then reserved
    else
      var sending := Traffic(policies, reserved.value, a.beforeDispatch);
      Done(Traffic(policies, Moved(sending, (t.invocationId, n + 1), Reserved, Dispatched, a.dispatchAt), a.duringCall))
  }

  function AfterFailure(l: Ledger, id: Identifier, n: nat, error: ProviderError, at: Utc): Ledger {
    Moved(l, (id, n + 1), Dispatched, if error.dispatchOccurred then Uncertain else Released, at)
  }

  /** The attempt is answered, and its reported usage costs more than was reserved for it. */
  predicate Above(a: Attempt, t: Request) {
    && t.estimate.Some? && a.reply.Response? && a.reply.usage.inputTokens.Some? && a.reply.usage.outputTokens.Some?
    && PerMillion(t.estimate.value, t.runtime.maxOutputTokens, t.pricing)
       < PerMillion(a.reply.usage.inputTokens.value, a.reply.usage.outputTokens.value, t.pricing)
  }

  /**
   * From attempt n on, every attempt is granted by the ledger as the traffic before it has left it and fails in a
   * way that may be retried, until one is answered above its reservation.
   */
  ghost predicate Raises(policies: map<Identifier, Policy>, l: Ledger, t: Request, policy: Policy, retry: RetryPolicy,
                         attempts: seq<Attempt>, n: nat)
    decreases |attempts| - n
  {
    && n < |attempts| && !attempts[n].expired
    && var a := attempts[n];
       var sent := Sent(policies, Traffic(policies, l, a.beforeReserve), t, policy, a, n);
       && sent.Done?
       && if a.reply.Response? then Above(a, t)
          else
            var error := ErrorOf(a.reply);
            && Again(a.reply, retry) && n + 1 < retry.maxAttempts
            && Raises(policies, AfterFailure(sent.value, t.invocationId, n, error, a.finishAt), t, policy, retry,
                      attempts, n + 1)
  }

  /** A known identity is refused at its first reservation, so it cannot raise. */
  lemma KnownNeverRaises(policies: map<Identifier, Policy>, l: Ledger, t: Request, policy: Policy, retry: RetryPolicy,
                         attempts: seq<Attempt>)
    requires HasAttempts(l, t.invocationId)
    requires attempts != [] ==> Foreign(attempts[0].beforeReserve, t.invocationId)
    ensures !Raises(policies, l, t, policy, retry, attempts, 0)
  {
    if attempts != [] {
      var q := AttemptRequest(t, attempts[0], 0);
      var met := Traffic(policies, l, attempts[0].beforeReserve);
      TrafficKeepsRows(policies, l, attempts[0].beforeReserve, t.invocationId);
      SameAttempts(l, met, t.invocationId);
      hide Traffic, SameRows;
      assert Admit(q, policy).Done? ==> Reserve(met, Admit(q, policy).value, policy).Refused?;
    }
  }

  /** An operation of another invocation leaves every row of this one alone. */
  lemma ForeignKeepsRows(policies: map<Identifier, Policy>, l: Ledger, op: Op, id: Identifier)
    requires OpId(op) != id
    ensures SameRows(l, Apply(policies, l, op), id)
  {
    hide Sum, InCycle, OnDay, InMonth, HasAttempts;
  }

  lemma {:induction false} TrafficKeepsRows(policies: map<Identifier, Policy>, l: Ledger, ops: seq<Op>, id: Identifier)
    requires Foreign(ops, id)
    ensures SameRows(l, Traffic(policies, l, ops), id)
  {
    if ops != [] {
      hide Apply;
      var n := |ops| - 1;
      TrafficKeepsRows(policies, l, ops[..n], id);
      ForeignKeepsRows(policies, Traffic(policies, l, ops[..n]), ops[n], id);
    }
  }

  lemma SameAttempts(l: Ledger, l': Ledger, id: Identifier)
    requires SameRows(l, l', id)
    ensures HasAttempts(l, id) <==> HasAttempts(l', id)
  {
    forall a: int ensures (id, a) in l <==> (id, a) in l' {}
    if k :| k in l && k.0 == id { assert k == (id, k.1) && (id, k.1) in l'; }
    if k :| k in l' && k.0 == id { assert k == (id, k.1) && (id, k.1) in l; }
  }

  lemma MoreTokensCostMore(i1: nat, o1: nat, i2: nat, o2: nat, pricing: Pricing)
    requires ValidPricing(pricing) && i1 <= i2 && o1 <= o2
    ensures PerMillion(i1, o1, pricing) <= PerMillion(i2, o2, pricing)
  {
    MulLe(i1 as real, i2 as real, pricing.inputCostPerMillion);
    MulLe(o1 as real, o2 as real, pricing.outputCostPerMillion);
  }

  /** The reported usage, where it is known, stays within the estimated input and the configured output. */
  predicate UsageWithinLimits(a: Attempt, t: Request) {
    a.reply.Response? && a.reply.usage.inputTokens.Some? && a.reply.usage.outputTokens.Some? && t.estimate.Some? ==>
      && a.reply.usage.inputTokens.value <= t.estimate.value
      && a.reply.usage.outputTokens.value <= t.runtime.maxOutputTokens
  }

  /** A provider that keeps to the estimated input and the configured output never makes an invocation raise. */
  lemma {:induction false} WithinLimitsNeverRaises(policies: map<Identifier, Policy>, l: Ledger, t: Request,
                                                   policy: Policy,
                                                   retry: RetryPolicy, attempts: seq<Attempt>, n: nat)
    requires ValidPricing(t.pricing) && forall i :: 0 <= i < |attempts| ==> UsageWithinLimits(attempts[i], t)
    ensures !Raises(policies, l, t, policy, retry, attempts, n)
    decreases |attempts| - n
  {
    hide Sent, Traffic, AfterFailure, PerMillion;
    if n < |attempts| {
      var a := attempts[n];
      var sent := Sent(policies, Traffic(policies, l, a.beforeReserve), t, policy, a, n);
      if a.reply.Response? {
        var u := a.reply.usage;
        if u.inputTokens.Some? && u.outputTokens.Some? && t.estimate.Some? {
          MoreTokensCostMore(u.inputTokens.value, u.outputTokens.value, t.estimate.value,
                             t.runtime.maxOutputTokens, t.pricing);
        }
      } else if sent.Done? {
        var after := AfterFailure(sent.value, t.invocationId, n, ErrorOf(a.reply), a.finishAt);
        WithinLimitsNeverRaises(policies, after, t, policy, retry, attempts, n + 1);
      }
    }
  }

  const NOON := Utc(2026, 1, 5, 0)
  const ONE_CALL := Policy("cost", "USD", 1.0, 10.0, 10.0, 5, 5, 1000, 1000)
  const ONE_DOLLAR_PER_MILLION := Pricing("price", "p", "m", "USD", 1.0, 1.0, NOON, None)
  const SMALL_REQUEST :=
    Request("call", "cycle", Runtime("cost", "price", "p", "m", 10), Some(10), ONE_DOLLAR_PER_MILLION, NOON, 1)
  const ONE_ATTEMPT := RetryPolicy(1, false, false, false)
  const LONG_ANSWER := Attempt(false, NOON, NOON, NOON, Response(Usage(Some(10), Some(11)), true), [], [], [])

  /** One output token more than configured is enough: on an empty ledger the request is granted, sent, and raises. */
  lemma LongAnswerRaises(policies: map<Identifier, Policy>)
    ensures Raises(policies, map[], SMALL_REQUEST, ONE_CALL, ONE_ATTEMPT, [LONG_ANSWER], 0)
  {
    var q := AttemptRequest(SMALL_REQUEST, LONG_ANSWER, 0);
    EmptyWithinCaps(ONE_CALL);
    CapsAt(map[], ONE_CALL, NOON, "cycle");
    assert OnDay(map[], "cost", NOON) == {} && InMonth(map[], "cost", NOON) == {}
           && InCycle(map[], "cost", "cycle") == {};
    assert GuardReserve(map[], q, ONE_CALL).Done?;
  }

  /** A dispatched row whose reported cost settlement refuses. */
  ghost predicate Overcharged(l: Ledger, k: Key, a: Attempt, pricing: Pricing) {
    && k in l && l[k].state == Dispatched && a.reply.Response?
    && var cost := ReportedCost(a.reply.usage, pricing);
       cost.Some? && cost.value > l[k].reserved
  }

  /** One step of `Raises`. */
  lemma RaisesFrom(policies: map<Identifier, Policy>, l: Ledger, t: Request, policy: Policy, retry: RetryPolicy,
                   attempts: seq<Attempt>, n: nat)
    requires n < |attempts|
    ensures var a := attempts[n];
            var sent := Sent(policies, Traffic(policies, l, a.beforeReserve), t, policy, a, n);
            && (a.expired || sent.Refused? ==> !Raises(policies, l, t, policy, retry, attempts, n))
            && (!a.expired && sent.Done? && a.reply.Response? ==>
                  (Raises(policies, l, t, policy, retry, attempts, n) <==> Above(a, t)))
            && (!a.expired && sent.Done? && !a.reply.Response? ==>
                  var error := ErrorOf(a.reply);
                  (Raises(policies, l, t, policy, retry, attempts, n) <==>
                     && Again(a.reply, retry) && n + 1 < retry.maxAttempts
                     && Raises(policies, AfterFailure(sent.value, t.invocationId, n, error, a.finishAt), t, policy,
                               retry, attempts, n + 1)))
  {
    hide Sent, Traffic, AfterFailure, Above;
  }

  lemma NoAttemptLeft(policies: map<Identifier, Policy>, l: Ledger, t: Request, policy: Policy, retry: RetryPolicy,
                      attempts: seq<Attempt>, n: nat)
    ensures |attempts| <= n ==> !Raises(policies, l, t, policy, retry, attempts, n)
  {}

  lemma AboveReservation(a: Attempt, t: Request, open: Reservation)
    requires a.reply.Response? && t.estimate.Some?
    requires open.reserved == EstimateMaximumCost(t.estimate.value, t.runtime.maxOutputTokens, t.pricing)
    ensures Above(a, t) <==>
              && ReportedCost(a.reply.usage, t.pricing).Some?
              && ReportedCost(a.reply.usage, t.pricing).value > open.reserved
  {}

  /** The last attempt sent since `before` was answered above its reservation. */
  ghost predicate LastSentAbove(before: seq<Key>, now: seq<Key>, id: Identifier, attempts: seq<Attempt>, t: Request) {
    exists n: nat :: 1 <= n <= |attempts| && Above(attempts[n - 1], t) && now == before + Numbered(id, n)
  }

  /** The row of the last attempt sent is still dispatched, and settlement refuses its reported cost. */
  ghost predicate LastSentOpen(before: seq<Key>, now: seq<Key>, id: Identifier, attempts: seq<Attempt>, l: Ledger,
                               pricing: Pricing) {
    exists n: nat :: 1 <= n <= |attempts| && now == before + Numbered(id, n)
      && Overcharged(l, (id, n), attempts[n - 1], pricing)
  }

  /** With n attempts sent, none of them answered, no attempt above its reservation is the last one sent. */
  lemma NothingAbove(sent: seq<Key>, id: Identifier, n: nat, attempts: seq<Attempt>, t: Request)
    requires n <= |attempts| && forall i :: 0 <= i < n ==> !attempts[i].reply.Response?
    ensures !LastSentAbove(sent, sent + Numbered(id, n), id, attempts, t)
  {
    forall m: nat | 1 <= m <= |attempts| && sent + Numbered(id, n) == sent + Numbered(id, m)
      ensures !Above(attempts[m - 1], t)
    {
      assert |sent + Numbered(id, n)| == |sent| + n;
    }
  }

  lemma AnsweredLast(sent: seq<Key>, id: Identifier, n: nat, attempts: seq<Attempt>, t: Request, l: Ledger)
    requires 1 <= n <= |attempts|
    ensures LastSentAbove(sent, sent + Numbered(id, n), id, attempts, t) <==> Above(attempts[n - 1], t)
    ensures Overcharged(l, (id, n), attempts[n - 1], t.pricing) ==>
              LastSentOpen(sent, sent + Numbered(id, n), id, attempts, l, t.pricing)
  {
    forall m: nat | 1 <= m <= |attempts| && sent + Numbered(id, n) == sent + Numbered(id, m) ensures m == n {
      assert |sent + Numbered(id, n)| == |sent| + n;
    }
  }

  // ----- what an invocation reports -----

  /** An answered invocation: its rows, its failure, and when its cost is the reported one. */
  lemma AnswerSays(rows: seq<Reservation>, last: Reservation, usage: Usage, outputValid: bool, pricing: Pricing)
    requires last.state == if ReportedCost(usage, pricing).Some? then Settled else Uncertain
    ensures var r := AnswerResult(rows, last, usage, outputValid, pricing);
            && r.telemetry.reservations == rows + [last] && r.telemetry.attempts == |rows| + 1
            && r.failure == (if outputValid then None else Some(InvalidModelOutput))
            && (r.telemetry.availability == Reported <==>
                  last.state == Settled && forall i :: 0 <= i < |rows| ==> rows[i].state == Released)
  {
    hide ReportedCost;
    var all := rows + [last];
    assert all[..|rows|] == rows && forall i :: 0 <= i < |rows| ==> all[i] == rows[i];
  }

  lemma FailureSays(rows: seq<Reservation>, error: Option<Category>, pricing: Pricing)
    ensures var r := FailureResult(rows, error, pricing);
            && r.telemetry.reservations == rows && r.telemetry.attempts == |rows| && r.failure == error
            && r.telemetry.availability == if rows == [] then Unavailable else Estimated
  {}

  lemma ReportedPerMillion(usage: Usage, pricing: Pricing)
    ensures ReportedCost(usage, pricing).Some? <==> usage.inputTokens.Some? && usage.outputTokens.Some?
    ensures ReportedCost(usage, pricing).Some? ==>
              ReportedCost(usage, pricing).value * 1000000.0
              == PerMillion(usage.inputTokens.value, usage.outputTokens.value, pricing)
  {
    if usage.inputTokens.Some? && usage.outputTokens.Some? {
      CostPerMillion(usage.inputTokens.value, usage.outputTokens.value, pricing);
    }
  }

  /** An open row of a sent attempt. */
  predicate OpenTells(open: Reservation, t: Request, a: Attempt) {
    && t.estimate.Some? && open.cycleId == t.cycleId && open.createdAt == a.reserveAt
    && open.reserved == EstimateMaximumCost(t.estimate.value, t.runtime.maxOutputTokens, t.pricing)
  }

  lemma IsOpen(open: Reservation, t: Request, a: Attempt)
    requires t.estimate.Some? && open.cycleId == t.cycleId && open.createdAt == a.reserveAt
    requires open.reserved == EstimateMaximumCost(t.estimate.value, t.runtime.maxOutputTokens, t.pricing)
    ensures OpenTells(open, t, a)
  {}

  lemma ClosedTells(open: Reservation, t: Request, a: Attempt)
    requires OpenTells(open, t, a)
    ensures match a.reply
            case Response(usage, _) =>
              var cost := ReportedCost(usage, t.pricing);
              RowTells(if cost.Some? then open.(state := Settled, settled := cost, updatedAt := a.finishAt)
                       else open.(state := Uncertain, updatedAt := a.finishAt), t, a)
            case _ =>
              RowTells(open.(state := if ErrorOf(a.reply).dispatchOccurred then Uncertain else Released,
                             updatedAt := a.finishAt), t, a)
  {
    CostPerMillion(t.estimate.value, t.runtime.maxOutputTokens, t.pricing);
    if a.reply.Response? { ReportedPerMillion(a.reply.usage, t.pricing); }
    hide ReportedCost, EstimateMaximumCost;
  }

  lemma NothingFailed(t: Request, retry: RetryPolicy, attempts: seq<Attempt>)
    ensures FailedInTurn([], t, retry, attempts)
  {}

  lemma FailedOneMore(rows: seq<Reservation>, t: Request, retry: RetryPolicy, attempts: seq<Attempt>, row: Reservation)
    requires FailedInTurn(rows, t, retry, attempts) && |rows| < |attempts|
    requires 0 < |rows| ==> Again(attempts[|rows| - 1].reply, retry)
    requires !attempts[|rows|].expired && !attempts[|rows|].reply.Response? && RowTells(row, t, attempts[|rows|])
    ensures FailedInTurn(rows + [row], t, retry, attempts)
  {
    hide Again, RowTells;
  }

  lemma AnsweredBehind(rows: seq<Reservation>, t: Request, retry: RetryPolicy, attempts: seq<Attempt>,
                       row: Reservation)
    requires FailedInTurn(rows, t, retry, attempts) && |rows| < |attempts|
    requires 0 < |rows| ==> Again(attempts[|rows| - 1].reply, retry)
    requires !attempts[|rows|].expired && attempts[|rows|].reply.Response? && RowTells(row, t, attempts[|rows|])
    ensures AnsweredInTurn(rows + [row], t, retry, attempts)
  {
    hide Again, RowTells, FailedInTurn;
    assert (rows + [row])[..|rows|] == rows;
  }

  lemma StoppedAt(l: Ledger, t: Request, policy: Policy, retry: RetryPolicy, attempts: seq<Attempt>, n: nat)
    requires n <= |attempts|
    ensures 0 < n && !attempts[n - 1].reply.Response? && (n == |attempts| || !Again(attempts[n - 1].reply, retry)) ==>
              Stopped(l, t, policy, retry, attempts, n, Some(ErrorOf(attempts[n - 1].reply).category))
    ensures (0 < n ==> Again(attempts[n - 1].reply, retry)) && n < |attempts| && attempts[n].expired ==>
              Stopped(l, t, policy, retry, attempts, n, Some(ProviderTimeout))
    ensures (0 < n ==> Again(attempts[n - 1].reply, retry)) && n < |attempts| && !attempts[n].expired
            && GuardReserve(l, AttemptRequest(t, attempts[n], n), policy).Refused? ==>
              Stopped(l, t, policy, retry, attempts, n,
                      Some(CategoryOf(GuardReserve(l, AttemptRequest(t, attempts[n], n), policy).failure)))
  {
    hide Again, GuardReserve;
  }

  lemma ReportsAnswer(r: Result, l: Ledger, t: Request, policy: Policy, retry: RetryPolicy, attempts: seq<Attempt>,
                      rows: seq<Reservation>, last: Reservation)
    requires AnsweredInTurn(rows + [last], t, retry, attempts)
    requires r.telemetry.reservations == rows + [last] && r.telemetry.attempts == |rows| + 1
    requires r.failure == if attempts[|rows|].reply.outputValid then None else Some(InvalidModelOutput)
    requires r.telemetry.availability == Reported <==>
               last.state == Settled && forall i :: 0 <= i < |rows| ==> rows[i].state == Released
    ensures Reports(r, l, t, policy, retry, None, attempts)
  {
    hide RowTells, FailedInTurn, Again;
    var all := rows + [last];
    assert all[|rows|] == last && forall i :: 0 <= i < |rows| ==> all[i] == rows[i];
  }

  lemma ReportsFailure(r: Result, l: Ledger, t: Request, policy: Policy, retry: RetryPolicy,
                       preflight: Option<Category>, attempts: seq<Attempt>, rows: seq<Reservation>)
    requires r.telemetry.reservations == rows && r.telemetry.attempts == |rows|
    requires r.telemetry.availability == if rows == [] then Unavailable else Estimated
    requires if preflight.Some? then rows == [] && r.failure == preflight
             else
               && FailedInTurn(rows, t, retry, attempts)
               && Stopped(l, t, policy, retry, attempts, |rows|, r.failure)
    ensures Reports(r, l, t, policy, retry, preflight, attempts)
  {
    hide RowTells, Again, Stopped;
  }

  lemma SameRowsItself(l: Ledger, id: Identifier)
    ensures SameRows(l, l, id)
  {}

  lemma ForeignAt(attempts: seq<Attempt>, id: Identifier, n: nat)
    requires ForeignTraffic(attempts, id) && n < |attempts|
    ensures Foreign(attempts[n].beforeReserve, id) && Foreign(attempts[n].beforeDispatch, id)
            && Foreign(attempts[n].duringCall, id)
  {}

  lemma CallOfOne()
    ensures ValidPricing(SMALL_REQUEST.pricing) && ONE_ATTEMPT.maxAttempts == |[LONG_ANSWER]|
    ensures ForeignTraffic([LONG_ANSWER], SMALL_REQUEST.invocationId)
  {}

  lemma OneSent(now: seq<Key>, l: Ledger)
    requires LastSentOpen([], now, SMALL_REQUEST.invocationId, [LONG_ANSWER], l, SMALL_REQUEST.pricing)
    ensures now == [("call", 1)] && ("call", 1) in l && l[("call", 1)].state == Dispatched
  {
    assert [] + Numbered("call", 1) == [("call", 1)];
  }

  class RuntimeRouter {
    const ledger: InMemoryLedger
    var dispatched: seq<Key> // every provider call, in order

    constructor (ledger: InMemoryLedger)
      ensures this.ledger == ledger && dispatched == []
    {
      this.ledger := ledger;
      dispatched := [];
    }

    /** One operation of another invocation; what the ledger refuses changes nothing. */
    method Other(policies: map<Identifier, Policy>, op: Op)
      modifies ledger
      ensures ledger.records == Apply(policies, old(ledger.records), op)
    {
      hide Reserve, Transition, Settle;
      match op {
        case OpReserve(q) =>
          if q.runtime.costPolicyRef in policies {
            var p := policies[q.runtime.costPolicyRef];
            var admitted := Admit(q, p);
            if admitted.Done? {
              var _ := ledger.ReserveIfWithin(admitted.value, p);
            }
          }
        case OpDispatch(k, at) => var _ := ledger.Move(k, Reserved, Dispatched, at);
        case OpSettle(k, amount, at) => var _ := ledger.SettleAmount(k, amount, at);
        case OpRelease(k, at) => var _ := ledger.Move(k, Reserved, Released, at);
        case OpUncertain(k, at) => var _ := ledger.Move(k, Dispatched, Uncertain, at);
        case OpReleaseUndispatched(k, at) => var _ := ledger.Move(k, Dispatched, Released, at);
      }
    }

    /** The traffic of other invocations. */
    method Others(policies: map<Identifier, Policy>, ops: seq<Op>, ghost id: Identifier)
      requires Foreign(ops, id)
      modifies ledger
      ensures SameRows(old(ledger.records), ledger.records, id)
      ensures ledger.records == Traffic(policies, old(ledger.records), ops)
    {
      hide Apply;
      for i := 0 to |ops|
        invariant SameRows(old(ledger.records), ledger.records, id)
        invariant ledger.records == Traffic(policies, old(ledger.records), ops[..i])
      {
        assert ops[..i + 1][..i] == ops[..i];
        ForeignKeepsRows(policies, ledger.records, ops[i], id);
        Other(policies, ops[i]);
      }
      assert ops[..|ops|] == ops;
    }

    /**
     * Reserves the next attempt and marks it dispatched, then sends it; other traffic runs before the send and
     * while the call is out.
     */
    method Start(template: Request, policy: Policy, policies: map<Identifier, Policy>, a: Attempt,
                 ghost rows: seq<Reservation>, n: nat) returns (result: Outcome<Reservation>)
      requires ValidPricing(template.pricing) && |rows| == n
      requires Foreign(a.beforeDispatch, template.invocationId) && Foreign(a.duringCall, template.invocationId)
      requires if HasAttempts(ledger.records, template.invocationId) && n == 0 then true
               else ExactlyAttempts(ledger.records, template.invocationId, rows)
      modifies this`dispatched, ledger
      ensures result.Refused? <==> Sent(policies, old(ledger.records), template, policy, a, n).Refused?
      ensures result.Refused? ==> ledger.records == old(ledger.records) && dispatched == old(dispatched)
      ensures result.Refused? ==>
                var granted := GuardReserve(old(ledger.records), AttemptRequest(template, a, n), policy);
                granted.Refused? && granted.failure == result.failure
      ensures old(HasAttempts(ledger.records, template.invocationId)) && n == 0 ==> result.Refused?
      ensures result.Done? ==>
                && ExactlyAttempts(ledger.records, template.invocationId, rows + [result.value])
                && RowOk(template.invocationId, n, result.value) && result.value.state == Dispatched
                && ledger.records == Sent(policies, old(ledger.records), template, policy, a, n).value
                && template.estimate.Some?
                && result.value.reserved
                   == EstimateMaximumCost(template.estimate.value, template.runtime.maxOutputTokens, template.pricing)
                && result.value.cycleId == template.cycleId && result.value.createdAt == a.reserveAt
                && dispatched == old(dispatched) + [(template.invocationId, n + 1)]
    {
      hide Sum, Earlier, EstimateMaximumCost, InCycle, OnDay, InMonth, ExactlyAttempts, SameRows, Traffic;
      var id := template.invocationId;
      var admitted := Admit(AttemptRequest(template, a, n), policy);
      if admitted.Refused? {
        return admitted;
      }
      CostNonNegative(template.estimate.value, template.runtime.maxOutputTokens, template.pricing);
      var reservation := ledger.ReserveIfWithin(admitted.value, policy);
      if reservation.Refused? {
        return reservation;
      }
      Appended(old(ledger.records), ledger.records, id, rows, reservation.value);
      ghost var reserved := ledger.records;
      Others(policies, a.beforeDispatch, id);
      Unaffected(reserved, ledger.records, id, rows + [reservation.value]);
      ghost var sending := ledger.records;
      LastRow(sending, id, rows, reservation.value);
      result := ledger.Move((id, n + 1), Reserved, Dispatched, a.dispatchAt);
      Rewritten(sending, ledger.records, id, rows, reservation.value, result.value);
      dispatched := dispatched + [(id, n + 1)];
      ghost var sent := ledger.records;
      Others(policies, a.duringCall, id);
      Unaffected(sent, ledger.records, id, rows + [result.value]);
    }

    /** Closes an attempt that failed: uncertain when it may have reached the provider, otherwise released. */
    method Fail(id: Identifier, n: nat, error: ProviderError, at: Utc, ghost rows: seq<Reservation>,
                ghost open: Reservation)
      returns (result: Outcome<Reservation>)
      requires |rows| == n && ExactlyAttempts(ledger.records, id, rows + [open])
      requires RowOk(id, n, open) && open.state == Dispatched
      modifies ledger
      ensures result.Done? && RowOk(id, n, result.value)
      ensures result.value == open.(state := if error.dispatchOccurred then Uncertain else Released, updatedAt := at)
      ensures ledger.records == AfterFailure(old(ledger.records), id, n, error, at)
      ensures ExactlyAttempts(ledger.records, id, rows + [result.value])
    {
      hide ExactlyAttempts;
      LastRow(ledger.records, id, rows, open);
      result := ledger.Move((id, n + 1), Dispatched, if error.dispatchOccurred then Uncertain else Released, at);
      Rewritten(old(ledger.records), ledger.records, id, rows, open, result.value);
    }

    /** Closes an attempt that was answered: settled at the reported cost, or uncertain without one. */
    method Close(id: Identifier, n: nat, cost: Option<real>, at: Utc, ghost rows: seq<Reservation>,
                 ghost open: Reservation)
      returns (result: Outcome<Reservation>)
      requires |rows| == n && ExactlyAttempts(ledger.records, id, rows + [open])
      requires RowOk(id, n, open) && open.state == Dispatched
      modifies ledger
      ensures result.Refused? <==> cost.Some? && (cost.value < 0.0 || cost.value > open.reserved)
      ensures result.Refused? ==> ledger.records == old(ledger.records)
      ensures result.Done? ==>
                && RowOk(id, n, result.value)
                && result.value == (if cost.Some? then open.(state := Settled, settled := cost, updatedAt := at)
                                    else open.(state := Uncertain, updatedAt := at))
                && ExactlyAttempts(ledger.records, id, rows + [result.value])
    {
      hide ExactlyAttempts;
      LastRow(ledger.records, id, rows, open);
      if cost.None? {
        result := ledger.Move((id, n + 1), Dispatched, Uncertain, at);
      } else {
        result := ledger.SettleAmount((id, n + 1), cost.value, at);
      }
      if result.Done? {
        Rewritten(old(ledger.records), ledger.records, id, rows, open, result.value);
      }
    }

    /** Concludes an answered attempt and reports on the invocation; None when settlement is refused and raises. */
    method Answer(id: Identifier, n: nat, a: Attempt, pricing: Pricing, rows: seq<Reservation>, open: Reservation,
                  ghost maxAttempts: int) returns (result: Option<Result>)
      requires |rows| == n < maxAttempts && a.reply.Response? && ValidPricing(pricing)
      requires ExactlyAttempts(ledger.records, id, rows + [open]) && RowsOk(id, rows) && AllFailed(rows)
      requires RowOk(id, n, open) && open.state == Dispatched
      modifies ledger
      ensures result.None? <==>
                && ReportedCost(a.reply.usage, pricing).Some?
                && ReportedCost(a.reply.usage, pricing).value > open.reserved
      ensures result.None? ==>
                ledger.records == old(ledger.records) && Overcharged(ledger.records, (id, n + 1), a, pricing)
      ensures result.Some? ==>
                && Conserved(ledger.records, id, result.value, maxAttempts)
                && result.value.telemetry.attempts == n + 1
                && result.value.failure == (if a.reply.outputValid then None else Some(InvalidModelOutput))
                && var cost := ReportedCost(a.reply.usage, pricing);
                   var last := if cost.Some? then open.(state := Settled, settled := cost, updatedAt := a.finishAt)
                               else open.(state := Uncertain, updatedAt := a.finishAt);
                   && result.value.telemetry.reservations == rows + [last]
                   && (result.value.telemetry.availability == Reported <==>
                         last.state == Settled && forall i :: 0 <= i < |rows| ==> rows[i].state == Released)
    {
      hide Conserved, ExactlyAttempts, Measure, ReportedCost, ValidPricing, AllFailed, RowsOk, RowOk;
      var cost := ReportedCost(a.reply.usage, pricing);
      ReportedNonNegative(a.reply.usage, pricing);
      var closed := Close(id, n, cost, a.finishAt, rows, open);
      if closed.Refused? {
        LastRow(ledger.records, id, rows, open);
        return None;
      }
      AnswerConserved(ledger.records, id, rows, closed.value, a.reply.usage, a.reply.outputValid, pricing, maxAttempts);
      AnswerSays(rows, closed.value, a.reply.usage, a.reply.outputValid, pricing);
      result := Some(AnswerResult(rows, closed.value, a.reply.usage, a.reply.outputValid, pricing));
    }

    /** Reports on an invocation none of whose attempts was answered. */
    method Finish(id: Identifier, rows: seq<Reservation>, error: Option<Category>, pricing: Pricing,
                  ghost maxAttempts: int)
      returns (result: Result)
      requires |rows| <= maxAttempts && error.Some? && RowsOk(id, rows) && AllFailed(rows)
      ensures result.failure == error && result.telemetry.attempts == |rows| && result.telemetry.reservations == rows
      ensures result.telemetry.availability == if rows == [] then Unavailable else Estimated
      ensures ExactlyAttempts(ledger.records, id, rows) ==> Conserved(ledger.records, id, result, maxAttempts)
    {
      hide Conserved, ExactlyAttempts, AllFailed, RowsOk;
      if ExactlyAttempts(ledger.records, id, rows) {
        FailureConserved(ledger.records, id, rows, error, pricing, maxAttempts);
      }
      FailureSays(rows, error, pricing);
      result := FailureResult(rows, error, pricing);
    }

    /**
     * One bounded invocation. `preflight` is a failure found before the first attempt; None as result means the
     * call raised instead of returning.
     */
    method Invoke(template: Request, policy: Policy, retry: RetryPolicy, policies: map<Identifier, Policy>,
                  preflight: Option<Category>, attempts: seq<Attempt>) returns (result: Option<Result>)
      requires ValidPricing(template.pricing)
      requires 1 <= retry.maxAttempts == |attempts|
      requires ForeignTraffic(attempts, template.invocationId)
      modifies this`dispatched, ledger
      ensures !HasAttempts(old(ledger.records), template.invocationId) && result.Some? ==>
                && Conserved(ledger.records, template.invocationId, result.value, retry.maxAttempts)
                && dispatched == old(dispatched) + Numbered(template.invocationId, result.value.telemetry.attempts)
                && Reports(result.value, ledger.records, template, policy, retry, preflight, attempts)
      // The call raises exactly when the ledger it meets grants its attempts up to one answered above its reservation,
      ensures result.None? <==>
                && preflight.None?
                && Raises(policies, old(ledger.records), template, policy, retry, attempts, 0)
      // which is then the last one sent; its row stays dispatched.
      ensures !HasAttempts(old(ledger.records), template.invocationId) ==>
                (result.None?
                 <==> LastSentAbove(old(dispatched), dispatched, template.invocationId, attempts, template))
      ensures result.None? ==>
                LastSentOpen(old(dispatched), dispatched, template.invocationId, attempts, ledger.records,
                             template.pricing)
      // A known identity: nothing is dispatched, its rows stay as they are, and the call reports a failure; the
      // ledger sees no more than the traffic before the refused reservation.
      ensures HasAttempts(old(ledger.records), template.invocationId) ==>
                && result.Some? && result.value.failure.Some? && result.value.telemetry.attempts == 0
                && dispatched == old(dispatched) && SameRows(old(ledger.records), ledger.records, template.invocationId)
                && (ledger.records == old(ledger.records)
                    || ledger.records == Traffic(policies, old(ledger.records), attempts[0].beforeReserve))
    {
      hide *;
      var id, pricing := template.invocationId, template.pricing;
      ghost var known := HasAttempts(ledger.records, id);
      SameRowsItself(ledger.records, id);
      if known {
        ForeignAt(attempts, id, 0);
        KnownNeverRaises(policies, ledger.records, template, policy, retry, attempts);
      }
      var rows: seq<Reservation> := [];
      NoRows(ledger.records, id);
      if preflight.Some? {
        var refused := Finish(id, rows, preflight, pricing, retry.maxAttempts);
        NothingAbove(old(dispatched), id, 0, attempts, template);
        ReportsFailure(refused, ledger.records, template, policy, retry, preflight, attempts, rows);
        return Some(refused);
      }
      var error: Option<Category> := None;
      var n := 0;
      NothingFailed(template, retry, attempts);
      while n < |attempts|
        invariant 0 <= n == |rows| <= |attempts| && (0 < n ==> error.Some?)
        invariant known ==> n == 0
        invariant !known ==> ExactlyAttempts(ledger.records, id, rows)
        invariant n == 0 ==> ledger.records == old(ledger.records)
        invariant RowsOk(id, rows) && AllFailed(rows)
        invariant dispatched == old(dispatched) + Numbered(id, n)
        invariant forall i :: 0 <= i < n ==> !attempts[i].reply.Response?
        invariant FailedInTurn(rows, template, retry, attempts)
        invariant 0 < n ==> n < |attempts| && Again(attempts[n - 1].reply, retry)
        invariant Raises(policies, old(ledger.records), template, policy, retry, attempts, 0)
                  <==> Raises(policies, ledger.records, template, policy, retry, attempts, n)
      {
        var a := attempts[n];
        RaisesFrom(policies, ledger.records, template, policy, retry, attempts, n);
        ForeignAt(attempts, id, n);
        ghost var between := ledger.records;
        Others(policies, a.beforeReserve, id);
        SameAttempts(between, ledger.records, id);
        if !known { Unaffected(between, ledger.records, id, rows); }
        StoppedAt(ledger.records, template, policy, retry, attempts, n);
        if a.expired {
          error := Some(ProviderTimeout);
          break;
        }
        var started := Start(template, policy, policies, a, rows, n);
        if started.Refused? {
          error := Some(CategoryOf(started.failure));
          break;
        }
        OneMore(old(dispatched), id, n);
        if a.reply.Response? {
          AboveReservation(a, template, started.value);
          ClosedTells(started.value, template, a) by { IsOpen(started.value, template, a); }
          result := Answer(id, n, a, pricing, rows, started.value, retry.maxAttempts);
          AnsweredLast(old(dispatched), id, n + 1, attempts, template, ledger.records);
          if result.Some? {
            ghost var last := result.value.telemetry.reservations[n];
            AnsweredBehind(rows, template, retry, attempts, last);
            ReportsAnswer(result.value, ledger.records, template, policy, retry, attempts, rows, last);
          }
          return;
        }
        var failed := ErrorOf(a.reply);
        error := Some(failed.category);
        var closed := Fail(id, n, failed, a.finishAt, rows, started.value);
        RowsExtended(id, rows, closed.value);
        ClosedTells(started.value, template, a) by { IsOpen(started.value, template, a); }
        FailedOneMore(rows, template, retry, attempts, closed.value);
        AgainIff(a.reply, retry);
        rows := rows + [closed.value];
        n := n + 1;
        StoppedAt(ledger.records, template, policy, retry, attempts, n);
        if !RetryAllowed(failed, retry) || n >= retry.maxAttempts {
          break;
        }
      }
      NoAttemptLeft(policies, ledger.records, template, policy, retry, attempts, n);
      NothingAbove(old(dispatched), id, n, attempts, template);
      var failed := Finish(id, rows, error, pricing, retry.maxAttempts);
      ReportsFailure(failed, ledger.records, template, policy, retry, preflight, attempts, rows);
      result := Some(failed);
    }

    /** The smallest call that raises: it leaves its row dispatched on a ledger that was empty. */
    static method RaisingCall() returns (router: RuntimeRouter, result: Option<Result>)
      ensures fresh(router) && result.None? && router.dispatched == [("call", 1)]
      ensures ("call", 1) in router.ledger.records && router.ledger.records[("call", 1)].state == Dispatched
    {
      hide *;
      var ledger := new InMemoryLedger();
      router := new RuntimeRouter(ledger);
      CallOfOne();
      LongAnswerRaises(map[]);
      result := router.Invoke(SMALL_REQUEST, ONE_CALL, ONE_ATTEMPT, map[], None, [LONG_ANSWER]);
      OneSent(router.dispatched, router.ledger.records);
    }
  }
}
