/**
 * The AI-cost ledger: conservative reservations under several simultaneous caps, the guard that fills it,
 * and its two implementations over one abstract ledger.
 */
module Budget {
  import opened Prelude

  type Identifier = string

  /** A UTC instant by its calendar fields; `micros` counts from midnight. */
  datatype Utc = Utc(year: int, month: int, day: int, micros: nat)

  predicate SameDate(a: Utc, b: Utc) { a.year == b.year && a.month == b.month && a.day == b.day }

  predicate SameMonth(a: Utc, b: Utc) { a.year == b.year && a.month == b.month }

  predicate Earlier(a: Utc, b: Utc) {
    a.year < b.year || (a.year == b.year &&
      (a.month < b.month || (a.month == b.month &&
        (a.day < b.day || (a.day == b.day && a.micros < b.micros)))))
  }

  /** Microseconds since the start of the calendar, counting every month as 31 days. */
  function Stamp(a: Utc): int { ((a.year * 12 + a.month) * 31 + a.day) * 86_400_000_000 + a.micros }

  predicate OnCalendar(a: Utc) { 1 <= a.month <= 12 && 1 <= a.day <= 31 && 0 <= a.micros < 86_400_000_000 }

  /** Calendar order is the order of those counts. */
  lemma EarlierIff(a: Utc, b: Utc)
    requires OnCalendar(a) && OnCalendar(b)
    ensures Earlier(a, b) <==> Stamp(a) < Stamp(b)
  {}

  datatype ReservationState = Reserved | Dispatched | Settled | Released | Uncertain

  datatype Reservation = Reservation(
    invocationId: Identifier,
    attempt: int,
    cycleId: Identifier,
    policyRef: Identifier,
    state: ReservationState,
    reserved: real,
    settled: Option<real>,
    createdAt: Utc,
    updatedAt: Utc)

  datatype Policy = Policy(
    policyRef: Identifier,
    currency: string,
    maximumCostPerCall: real,
    dailyBudget: real,
    monthlyBudget: real,
    maximumCallsPerCycle: int,
    maximumCallsPerDay: int,
    maximumInputTokens: int,
    maximumOutputTokens: int)

  predicate ValidPolicy(p: Policy) {
    0.0 <= p.dailyBudget && 0.0 <= p.monthlyBudget && 0 < p.maximumCallsPerCycle && 0 < p.maximumCallsPerDay
  }

  type Key = (Identifier, int)
  type Ledger = map<Key, Reservation>

  datatype Failure =
    | DuplicateInvocation | AttemptsNotConsecutive
    | CycleCallsExceeded | DayCallsExceeded | DailyBudgetExceeded | MonthlyBudgetExceeded
    | ReservationMissing | WrongState | AmountOutOfRange
    | PolicyMismatch | PricingMismatch | EstimateUnavailable | InputTokensExceeded | OutputTokensExceeded
    | CurrencyMismatch | PricingNotValid | CostPerCallExceeded

  datatype Outcome<+T> = Done(value: T) | Refused(failure: Failure)

  function KeyOf(r: Reservation): Key { (r.invocationId, r.attempt) }

  function Charge(r: Reservation): real {
    if r.state == Settled && r.settled.Some? then r.settled.value else r.reserved
  }

  /** The charges of a set of ledger rows; the order of addition does not matter, see `SumRemove`. */
  ghost function Sum(l: Ledger, keys: set<Key>): real
    requires keys <= l.Keys
  {
    if keys == {} then 0.0 else
      var k :| k in keys;
      Charge(l[k]) + Sum(l, keys - {k})
  }

  function Active(l: Ledger, policyRef: Identifier): set<Key> {
    set k | k in l && l[k].state != Released && l[k].policyRef == policyRef
  }

  function OnDay(l: Ledger, policyRef: Identifier, at: Utc): set<Key> {
    set k | k in Active(l, policyRef) && SameDate(l[k].createdAt, at)
  }

  function InMonth(l: Ledger, policyRef: Identifier, at: Utc): set<Key> {
    set k | k in Active(l, policyRef) && SameMonth(l[k].createdAt, at)
  }

  function InCycle(l: Ledger, policyRef: Identifier, cycleId: Identifier): set<Key> {
    set k | k in Active(l, policyRef) && l[k].cycleId == cycleId
  }

  predicate HasAttempts(l: Ledger, invocationId: Identifier) { exists k :: k in l && k.0 == invocationId }

  ghost function Reserve(l: Ledger, r: Reservation, p: Policy): Outcome<Ledger> {
    if KeyOf(r) in l || (r.attempt == 1 && HasAttempts(l, r.invocationId)) then Refused(DuplicateInvocation)
    else if r.attempt > 1 && (r.invocationId, r.attempt - 1) !in l then Refused(AttemptsNotConsecutive)
    else if |InCycle(l, p.policyRef, r.cycleId)| >= p.maximumCallsPerCycle then Refused(CycleCallsExceeded)
    else if |OnDay(l, p.policyRef, r.createdAt)| >= p.maximumCallsPerDay then Refused(DayCallsExceeded)
    else if Sum(l, OnDay(l, p.policyRef, r.createdAt)) + r.reserved > p.dailyBudget then Refused(DailyBudgetExceeded)
    else if Sum(l, InMonth(l, p.policyRef, r.createdAt)) + r.reserved > p.monthlyBudget
      then Refused(MonthlyBudgetExceeded)
    else Done(l[KeyOf(r) := r])
  }

  function Transition(l: Ledger, k: Key, expected: ReservationState, state: ReservationState,
                      at: Utc): Outcome<Ledger> {
    if k !in l then Refused(ReservationMissing)
    else if l[k].state != expected then Refused(WrongState)
    else Done(l[k := l[k].(state := state, updatedAt := at)])
  }

  function Settle(l: Ledger, k: Key, amount: real, at: Utc): Outcome<Ledger> {
    if k !in l then Refused(ReservationMissing)
    else if l[k].state != Dispatched then Refused(WrongState)
    else if amount < 0.0 || amount > l[k].reserved then Refused(AmountOutOfRange)
    else Done(l[k := l[k].(state := Settled, settled := Some(amount), updatedAt := at)])
  }

  // ----- the guard in front of the ledger -----

  datatype Runtime = Runtime(costPolicyRef: Identifier, pricingRef: Identifier, provider: Identifier, model: Identifier,
                             maxOutputTokens: nat)

  datatype Pricing = Pricing(profileRef: Identifier, provider: Identifier, model: Identifier, currency: string,
                             inputCostPerMillion: real, outputCostPerMillion: real,
                             validFrom: Utc, validUntil: Option<Utc>)

  predicate ValidPricing(p: Pricing) { 0.0 <= p.inputCostPerMillion && 0.0 <= p.outputCostPerMillion }

  function EstimateMaximumCost(inputTokens: nat, maximumOutputTokens: nat, pricing: Pricing): real {
    inputTokens as real * pricing.inputCostPerMillion / 1000000.0
    + maximumOutputTokens as real * pricing.outputCostPerMillion / 1000000.0
  }

  lemma CostNonNegative(inputTokens: nat, maximumOutputTokens: nat, pricing: Pricing)
    requires ValidPricing(pricing)
    ensures 0.0 <= EstimateMaximumCost(inputTokens, maximumOutputTokens, pricing)
  {
    MulLe(0.0, inputTokens as real, pricing.inputCostPerMillion);
    MulLe(0.0, maximumOutputTokens as real, pricing.outputCostPerMillion);
  }

  datatype Request = Request(invocationId: Identifier, cycleId: Identifier, runtime: Runtime,
                             estimate: Option<nat>, pricing: Pricing, at: Utc, attempt: int)

  /** The reservation a request asks for, or the preflight bound it breaks. */
  function Admit(q: Request, p: Policy): Outcome<Reservation> {
    if q.runtime.costPolicyRef != p.policyRef then Refused(PolicyMismatch)
    else if q.runtime.pricingRef != q.pricing.profileRef || q.runtime.provider != q.pricing.provider
            || q.runtime.model != q.pricing.model then Refused(PricingMismatch)
    else if q.estimate.None? then Refused(EstimateUnavailable)
    else if q.estimate.value > p.maximumInputTokens then Refused(InputTokensExceeded)
    else if q.runtime.maxOutputTokens > p.maximumOutputTokens then Refused(OutputTokensExceeded)
    else if q.pricing.currency != p.currency then Refused(CurrencyMismatch)
    else if Earlier(q.at, q.pricing.validFrom)
            || (q.pricing.validUntil.Some? && !Earlier(q.at, q.pricing.validUntil.value)) then Refused(PricingNotValid)
    else
      var estimated := EstimateMaximumCost(q.estimate.value, q.runtime.maxOutputTokens, q.pricing);
      if estimated > p.maximumCostPerCall then Refused(CostPerCallExceeded)
      else Done(Reservation(q.invocationId, q.attempt, q.cycleId, p.policyRef, Reserved, estimated, None, q.at, q.at))
  }

  ghost function GuardReserve(l: Ledger, q: Request, p: Policy): Outcome<Ledger> {
    var admitted := Admit(q, p);
    if admitted.Refused? then Refused(admitted.failure) else Reserve(l, admitted.value, p)
  }

  // ----- what a reservation asks for and what refuses it, in plain terms -----

  lemma CostPerMillion(inputTokens: nat, maximumOutputTokens: nat, pricing: Pricing)
    ensures EstimateMaximumCost(inputTokens, maximumOutputTokens, pricing) * 1000000.0
         == inputTokens as real * pricing.inputCostPerMillion
            + maximumOutputTokens as real * pricing.outputCostPerMillion
  {}

  /** What is wrong with a request when the guard refuses it for this reason. */
  predicate RequestFault(f: Failure, q: Request, p: Policy) {
    match f
    case PolicyMismatch => q.runtime.costPolicyRef != p.policyRef
    case PricingMismatch =>
      !(q.runtime.pricingRef == q.pricing.profileRef && q.runtime.provider == q.pricing.provider
        && q.runtime.model == q.pricing.model)
    case EstimateUnavailable => q.estimate.None?
    case InputTokensExceeded => q.estimate.Some? && p.maximumInputTokens < q.estimate.value
    case OutputTokensExceeded => p.maximumOutputTokens < q.runtime.maxOutputTokens
    case CurrencyMismatch => q.pricing.currency != p.currency
    case PricingNotValid =>
      || Earlier(q.at, q.pricing.validFrom)
      || (q.pricing.validUntil.Some? && !Earlier(q.at, q.pricing.validUntil.value))
    case CostPerCallExceeded =>
      && q.estimate.Some?
      && p.maximumCostPerCall * 1000000.0 < q.estimate.value as real * q.pricing.inputCostPerMillion
                                            + q.runtime.maxOutputTokens as real * q.pricing.outputCostPerMillion
    case _ => false
  }

  /** What the ledger already holds when it refuses a row for this reason. */
  ghost predicate LedgerFault(f: Failure, l: Ledger, r: Reservation, p: Policy) {
    var spent := set k | k in l && l[k].state != Released && l[k].policyRef == p.policyRef;
    var cycle := set k | k in spent && l[k].cycleId == r.cycleId;
    var month :=
      set k | k in spent && l[k].createdAt.year == r.createdAt.year && l[k].createdAt.month == r.createdAt.month;
    var day := set k | k in month && l[k].createdAt.day == r.createdAt.day;
    match f
    case DuplicateInvocation =>
      || (r.invocationId, r.attempt) in l
      || (r.attempt == 1 && exists k :: k in l && k.0 == r.invocationId)
    case AttemptsNotConsecutive => 1 < r.attempt && (r.invocationId, r.attempt - 1) !in l
    case CycleCallsExceeded => p.maximumCallsPerCycle <= |cycle|
    case DayCallsExceeded => p.maximumCallsPerDay <= |day|
    case DailyBudgetExceeded => p.dailyBudget < Sum(l, day) + r.reserved
    case MonthlyBudgetExceeded => p.monthlyBudget < Sum(l, month) + r.reserved
    case _ => false
  }

  /** A request is admitted exactly without a fault, at its full input and configured output price. */
  lemma AdmitIff(q: Request, p: Policy)
    ensures match Admit(q, p)
            case Refused(f) => RequestFault(f, q, p)
            case Done(r) =>
              && (forall f :: !RequestFault(f, q, p))
              && r == Reservation(q.invocationId, q.attempt, q.cycleId, q.runtime.costPolicyRef, Reserved, r.reserved,
                                  None, q.at, q.at)
              && r.reserved <= p.maximumCostPerCall
              && r.reserved * 1000000.0 == q.estimate.value as real * q.pricing.inputCostPerMillion
                                           + q.runtime.maxOutputTokens as real * q.pricing.outputCostPerMillion
  {
    if q.estimate.Some? { CostPerMillion(q.estimate.value, q.runtime.maxOutputTokens, q.pricing); }
    hide Earlier, EstimateMaximumCost;
  }

  /** The ledger takes a row exactly when nothing it holds stands against it; then it only adds that row. */
  lemma ReserveIff(l: Ledger, r: Reservation, p: Policy)
    ensures match Reserve(l, r, p)
            case Refused(f) => LedgerFault(f, l, r, p)
            case Done(l') => (forall f :: !LedgerFault(f, l, r, p)) && l' == l[(r.invocationId, r.attempt) := r]
  {
    var spent := set k | k in l && l[k].state != Released && l[k].policyRef == p.policyRef;
    var month :=
      set k | k in spent && l[k].createdAt.year == r.createdAt.year && l[k].createdAt.month == r.createdAt.month;
    assert InCycle(l, p.policyRef, r.cycleId) == set k | k in spent && l[k].cycleId == r.cycleId;
    assert InMonth(l, p.policyRef, r.createdAt) == month;
    assert OnDay(l, p.policyRef, r.createdAt) == set k | k in month && l[k].createdAt.day == r.createdAt.day;
    hide Sum, InCycle, InMonth, OnDay, Active;
  }

  /** A granted reservation: the row it adds, and what that row may cost. */
  lemma GrantedRow(l: Ledger, q: Request, p: Policy)
    requires GuardReserve(l, q, p).Done?
    ensures var l' := GuardReserve(l, q, p).value;
            && (q.invocationId, q.attempt) !in l && (q.invocationId, q.attempt) in l' && q.estimate.Some?
            && var r := l'[(q.invocationId, q.attempt)];
               && l' == l[(q.invocationId, q.attempt) := r]
               && r == Reservation(q.invocationId, q.attempt, q.cycleId, p.policyRef, Reserved, r.reserved, None, q.at,
                                   q.at)
               && r.reserved <= p.maximumCostPerCall
               && r.reserved * 1000000.0 == q.estimate.value as real * q.pricing.inputCostPerMillion
                                            + q.runtime.maxOutputTokens as real * q.pricing.outputCostPerMillion
  {
    AdmitIff(q, p);
    ReserveIff(l, Admit(q, p).value, p);
    hide Admit, Reserve, LedgerFault;
    assert !RequestFault(PolicyMismatch, q, p) && !RequestFault(EstimateUnavailable, q, p);
    NotDuplicate(l, Admit(q, p).value, p);
  }

  lemma NotDuplicate(l: Ledger, r: Reservation, p: Policy)
    requires Reserve(l, r, p).Done?
    ensures (r.invocationId, r.attempt) !in l
  {}

  /** How each operation moves a row: from which state, to which state, and what it leaves alone. */
  lemma RowMoves(policies: map<Identifier, Policy>, l: Ledger, k: Key, amount: real, at: Utc)
    ensures Becomes(policies, l, OpDispatch(k, at), k, Reserved, Dispatched, at)
    ensures Becomes(policies, l, OpRelease(k, at), k, Reserved, Released, at)
    ensures Becomes(policies, l, OpUncertain(k, at), k, Dispatched, Uncertain, at)
    ensures Becomes(policies, l, OpReleaseUndispatched(k, at), k, Dispatched, Released, at)
    ensures if k in l && l[k].state == Dispatched && 0.0 <= amount <= l[k].reserved
            then Apply(policies, l, OpSettle(k, amount, at))
                 == l[k := l[k].(state := Settled, settled := Some(amount), updatedAt := at)]
            else Apply(policies, l, OpSettle(k, amount, at)) == l
  {}

  ghost predicate Becomes(policies: map<Identifier, Policy>, l: Ledger, op: Op, k: Key, from: ReservationState,
                          to: ReservationState, at: Utc) {
    Apply(policies, l, op)
    == if k in l && l[k].state == from then l[k := l[k].(state := to, updatedAt := at)] else l
  }

  // ----- sums over sets of rows -----

  lemma {:induction false} SumRemove(l: Ledger, keys: set<Key>, k: Key)
    requires keys <= l.Keys && k in keys
    ensures Sum(l, keys) == Charge(l[k]) + Sum(l, keys - {k})
    decreases keys
  {
    var j :| j in keys && Sum(l, keys) == Charge(l[j]) + Sum(l, keys - {j});
    if j != k {
      SumRemove(l, keys - {j}, k);
      SumRemove(l, keys - {k}, j);
      assert keys - {j} - {k} == keys - {k} - {j};
    }
  }

  lemma {:induction false} SumAtMost(l: Ledger, l': Ledger, keys: set<Key>)
    requires keys <= l.Keys && keys <= l'.Keys
    requires forall k :: k in keys ==> Charge(l'[k]) <= Charge(l[k])
    ensures Sum(l', keys) <= Sum(l, keys)
    decreases keys
  {
    if keys != {} {
      var k :| k in keys;
      SumRemove(l, keys, k);
      SumRemove(l', keys, k);
      SumAtMost(l, l', keys - {k});
    }
  }

  lemma SumSame(l: Ledger, l': Ledger, keys: set<Key>)
    requires keys <= l.Keys && keys <= l'.Keys
    requires forall k :: k in keys ==> Charge(l'[k]) == Charge(l[k])
    ensures Sum(l', keys) == Sum(l, keys)
  {
    SumAtMost(l, l', keys);
    SumAtMost(l', l, keys);
  }

  lemma {:induction false} SumSubset(l: Ledger, some: set<Key>, all: set<Key>)
    requires some <= all <= l.Keys && forall k :: k in all ==> 0.0 <= Charge(l[k])
    ensures Sum(l, some) <= Sum(l, all)
    decreases all
  {
    if k :| k in all && k !in some {
      SumRemove(l, all, k);
      SumSubset(l, some, all - {k});
    } else {
      assert some == all;
    }
  }

  // ----- the caps -----

  /** Rows are filed under their own key and never charge a negative amount or more than they reserved. */
  predicate Sound(l: Ledger) {
    forall k :: k in l ==>
      && KeyOf(l[k]) == k
      && 0.0 <= Charge(l[k]) <= l[k].reserved
      && (l[k].settled.Some? ==> l[k].state == Settled)
  }

  ghost predicate WithinCaps(l: Ledger, p: Policy) {
    && (forall at: Utc :: |OnDay(l, p.policyRef, at)| <= p.maximumCallsPerDay)
    && (forall at: Utc :: Sum(l, OnDay(l, p.policyRef, at)) <= p.dailyBudget)
    && (forall at: Utc :: Sum(l, InMonth(l, p.policyRef, at)) <= p.monthlyBudget)
    && (forall cycleId: Identifier :: |InCycle(l, p.policyRef, cycleId)| <= p.maximumCallsPerCycle)
  }

  /** Rewriting one row so that it charges no more, or is released, keeps every cap. */
  lemma CheaperRowKeepsCaps(l: Ledger, k: Key, r: Reservation, p: Policy)
    requires Sound(l) && WithinCaps(l, p) && k in l
    requires r.policyRef == l[k].policyRef && r.cycleId == l[k].cycleId && r.createdAt == l[k].createdAt
    requires l[k].state != Released && Charge(r) <= Charge(l[k])
    ensures WithinCaps(l[k := r], p)
  {
    var l' := l[k := r];
    forall at: Utc
      ensures |OnDay(l', p.policyRef, at)| <= p.maximumCallsPerDay
              && Sum(l', OnDay(l', p.policyRef, at)) <= p.dailyBudget
      ensures Sum(l', InMonth(l', p.policyRef, at)) <= p.monthlyBudget
    {
      FewerRows(l, l', OnDay(l', p.policyRef, at), OnDay(l, p.policyRef, at));
      FewerRows(l, l', InMonth(l', p.policyRef, at), InMonth(l, p.policyRef, at));
    }
    forall cycleId: Identifier ensures |InCycle(l', p.policyRef, cycleId)| <= p.maximumCallsPerCycle {
      FewerRows(l, l', InCycle(l', p.policyRef, cycleId), InCycle(l, p.policyRef, cycleId));
    }
  }

  lemma FewerRows(l: Ledger, l': Ledger, some: set<Key>, all: set<Key>)
    requires Sound(l) && l'.Keys == l.Keys && some <= all <= l.Keys
    requires forall k :: k in all ==> Charge(l'[k]) <= Charge(l[k])
    ensures |some| <= |all| && Sum(l', some) <= Sum(l, all)
  {
    SubsetSize(some, all);
    SumAtMost(l, l', some);
    SumSubset(l, some, all);
  }

  lemma {:induction false} SubsetSize<T>(some: set<T>, all: set<T>)
    requires some <= all
    ensures |some| <= |all|
  {
    if x :| x in some {
      SubsetSize(some - {x}, all - {x});
    }
  }

  lemma ReserveKeepsCaps(l: Ledger, r: Reservation, p: Policy, q: Policy)
    requires Sound(l) && WithinCaps(l, q) && Reserve(l, r, p).Done?
    requires r.policyRef == p.policyRef && (p.policyRef == q.policyRef ==> p == q)
    requires r.state == Reserved && r.settled.None? && 0.0 <= r.reserved
    ensures Sound(Reserve(l, r, p).value) && WithinCaps(Reserve(l, r, p).value, q)
  {
    forall at: Utc
      ensures |OnDay(Reserve(l, r, p).value, q.policyRef, at)| <= q.maximumCallsPerDay
      ensures Sum(Reserve(l, r, p).value, OnDay(Reserve(l, r, p).value, q.policyRef, at)) <= q.dailyBudget
      ensures Sum(Reserve(l, r, p).value, InMonth(Reserve(l, r, p).value, q.policyRef, at)) <= q.monthlyBudget
    {
      ReserveKeepsDay(l, r, p, q, at);
      ReserveKeepsMonth(l, r, p, q, at);
    }
    forall cycleId: Identifier
      ensures |InCycle(Reserve(l, r, p).value, q.policyRef, cycleId)| <= q.maximumCallsPerCycle
    {
      ReserveKeepsCycle(l, r, p, q, cycleId);
    }
  }

  /** One day, one month and one cycle of the caps. */
  lemma CapsAt(l: Ledger, p: Policy, at: Utc, cycleId: Identifier)
    requires WithinCaps(l, p)
    ensures |OnDay(l, p.policyRef, at)| <= p.maximumCallsPerDay && Sum(l, OnDay(l, p.policyRef, at)) <= p.dailyBudget
    ensures Sum(l, InMonth(l, p.policyRef, at)) <= p.monthlyBudget
    ensures |InCycle(l, p.policyRef, cycleId)| <= p.maximumCallsPerCycle
  {}

  /** A new row joins exactly the day, the month and the cycle it belongs to. */
  lemma RowJoins(l: Ledger, r: Reservation, policyRef: Identifier, at: Utc, cycleId: Identifier)
    requires KeyOf(r) !in l && r.state == Reserved
    ensures OnDay(l, policyRef, at) <= l.Keys && InMonth(l, policyRef, at) <= l.Keys
            && InCycle(l, policyRef, cycleId) <= l.Keys
    ensures var l' := l[KeyOf(r) := r];
            && OnDay(l', policyRef, at)
               == (if r.policyRef == policyRef && SameDate(r.createdAt, at)
                   then OnDay(l, policyRef, at) + {KeyOf(r)} else OnDay(l, policyRef, at))
            && InMonth(l', policyRef, at)
               == (if r.policyRef == policyRef && SameMonth(r.createdAt, at)
                   then InMonth(l, policyRef, at) + {KeyOf(r)} else InMonth(l, policyRef, at))
            && InCycle(l', policyRef, cycleId)
               == (if r.policyRef == policyRef && r.cycleId == cycleId
                   then InCycle(l, policyRef, cycleId) + {KeyOf(r)} else InCycle(l, policyRef, cycleId))
  {}

  lemma SameDateSameRows(l: Ledger, policyRef: Identifier, a: Utc, b: Utc)
    ensures SameDate(a, b) ==> OnDay(l, policyRef, a) == OnDay(l, policyRef, b)
    ensures SameMonth(a, b) ==> InMonth(l, policyRef, a) == InMonth(l, policyRef, b)
  {}

  lemma ReserveKeepsDay(l: Ledger, r: Reservation, p: Policy, q: Policy, at: Utc)
    requires WithinCaps(l, q) && Reserve(l, r, p).Done?
    requires r.policyRef == p.policyRef && (p.policyRef == q.policyRef ==> p == q) && r.state == Reserved
    ensures var l' := Reserve(l, r, p).value;
            |OnDay(l', q.policyRef, at)| <= q.maximumCallsPerDay && Sum(l', OnDay(l', q.policyRef, at)) <= q.dailyBudget
  {
    hide WithinCaps, OnDay, InMonth, InCycle, HasAttempts, Sum;
    CapsAt(l, q, at, r.cycleId);
    RowJoins(l, r, q.policyRef, at, r.cycleId);
    SameDateSameRows(l, q.policyRef, r.createdAt, at);
    RowAdded(l, r, OnDay(l, q.policyRef, at), OnDay(l[KeyOf(r) := r], q.policyRef, at),
             r.policyRef == q.policyRef && SameDate(r.createdAt, at));
  }

  lemma ReserveKeepsMonth(l: Ledger, r: Reservation, p: Policy, q: Policy, at: Utc)
    requires WithinCaps(l, q) && Reserve(l, r, p).Done?
    requires r.policyRef == p.policyRef && (p.policyRef == q.policyRef ==> p == q) && r.state == Reserved
    ensures var l' := Reserve(l, r, p).value; Sum(l', InMonth(l', q.policyRef, at)) <= q.monthlyBudget
  {
    hide WithinCaps, OnDay, InMonth, InCycle, HasAttempts, Sum;
    CapsAt(l, q, at, r.cycleId);
    RowJoins(l, r, q.policyRef, at, r.cycleId);
    SameDateSameRows(l, q.policyRef, r.createdAt, at);
    RowAdded(l, r, InMonth(l, q.policyRef, at), InMonth(l[KeyOf(r) := r], q.policyRef, at),
             r.policyRef == q.policyRef && SameMonth(r.createdAt, at));
  }

  lemma ReserveKeepsCycle(l: Ledger, r: Reservation, p: Policy, q: Policy, cycleId: Identifier)
    requires WithinCaps(l, q) && Reserve(l, r, p).Done?
    requires r.policyRef == p.policyRef && (p.policyRef == q.policyRef ==> p == q) && r.state == Reserved
    ensures |InCycle(Reserve(l, r, p).value, q.policyRef, cycleId)| <= q.maximumCallsPerCycle
  {
    hide WithinCaps, OnDay, InMonth, InCycle, HasAttempts, Sum;
    CapsAt(l, q, r.createdAt, cycleId);
    RowJoins(l, r, q.policyRef, r.createdAt, cycleId);
    RowAdded(l, r, InCycle(l, q.policyRef, cycleId), InCycle(l[KeyOf(r) := r], q.policyRef, cycleId),
             r.policyRef == q.policyRef && r.cycleId == cycleId);
  }

  lemma RowAdded(l: Ledger, r: Reservation, before: set<Key>, after: set<Key>, counted: bool)
    requires KeyOf(r) !in l && before <= l.Keys && r.state == Reserved
    requires after == if counted then before + {KeyOf(r)} else before
    ensures |after| == |before| + if counted then 1 else 0
    ensures Sum(l[KeyOf(r) := r], after) == Sum(l, before) + if counted then r.reserved else 0.0
  {
    var l' := l[KeyOf(r) := r];
    SumSame(l, l', before);
    if counted {
      SumRemove(l', after, KeyOf(r));
      assert after - {KeyOf(r)} == before;
    }
  }

  // ----- every run of the ledger -----

  datatype Op =
    | OpReserve(request: Request)
    | OpDispatch(key: Key, at: Utc)
    | OpSettle(key: Key, amount: real, at: Utc)
    | OpRelease(key: Key, at: Utc)
    | OpUncertain(key: Key, at: Utc)
    | OpReleaseUndispatched(key: Key, at: Utc)

  ghost function Perform(policies: map<Identifier, Policy>, l: Ledger, op: Op): Outcome<Ledger> {
    match op
    case OpReserve(q) =>
      if q.runtime.costPolicyRef in policies then GuardReserve(l, q, policies[q.runtime.costPolicyRef])
      else Refused(PolicyMismatch)
    case OpDispatch(k, at) => Transition(l, k, Reserved, Dispatched, at)
    case OpSettle(k, amount, at) => Settle(l, k, amount, at)
    case OpRelease(k, at) => Transition(l, k, Reserved, Released, at)
    case OpUncertain(k, at) => Transition(l, k, Dispatched, Uncertain, at)
    case OpReleaseUndispatched(k, at) => Transition(l, k, Dispatched, Released, at)
  }

  /** A refused operation leaves the ledger as it was. */
  ghost function Apply(policies: map<Identifier, Policy>, l: Ledger, op: Op): Ledger {
    var outcome := Perform(policies, l, op);
    if outcome.Done? then outcome.value else l
  }

  ghost function Run(policies: map<Identifier, Policy>, ops: seq<Op>): Ledger {
    if ops == [] then map[] else Apply(policies, Run(policies, ops[..|ops| - 1]), ops[|ops| - 1])
  }

  /** One fixed, valid policy per reference. */
  predicate PoliciesOk(policies: map<Identifier, Policy>) {
    forall ref :: ref in policies ==> policies[ref].policyRef == ref && ValidPolicy(policies[ref])
  }

  predicate OpOk(op: Op) { op.OpReserve? ==> ValidPricing(op.request.pricing) }

  lemma ApplyKeepsCaps(policies: map<Identifier, Policy>, l: Ledger, op: Op, ref: Identifier)
    requires PoliciesOk(policies) && OpOk(op) && ref in policies && Sound(l) && WithinCaps(l, policies[ref])
    ensures Sound(Apply(policies, l, op)) && WithinCaps(Apply(policies, l, op), policies[ref])
  {
    hide WithinCaps;
    if Perform(policies, l, op).Done? {
      match op
      case OpReserve(q) =>
        var p := policies[q.runtime.costPolicyRef];
        CostNonNegative(q.estimate.value, q.runtime.maxOutputTokens, q.pricing);
        ReserveKeepsCaps(l, Admit(q, p).value, p, policies[ref]);
      case _ =>
        var k, l' := op.key, Perform(policies, l, op).value;
        assert l' == l[k := l'[k]];
        CheaperRowKeepsCaps(l, k, l'[k], policies[ref]);
    }
  }

  /** Through any interleaving of ledger operations, every cap of every policy holds in every reachable ledger. */
  lemma {:induction false} CapsAlwaysHold(policies: map<Identifier, Policy>, ops: seq<Op>, ref: Identifier)
    requires PoliciesOk(policies) && ref in policies && forall i :: 0 <= i < |ops| ==> OpOk(ops[i])
    ensures Sound(Run(policies, ops)) && WithinCaps(Run(policies, ops), policies[ref])
  {
    if ops == [] {
      EmptyWithinCaps(policies[ref]);
    } else {
      var n := |ops| - 1;
      CapsAlwaysHold(policies, ops[..n], ref);
      ApplyKeepsCaps(policies, Run(policies, ops[..n]), ops[n], ref);
    }
  }

  /**
   * The caps in plain terms: of the rows of one policy that are not released, those of one day, one month or one
   * cycle never exceed its calls or its budgets, a settled row counting at its settled amount and any other at what
   * it reserved.
   */
  lemma SpendingBounded(policies: map<Identifier, Policy>, ops: seq<Op>, ref: Identifier, keys: set<Key>)
    requires PoliciesOk(policies) && ref in policies && forall i :: 0 <= i < |ops| ==> OpOk(ops[i])
    requires keys <= Run(policies, ops).Keys && keys != {}
    requires forall k :: k in keys ==>
               Run(policies, ops)[k].state != Released && Run(policies, ops)[k].policyRef == ref
    ensures var l, p := Run(policies, ops), policies[ref];
            && ((forall j, k :: j in keys && k in keys ==>
                   && l[j].createdAt.year == l[k].createdAt.year && l[j].createdAt.month == l[k].createdAt.month
                   && l[j].createdAt.day == l[k].createdAt.day)
                ==> |keys| <= p.maximumCallsPerDay && Sum(l, keys) <= p.dailyBudget)
            && ((forall j, k :: j in keys && k in keys ==>
                   l[j].createdAt.year == l[k].createdAt.year && l[j].createdAt.month == l[k].createdAt.month)
                ==> Sum(l, keys) <= p.monthlyBudget)
            && ((forall j, k :: j in keys && k in keys ==> l[j].cycleId == l[k].cycleId)
                ==> |keys| <= p.maximumCallsPerCycle)
    ensures forall k :: k in keys ==>
              var r := Run(policies, ops)[k];
              Sum(Run(policies, ops), {k})
              == if r.state == Settled && r.settled.Some? then r.settled.value else r.reserved
  {
    CapsAlwaysHold(policies, ops, ref);
    var l := Run(policies, ops);
    hide Run, WithinCaps, Sum, Sound, OnDay, InMonth, InCycle;
    RowsWithinCaps(l, policies[ref], keys);
    forall k | k in keys
      ensures Sum(l, {k}) == if l[k].state == Settled && l[k].settled.Some? then l[k].settled.value else l[k].reserved
    {
      SumOfOne(l, k);
    }
  }

  lemma SumOfOne(l: Ledger, k: Key)
    requires k in l
    ensures Sum(l, {k}) == if l[k].state == Settled && l[k].settled.Some? then l[k].settled.value else l[k].reserved
  {
    SumRemove(l, {k}, k);
    assert {k} - {k} == {};
  }

  lemma RowsWithinCaps(l: Ledger, p: Policy, keys: set<Key>)
    requires Sound(l) && WithinCaps(l, p) && keys <= l.Keys && keys != {}
    requires forall k :: k in keys ==> l[k].state != Released && l[k].policyRef == p.policyRef
    ensures (forall j, k :: j in keys && k in keys ==>
               && l[j].createdAt.year == l[k].createdAt.year && l[j].createdAt.month == l[k].createdAt.month
               && l[j].createdAt.day == l[k].createdAt.day)
            ==> |keys| <= p.maximumCallsPerDay && Sum(l, keys) <= p.dailyBudget
    ensures (forall j, k :: j in keys && k in keys ==>
               l[j].createdAt.year == l[k].createdAt.year && l[j].createdAt.month == l[k].createdAt.month)
            ==> Sum(l, keys) <= p.monthlyBudget
    ensures (forall j, k :: j in keys && k in keys ==> l[j].cycleId == l[k].cycleId)
            ==> |keys| <= p.maximumCallsPerCycle
  {
    hide WithinCaps, Sum, Sound;
    var j :| j in keys;
    CapsAt(l, p, l[j].createdAt, l[j].cycleId);
    var day, month, cycle :=
      OnDay(l, p.policyRef, l[j].createdAt), InMonth(l, p.policyRef, l[j].createdAt),
      InCycle(l, p.policyRef, l[j].cycleId);
    if keys <= day { FewerRows(l, l, keys, day); }
    if keys <= month { FewerRows(l, l, keys, month); }
    if keys <= cycle { FewerRows(l, l, keys, cycle); }
  }

  lemma EmptyWithinCaps(p: Policy)
    requires ValidPolicy(p)
    ensures WithinCaps(map[], p)
  {
    forall at: Utc ensures OnDay(map[], p.policyRef, at) == {} && InMonth(map[], p.policyRef, at) == {} {}
    forall cycleId: Identifier ensures InCycle(map[], p.policyRef, cycleId) == {} {}
  }

  /** Rows are never removed, and a spent or released row never changes again. */
  lemma {:induction false} RowsOnlyAdvance(policies: map<Identifier, Policy>, l: Ledger, op: Op, k: Key)
    requires k in l
    ensures k in Apply(policies, l, op)
    ensures l[k].state in {Settled, Released, Uncertain} ==> Apply(policies, l, op)[k] == l[k]
    ensures l[k].state == Dispatched ==> Apply(policies, l, op)[k].state != Reserved
  {}

  // ----- the two implementations -----

  class InMemoryLedger {
    var records: map<Key, Reservation>

    constructor ()
      ensures records == map[]
    {
      records := map[];
    }

    /** Adds up rows one at a time, in whatever order they come. */
    method Total(keys: set<Key>) returns (total: real)
      requires keys <= records.Keys
      ensures total == Sum(records, keys)
    {
      total := 0.0;
      var rest := keys;
      while rest != {}
        invariant rest <= keys
        invariant total + Sum(records, rest) == Sum(records, keys)
        decreases rest
      {
        var k :| k in rest;
        SumRemove(records, rest, k);
        total := total + Charge(records[k]);
        rest := rest - {k};
      }
    }

    method ReserveIfWithin(r: Reservation, p: Policy) returns (result: Outcome<Reservation>)
      modifies this
      ensures match Reserve(old(records), r, p)
              case Done(l) => records == l && result == Done(r)
              case Refused(failure) => records == old(records) && result == Refused(failure)
    {
      var key := KeyOf(r);
      var existing := set k | k in records && k.0 == r.invocationId :: k.1;
      assert existing != {} <==> HasAttempts(records, r.invocationId) by {
        if k :| k in records && k.0 == r.invocationId { assert k.1 in existing; }
        if a :| a in existing {}
      }
      assert r.attempt - 1 in existing <==> (r.invocationId, r.attempt - 1) in records;
      if key in records || (r.attempt == 1 && existing != {}) {
        return Refused(DuplicateInvocation);
      }
      if r.attempt > 1 && r.attempt - 1 !in existing {
        return Refused(AttemptsNotConsecutive);
      }
      var sameCycle := InCycle(records, p.policyRef, r.cycleId);
      var sameDay := OnDay(records, p.policyRef, r.createdAt);
      var sameMonth := InMonth(records, p.policyRef, r.createdAt);
      if |sameCycle| >= p.maximumCallsPerCycle {
        return Refused(CycleCallsExceeded);
      }
      if |sameDay| >= p.maximumCallsPerDay {
        return Refused(DayCallsExceeded);
      }
      var dayTotal := Total(sameDay);
      if dayTotal + r.reserved > p.dailyBudget {
        return Refused(DailyBudgetExceeded);
      }
      var monthTotal := Total(sameMonth);
      if monthTotal + r.reserved > p.monthlyBudget {
        return Refused(MonthlyBudgetExceeded);
      }
      records := records[key := r];
      result := Done(r);
    }

    method Move(k: Key, expected: ReservationState, state: ReservationState, at: Utc)
      returns (result: Outcome<Reservation>)
      modifies this
      ensures match Transition(old(records), k, expected, state, at)
              case Done(l) => records == l && result == Done(l[k])
              case Refused(failure) => records == old(records) && result == Refused(failure)
    {
      if k !in records {
        return Refused(ReservationMissing);
      }
      var current := records[k];
      if current.state != expected {
        return Refused(WrongState);
      }
      var updated := current.(state := state, updatedAt := at);
      records := records[k := updated];
      result := Done(updated);
    }

    method SettleAmount(k: Key, amount: real, at: Utc) returns (result: Outcome<Reservation>)
      modifies this
      ensures match Settle(old(records), k, amount, at)
              case Done(l) => records == l && result == Done(l[k])
              case Refused(failure) => records == old(records) && result == Refused(failure)
    {
      if k !in records {
        return Refused(ReservationMissing);
      }
      var current := records[k];
      if current.state != Dispatched {
        return Refused(WrongState);
      }
      if amount < 0.0 || amount > current.reserved {
        return Refused(AmountOutOfRange);
      }
      var updated := current.(state := Settled, settled := Some(amount), updatedAt := at);
      records := records[k := updated];
      result := Done(updated);
    }
  }

  /** The rows of a query result, each once, in no particular order. */
  ghost predicate Lists(rows: seq<Reservation>, l: Ledger, keys: set<Key>) {
    && keys <= l.Keys
    && (forall i, j :: 0 <= i < j < |rows| ==> KeyOf(rows[i]) != KeyOf(rows[j]))
    && (forall i :: 0 <= i < |rows| ==> KeyOf(rows[i]) in keys && rows[i] == l[KeyOf(rows[i])])
    && |rows| == |keys|
  }

  lemma ListsOneMore(rows: seq<Reservation>, l: Ledger, keys: set<Key>, k: Key)
    requires Lists(rows, l, keys) && k in l && k !in keys && KeyOf(l[k]) == k
    ensures Lists(rows + [l[k]], l, keys + {k})
  {}

  lemma ListsNothing(l: Ledger, keys: set<Key>)
    requires keys == {}
    ensures Lists([], l, keys)
  {}

  lemma SoundKey(l: Ledger, k: Key)
    requires Sound(l) && k in l
    ensures KeyOf(l[k]) == k
  {}

  function RowTotal(rows: seq<Reservation>): real {
    if rows == [] then 0.0 else RowTotal(rows[..|rows| - 1]) + Charge(rows[|rows| - 1])
  }

  /** Totals and counts over query results agree with the abstract ledger whatever order the rows came in. */
  lemma {:induction false} ListedTotal(rows: seq<Reservation>, l: Ledger, keys: set<Key>)
    requires Lists(rows, l, keys)
    ensures RowTotal(rows) == Sum(l, keys)
  {
    if rows != [] {
      var n := |rows| - 1;
      var k := KeyOf(rows[n]);
      SumRemove(l, keys, k);
      ListedTotal(rows[..n], l, keys - {k});
    }
  }

  class SQLiteLedger {
    var table: map<Key, Reservation>

    constructor ()
      ensures table == map[]
    {
      table := map[];
    }

    /** One SELECT: the chosen rows, in an order the database picks. */
    method Select(keys: set<Key>) returns (rows: seq<Reservation>)
      requires keys <= table.Keys && Sound(table)
      ensures Lists(rows, table, keys)
    {
      rows := [];
      var rest := keys;
      ListsNothing(table, keys - rest);
      hide Lists, Sound;
      while rest != {}
        invariant rest <= keys
        invariant Lists(rows, table, keys - rest)
        decreases rest
      {
        var k :| k in rest;
        SoundKey(table, k);
        ListsOneMore(rows, table, keys - rest, k);
        rows := rows + [table[k]];
        assert keys - (rest - {k}) == keys - rest + {k};
        rest := rest - {k};
      }
      assert keys - rest == keys;
    }

    method Total(rows: seq<Reservation>) returns (total: real)
      ensures total == RowTotal(rows)
    {
      total := 0.0;
      for i := 0 to |rows|
        invariant total == RowTotal(rows[..i])
      {
        assert rows[..i + 1][..i] == rows[..i];
        total := total + Charge(rows[i]);
      }
      assert rows[..|rows|] == rows;
    }

    /** One transaction; every refusal rolls back. The row is written without a settled amount. */
    method ReserveIfWithin(r: Reservation, p: Policy) returns (result: Outcome<Reservation>)
      requires Sound(table)
      requires r.settled.None?
      modifies this
      ensures match Reserve(old(table), r, p)
              case Done(l) => table == l && result == Done(r)
              case Refused(failure) => table == old(table) && result == Refused(failure)
    {
      var duplicates := set k | k in table && k.0 == r.invocationId;
      assert duplicates != {} <==> HasAttempts(table, r.invocationId) by {
        if k :| k in table && k.0 == r.invocationId { assert k in duplicates; }
      }
      if KeyOf(r) in table || (r.attempt == 1 && duplicates != {}) {
        return Refused(DuplicateInvocation);
      }
      if r.attempt > 1 {
        if (r.invocationId, r.attempt - 1) !in table {
          return Refused(AttemptsNotConsecutive);
        }
      }
      var sameCycle := Select(InCycle(table, p.policyRef, r.cycleId));
      var sameDay := Select(OnDay(table, p.policyRef, r.createdAt));
      var sameMonth := Select(InMonth(table, p.policyRef, r.createdAt));
      if |sameCycle| >= p.maximumCallsPerCycle {
        return Refused(CycleCallsExceeded);
      }
      if |sameDay| >= p.maximumCallsPerDay {
        return Refused(DayCallsExceeded);
      }
      ListedTotal(sameDay, table, OnDay(table, p.policyRef, r.createdAt));
      ListedTotal(sameMonth, table, InMonth(table, p.policyRef, r.createdAt));
      var dayTotal := Total(sameDay);
      if dayTotal + r.reserved > p.dailyBudget {
        return Refused(DailyBudgetExceeded);
      }
      var monthTotal := Total(sameMonth);
      if monthTotal + r.reserved > p.monthlyBudget {
        return Refused(MonthlyBudgetExceeded);
      }
      table := table[KeyOf(r) := r.(settled := None)];
      result := Done(r);
    }

    /** Updates the state columns of one row and reads the row back. */
    method Move(k: Key, expected: ReservationState, target: ReservationState, at: Utc)
      returns (result: Outcome<Reservation>)
      modifies this
      ensures match Transition(old(table), k, expected, target, at)
              case Done(l) => table == l && result == Done(l[k])
              case Refused(failure) => table == old(table) && result == Refused(failure)
    {
      if k !in table {
        return Refused(ReservationMissing);
      }
      if table[k].state != expected {
        return Refused(WrongState);
      }
      table := table[k := table[k].(state := target, updatedAt := at)];
      result := Done(table[k]);
    }

    method SettleAmount(k: Key, amount: real, at: Utc) returns (result: Outcome<Reservation>)
      modifies this
      ensures match Settle(old(table), k, amount, at)
              case Done(l) => table == l && result == Done(l[k])
              case Refused(failure) => table == old(table) && result == Refused(failure)
    {
      if k !in table {
        return Refused(ReservationMissing);
      }
      if table[k].state != Dispatched {
        return Refused(WrongState);
      }
      if amount < 0.0 || amount > table[k].reserved {
        return Refused(AmountOutOfRange);
      }
      table := table[k := table[k].(state := Settled, settled := Some(amount), updatedAt := at)];
      result := Done(table[k]);
    }
  }
}
