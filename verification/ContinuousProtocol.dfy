/**
 * The continuously polled shadow runtime over its durable claim store. Poll coroutines advance one storage or
 * dispatch operation at a time; starts, further polls, shutdowns and process restarts interleave freely.
 */
module ContinuousProtocol {
  import opened Prelude
  import opened RiskTypes

  datatype RuntimeState = Stopped | Starting | Ready | Polling | Processing | Stopping | Faulted

  datatype ClaimState = Discovered | Claimed | InProcess | Completed | Failed | Missed | Abandoned

  predicate Terminal(s: ClaimState) { s in {Completed, Failed, Missed, Abandoned} }

  datatype Claim = Claim(digest: Identifier, state: ClaimState)

  /** A completed decision candle as one poll discovers it. */
  datatype Candle = Candle(key: Identifier, digest: Identifier, timely: bool)

  /** The next operation of a running poll. */
  datatype Pc =
    | Missing(missed: seq<Candle>, candidate: Option<Candle>)  // discover the next missed candle
    | Marking(missed: seq<Candle>, candidate: Option<Candle>)  // mark it missed
    | Discovering(candle: Candle)
    | Claiming(key: Identifier)
    | Preparing(key: Identifier)                               // snapshot, risk, features, eligibility
    | Dispatching(key: Identifier)                             // run the shadow cycle
    | Awaiting(key: Identifier)
    | Recording(key: Identifier, result: ClaimState)           // append the decision record
    | Closing(key: Identifier, result: ClaimState)             // mark the claim terminal
    | Ending                                                   // the poll's finally block

  datatype Poll = Poll(pc: Pc, sent: seq<Identifier>)

  datatype State = State(
    runtime: RuntimeState,
    processing: bool,
    shutdownRequested: bool,
    polls: map<nat, Poll>,
    claims: map<Identifier, Claim>,
    decisions: set<Identifier>,
    dispatched: seq<Identifier>)

  const Initial := State(Stopped, false, false, map[], map[], {}, [])

  /** How the preparation of a claimed candle ends. */
  datatype Choice = GoOn | Hold | Fail

  datatype Action =
    | Start(eligible: bool, recovered: bool, some: set<Identifier>)
    | Begin(pid: nat, candles: seq<Candle>)
    | Advance(pid: nat, ok: bool, choice: Choice)
    | Shutdown
    | Restart

  // ----- the claim store -----

  function Discover(claims: map<Identifier, Claim>, c: Candle): Option<map<Identifier, Claim>> {
    if c.key in claims then (if claims[c.key].digest == c.digest then Some(claims) else None)
    else Some(claims[c.key := Claim(c.digest, Discovered)])
  }

  function Move(claims: map<Identifier, Claim>, key: Identifier, expected: ClaimState, target: ClaimState)
    : Option<map<Identifier, Claim>>
  {
    if key in claims && claims[key].state == expected then Some(claims[key := claims[key].(state := target)]) else None
  }

  function MarkTerminal(claims: map<Identifier, Claim>, key: Identifier,
                        target: ClaimState): Option<map<Identifier, Claim>> {
    if key in claims && !Terminal(claims[key].state) then Some(claims[key := claims[key].(state := target)]) else None
  }

  predicate Unfinished(s: ClaimState) { s == Claimed || s == InProcess }

  /** Recovery abandons the unfinished claims among the given keys. */
  function Abandon(claims: map<Identifier, Claim>, keys: set<Identifier>): map<Identifier, Claim> {
    map k | k in claims ::
      if k in keys && Unfinished(claims[k].state) then claims[k].(state := Abandoned) else claims[k]
  }

  // ----- one poll -----

  function Unclaimed(claims: map<Identifier, Claim>, candles: seq<Candle>): seq<Candle> {
    if candles == [] then []
    else (if candles[0].key in claims then [] else [candles[0]]) + Unclaimed(claims, candles[1..])
  }

  function Timely(candles: seq<Candle>): seq<Candle> {
    if candles == [] then [] else (if candles[0].timely then [candles[0]] else []) + Timely(candles[1..])
  }

  function Late(candles: seq<Candle>): seq<Candle> {
    if candles == [] then [] else (if candles[0].timely then [] else [candles[0]]) + Late(candles[1..])
  }

  /** Late candles and all timely ones but the newest are missed; only the newest timely candle is processed. */
  function Plan(claims: map<Identifier, Claim>, candles: seq<Candle>): Pc {
    var eligible := Unclaimed(claims, candles);
    var timely := Timely(eligible);
    if timely == [] then Missing(Late(eligible), None)
    else Missing(Late(eligible) + timely[..|timely| - 1], Some(timely[|timely| - 1]))
  }

  predicate ReadyToStart(s: State) { s.runtime == Stopped }

  /** What one operation of a poll leaves behind. */
  datatype Effect = Effect(
    claims: map<Identifier, Claim>,
    decisions: set<Identifier>,
    dispatched: seq<Identifier>,
    runtime: RuntimeState,
    poll: Poll)

  function To(e: Effect, pc: Pc): Effect { e.(poll := e.poll.(pc := pc)) }

  function EffectOf(s: State, poll: Poll, ok: bool, choice: Choice): Effect {
    var same := Effect(s.claims, s.decisions, s.dispatched, s.runtime, poll);
    match poll.pc
    case Missing(missed, candidate) =>
      if missed == [] then To(same, if candidate.Some? then Discovering(candidate.value) else Ending)
      else
        var found := Discover(s.claims, missed[0]);
        if ok && found.Some? then To(same.(claims := found.value), Marking(missed, candidate)) else To(same, Ending)
    case Marking(missed, candidate) =>
      if missed == [] then same
      else
        var marked := MarkTerminal(s.claims, missed[0].key, Missed);
        if ok && marked.Some? then To(same.(claims := marked.value), Missing(missed[1..], candidate))
          else To(same, Ending)
    case Discovering(c) =>
      var found := Discover(s.claims, c);
      if ok && found.Some? then To(same.(claims := found.value), Claiming(c.key)) else To(same, Ending)
    case Claiming(key) =>
      var moved := Move(s.claims, key, Discovered, Claimed);
      if ok && moved.Some? then To(same.(claims := moved.value, runtime := Processing), Preparing(key))
        else To(same, Ending)
    case Preparing(key) =>
      var moved := Move(s.claims, key, Claimed, InProcess);
      if choice == Hold then To(same, Recording(key, Completed))
      else if choice == GoOn && ok && moved.Some? then To(same.(claims := moved.value), Dispatching(key))
      else To(same, Recording(key, Failed))
    case Dispatching(key) => same.(dispatched := s.dispatched + [key], poll := Poll(Awaiting(key), poll.sent + [key]))
    case Awaiting(key) => To(same, Recording(key, if ok then Completed else Failed))
    case Recording(key, result) =>
      if ok && key !in s.decisions then To(same.(decisions := s.decisions + {key}), Closing(key, result))
      else To(same, AfterFailure(key, result, choice))
    case Closing(key, result) =>
      var marked := MarkTerminal(s.claims, key, result);
      if ok && marked.Some? then To(same.(claims := marked.value), Ending)
        else To(same, AfterFailure(key, result, choice))
    case Ending => same
  }

  /**
   * Inside the guarded block (`Fail`) a candle that cannot be recorded is recorded as failed; elsewhere the poll
   * ends.
   */
  function AfterFailure(key: Identifier, result: ClaimState, choice: Choice): Pc {
    if result == Completed && choice == Fail then Recording(key, Failed) else Ending
  }

  function AdvancePoll(s: State, pid: nat, ok: bool, choice: Choice): State
    requires pid in s.polls
  {
    if s.polls[pid].pc.Ending? then
      s.(processing := false, polls := s.polls - {pid},
         runtime := if s.runtime == Faulted then Faulted else if s.shutdownRequested then Stopped else Ready)
    else
      var e := EffectOf(s, s.polls[pid], ok, choice);
      s.(claims := e.claims, decisions := e.decisions, dispatched := e.dispatched, runtime := e.runtime,
         polls := s.polls[pid := e.poll])
  }

  function Step(s: State, a: Action): State {
    match a
    case Start(eligible, recovered, some) =>
      if !ReadyToStart(s) then s
      else if !eligible then s.(runtime := Faulted)
      else if !recovered then s.(runtime := Starting, claims := Abandon(s.claims, some))
      else s.(runtime := Ready, shutdownRequested := false, claims := Abandon(s.claims, s.claims.Keys))
    case Begin(pid, candles) =>
      if s.processing || s.runtime != Ready || pid in s.polls then s
      else s.(processing := true, runtime := Polling, polls := s.polls[pid := Poll(Plan(s.claims, candles), [])])
    case Advance(pid, ok, choice) => if pid in s.polls then AdvancePoll(s, pid, ok, choice) else s
    case Shutdown =>
      if s.runtime == Stopped then s
      else s.(shutdownRequested := true, runtime := if s.processing then Stopping else Stopped)
    case Restart => s.(runtime := Stopped, processing := false, shutdownRequested := false, polls := map[])
  }

  function Run(actions: seq<Action>): State {
    if actions == [] then Initial else Step(Run(actions[..|actions| - 1]), actions[|actions| - 1])
  }

  // ----- the invariant -----

  predicate OnePoll(s: State) {
    && (s.processing <==> s.polls != map[])
    && (forall p, q :: p in s.polls && q in s.polls ==> p == q)
    && (s.processing ==> s.runtime in {Polling, Processing, Stopping})
    && (s.runtime == Stopping ==> s.shutdownRequested && s.processing)
  }

  /** A dispatched key was processing when it was sent, so its claim can never be claimed again. */
  predicate DispatchesOk(s: State) {
    && (forall i, j :: 0 <= i < j < |s.dispatched| ==> s.dispatched[i] != s.dispatched[j])
    && (forall i :: 0 <= i < |s.dispatched| ==> Spent(s.claims, s.dispatched[i]))
  }

  predicate Spent(claims: map<Identifier, Claim>, key: Identifier) {
    key in claims && claims[key].state in {InProcess, Completed, Failed, Abandoned}
  }

  predicate DecisionsOk(s: State) {
    forall k :: k in s.claims && (s.claims[k].state == Completed || s.claims[k].state == Failed) ==> k in s.decisions
  }

  predicate PollOk(s: State, poll: Poll) {
    && |poll.sent| <= 1
    && match poll.pc
       case Missing(missed, _) => poll.sent == [] && forall i :: 0 <= i < |missed| ==> missed[i].key !in s.dispatched
       case Marking(missed, _) =>
         poll.sent == [] && missed != [] && (forall i :: 0 <= i < |missed| ==> missed[i].key !in s.dispatched)
       case Dispatching(key) => poll.sent == [] && key !in s.dispatched && key in s.claims
         && s.claims[key].state == InProcess
       case Closing(key, result) => key in s.decisions && (result == Completed || result == Failed)
       case Recording(_, result) => result == Completed || result == Failed
       case Awaiting(_) => true
       case Ending => true
       case _ => poll.sent == []
  }

  predicate Inv(s: State) {
    && OnePoll(s) && DispatchesOk(s) && DecisionsOk(s)
    && forall p :: p in s.polls ==> PollOk(s, s.polls[p])
  }

  // ----- one step -----

  /** Only the finally block ends a poll; any other operation leaves the set of polls as it is. */
  lemma AdvanceShape(s: State, pid: nat, ok: bool, choice: Choice)
    requires pid in s.polls
    ensures var s' := AdvancePoll(s, pid, ok, choice);
            && s'.shutdownRequested == s.shutdownRequested
            && if s.polls[pid].pc.Ending? then s'.polls == s.polls - {pid} && !s'.processing
               else
                 && s'.polls.Keys == s.polls.Keys && s'.processing == s.processing
                 && (s'.runtime == s.runtime || s'.runtime == Processing)
    ensures s.polls[pid].pc.Ending? ==>
              AdvancePoll(s, pid, ok, choice).runtime
              == if s.runtime == Faulted then Faulted else if s.shutdownRequested then Stopped else Ready
  {
    EffectRuntime(s, s.polls[pid], ok, choice);
    hide EffectOf;
  }

  lemma EffectRuntime(s: State, poll: Poll, ok: bool, choice: Choice)
    ensures var e := EffectOf(s, poll, ok, choice); e.runtime == s.runtime || e.runtime == Processing
  {
    hide Discover, Move, MarkTerminal, AfterFailure;
  }

  lemma StepOnePoll(s: State, a: Action)
    requires OnePoll(s)
    ensures OnePoll(Step(s, a))
  {
    hide Plan, Abandon, AdvancePoll;
    match a
    case Advance(pid, ok, choice) =>
      if pid in s.polls {
        AdvanceShape(s, pid, ok, choice);
        if s.polls[pid].pc.Ending? {
          assert s.polls - {pid} == map[];
        } else {
          assert pid in Step(s, a).polls.Keys;
        }
      }
    case Begin(pid, candles) =>
      if !s.processing && s.runtime == Ready { assert pid in Step(s, a).polls; }
    case _ =>
  }

  /** One key's claim after one operation on the store. */
  lemma DiscoverAt(claims: map<Identifier, Claim>, c: Candle, k: Identifier)
    requires Discover(claims, c).Some?
    ensures k in claims ==> k in Discover(claims, c).value && Discover(claims, c).value[k] == claims[k]
    ensures k in Discover(claims, c).value && k !in claims ==> Discover(claims, c).value[k].state == Discovered
  {}

  lemma MoveAt(claims: map<Identifier, Claim>, key: Identifier, expected: ClaimState, target: ClaimState, k: Identifier)
    requires Move(claims, key, expected, target).Some?
    ensures k in Move(claims, key, expected, target).value <==> k in claims
    ensures k in claims && k != key ==> Move(claims, key, expected, target).value[k] == claims[k]
    ensures k in claims && k == key ==>
              claims[k].state == expected && Move(claims, key, expected, target).value[k].state == target
  {}

  lemma MarkAt(claims: map<Identifier, Claim>, key: Identifier, target: ClaimState, k: Identifier)
    requires MarkTerminal(claims, key, target).Some?
    ensures k in MarkTerminal(claims, key, target).value <==> k in claims
    ensures k in claims && k != key ==> MarkTerminal(claims, key, target).value[k] == claims[k]
    ensures k in claims && k == key ==> MarkTerminal(claims, key, target).value[k].state == target
  {}

  /** How the claim of one key can change while a poll advances. */
  lemma ClaimChange(s: State, pid: nat, ok: bool, choice: Choice, k: Identifier)
    requires pid in s.polls
    ensures var s' := AdvancePoll(s, pid, ok, choice);
            && s.decisions <= s'.decisions
            && (k in s.claims ==> k in s'.claims)
            && (k in s'.claims ==> Changed(s.claims, s'.claims, s.polls[pid].pc, k))
  {
    hide EffectOf;
    var poll := s.polls[pid];
    match poll.pc
    case Missing(_, _) => MissingChange(s, poll, ok, choice, k);
    case Marking(_, _) => MarkingChange(s, poll, ok, choice, k);
    case Discovering(_) => DiscoveringChange(s, poll, ok, choice, k);
    case Claiming(_) => ClaimingChange(s, poll, ok, choice, k);
    case Preparing(_) => PreparingChange(s, poll, ok, choice, k);
    case Closing(_, _) => ClosingChange(s, poll, ok, choice, k);
    case _ => OtherChange(s, poll, ok, choice, k);
  }

  lemma MissingChange(s: State, poll: Poll, ok: bool, choice: Choice, k: Identifier)
    requires poll.pc.Missing?
    ensures ClaimOk(s, EffectOf(s, poll, ok, choice), poll.pc, k)
  {
    hide Discover, Move, MarkTerminal, AfterFailure;
    var missed := poll.pc.missed;
    if missed != [] && Discover(s.claims, missed[0]).Some? { DiscoverAt(s.claims, missed[0], k); }
  }

  lemma MarkingChange(s: State, poll: Poll, ok: bool, choice: Choice, k: Identifier)
    requires poll.pc.Marking?
    ensures ClaimOk(s, EffectOf(s, poll, ok, choice), poll.pc, k)
  {
    hide Discover, Move, MarkTerminal, AfterFailure;
    var missed := poll.pc.missed;
    if missed != [] && MarkTerminal(s.claims, missed[0].key, Missed).Some? {
      MarkAt(s.claims, missed[0].key, Missed, k);
    }
  }

  lemma DiscoveringChange(s: State, poll: Poll, ok: bool, choice: Choice, k: Identifier)
    requires poll.pc.Discovering?
    ensures ClaimOk(s, EffectOf(s, poll, ok, choice), poll.pc, k)
  {
    hide Discover, Move, MarkTerminal, AfterFailure;
    if Discover(s.claims, poll.pc.candle).Some? { DiscoverAt(s.claims, poll.pc.candle, k); }
  }

  lemma ClaimingChange(s: State, poll: Poll, ok: bool, choice: Choice, k: Identifier)
    requires poll.pc.Claiming?
    ensures ClaimOk(s, EffectOf(s, poll, ok, choice), poll.pc, k)
  {
    hide Discover, Move, MarkTerminal, AfterFailure;
    var key := poll.pc.key;
    if Move(s.claims, key, Discovered, Claimed).Some? { MoveAt(s.claims, key, Discovered, Claimed, k); }
  }

  lemma PreparingChange(s: State, poll: Poll, ok: bool, choice: Choice, k: Identifier)
    requires poll.pc.Preparing?
    ensures ClaimOk(s, EffectOf(s, poll, ok, choice), poll.pc, k)
  {
    hide Discover, Move, MarkTerminal, AfterFailure;
    var key := poll.pc.key;
    if Move(s.claims, key, Claimed, InProcess).Some? { MoveAt(s.claims, key, Claimed, InProcess, k); }
  }

  lemma ClosingChange(s: State, poll: Poll, ok: bool, choice: Choice, k: Identifier)
    requires poll.pc.Closing?
    ensures ClaimOk(s, EffectOf(s, poll, ok, choice), poll.pc, k)
  {
    hide Discover, Move, MarkTerminal, AfterFailure;
    if MarkTerminal(s.claims, poll.pc.key, poll.pc.result).Some? { MarkAt(s.claims, poll.pc.key, poll.pc.result, k); }
  }

  lemma OtherChange(s: State, poll: Poll, ok: bool, choice: Choice, k: Identifier)
    requires match poll.pc
             case Dispatching(_) => true
             case Awaiting(_) => true
             case Recording(_, _) => true
             case Ending => true
             case _ => false
    ensures ClaimOk(s, EffectOf(s, poll, ok, choice), poll.pc, k)
  {}

  predicate ClaimOk(s: State, e: Effect, pc: Pc, k: Identifier) {
    && s.decisions <= e.decisions
    && (k in s.claims ==> k in e.claims)
    && (k in e.claims ==> Changed(s.claims, e.claims, pc, k))
  }

  predicate Changed(claims: map<Identifier, Claim>, claims': map<Identifier, Claim>, pc: Pc, k: Identifier)
    requires k in claims'
  {
    if k !in claims then claims'[k].state == Discovered
    else
      || claims'[k] == claims[k]
      || (claims[k].state == Discovered && claims'[k].state == Claimed)
      || (claims[k].state == Claimed && claims'[k].state == InProcess)
      || (pc.Marking? && pc.missed != [] && pc.missed[0].key == k && claims'[k].state == Missed)
      || (pc.Closing? && pc.key == k && claims'[k].state == pc.result)
  }

  /** Claims never disappear, and a spent claim stays spent. */
  lemma ClaimsAdvance(s: State, a: Action, key: Identifier)
    requires Inv(s) && key in s.claims
    ensures key in Step(s, a).claims
    ensures Spent(s.claims, key) && key in s.dispatched ==> Spent(Step(s, a).claims, key)
  {
    hide Plan, OnePoll, DecisionsOk, DispatchesOk, AdvancePoll;
    if a.Advance? && a.pid in s.polls {
      assert PollOk(s, s.polls[a.pid]);
      ClaimChange(s, a.pid, a.ok, a.choice, key);
    }
  }

  lemma StepDispatches(s: State, a: Action)
    requires Inv(s)
    ensures DispatchesOk(Step(s, a))
  {
    hide Plan, Discover, Move, MarkTerminal, Abandon, Spent;
    var s' := Step(s, a);
    var next := DispatchedNext(s, a);
    forall i | 0 <= i < |s.dispatched| ensures Spent(s'.claims, s.dispatched[i]) {
      SpentIsClaimed(s.claims, s.dispatched[i]);
      ClaimsAdvance(s, a, s.dispatched[i]);
    }
    if next.Some? {
      assert s.polls[a.pid].pc == Dispatching(next.value) && PollOk(s, s.polls[a.pid]);
      assert Spent(s'.claims, next.value) by { InProcessIsSpent(s.claims, next.value); }
    }
  }

  lemma SpentIsClaimed(claims: map<Identifier, Claim>, key: Identifier)
    requires Spent(claims, key)
    ensures key in claims
  {}

  lemma InProcessIsSpent(claims: map<Identifier, Claim>, key: Identifier)
    requires key in claims && claims[key].state == InProcess
    ensures Spent(claims, key)
  {}

  /** The key this step sends, if it sends one; it is the only way the log grows. */
  lemma DispatchedNext(s: State, a: Action) returns (key: Option<Identifier>)
    ensures match key
            case None => Step(s, a).dispatched == s.dispatched
            case Some(k) =>
              && a.Advance? && a.pid in s.polls && s.polls[a.pid].pc == Dispatching(k)
              && Step(s, a).dispatched == s.dispatched + [k] && Step(s, a).claims == s.claims
  {
    hide Plan, Discover, Move, MarkTerminal, Abandon;
    key := if a.Advance? && a.pid in s.polls
      && s.polls[a.pid].pc.Dispatching? then Some(s.polls[a.pid].pc.key) else None;
  }

  lemma StepDecisions(s: State, a: Action)
    requires Inv(s)
    ensures DecisionsOk(Step(s, a))
  {
    hide OnePoll, DispatchesOk, Plan;
    if a.Advance? && a.pid in s.polls {
      hide AdvancePoll, PollOk;
      assert PollOk(s, s.polls[a.pid]);
      var s' := Step(s, a);
      forall k | k in s'.claims && (s'.claims[k].state == Completed || s'.claims[k].state == Failed)
        ensures k in s'.decisions
      {
        WhereDecided(s, a.pid, a.ok, a.choice, k);
      }
    }
  }

  /** A claim becomes completed or failed only when its poll closes it, after its decision record was appended. */
  lemma WhereDecided(s: State, pid: nat, ok: bool, choice: Choice, k: Identifier)
    requires pid in s.polls && PollOk(s, s.polls[pid]) && k in AdvancePoll(s, pid, ok, choice).claims
    requires AdvancePoll(s, pid, ok, choice).claims[k].state in {Completed, Failed}
    ensures s.decisions <= AdvancePoll(s, pid, ok, choice).decisions
    ensures (k in s.claims && s.claims[k].state in {Completed, Failed}) || k in s.decisions
  {
    hide AdvancePoll;
    ClaimChange(s, pid, ok, choice, k);
  }

  lemma {:induction false} UnclaimedKeys(claims: map<Identifier, Claim>, candles: seq<Candle>)
    ensures forall c :: c in Unclaimed(claims, candles) ==> c.key !in claims
  {
    if candles != [] { UnclaimedKeys(claims, candles[1..]); }
  }

  lemma {:induction false} SubsetOf(candles: seq<Candle>)
    ensures forall c :: c in Timely(candles) ==> c in candles
    ensures forall c :: c in Late(candles) ==> c in candles
  {
    if candles != [] { SubsetOf(candles[1..]); }
  }

  lemma PlanKeys(claims: map<Identifier, Claim>, candles: seq<Candle>)
    ensures Plan(claims, candles).Missing?
    ensures forall c :: c in Plan(claims, candles).missed ==> c.key !in claims
  {
    UnclaimedKeys(claims, candles);
    SubsetOf(Unclaimed(claims, candles));
    var timely := Timely(Unclaimed(claims, candles));
    if timely != [] { assert timely == timely[..|timely| - 1] + [timely[|timely| - 1]]; }
  }

  predicate Eligible(claims: map<Identifier, Claim>, c: Candle) { c.key !in claims }

  /** The newest timely candle nobody has claimed. */
  predicate Newest(claims: map<Identifier, Claim>, candles: seq<Candle>, k: nat) {
    && k < |candles| && Eligible(claims, candles[k]) && candles[k].timely
    && forall j :: k < j < |candles| ==> !(Eligible(claims, candles[j]) && candles[j].timely)
  }

  /** A poll plans to process the newest timely unclaimed candle and to miss every other unclaimed one. */
  lemma PlanMeans(claims: map<Identifier, Claim>, candles: seq<Candle>)
    ensures Plan(claims, candles).Missing?
    ensures var plan := Plan(claims, candles);
            && (forall c :: c in plan.missed ==> c in candles && Eligible(claims, c))
            && match plan.candidate
               case None =>
                 && (forall k: nat :: !Newest(claims, candles, k))
                 && (forall c :: c in candles && Eligible(claims, c) ==> c in plan.missed)
               case Some(c) =>
                 exists k: nat :: Newest(claims, candles, k) && candles[k] == c
                   && forall j :: 0 <= j < |candles| && j != k && Eligible(claims, candles[j]) ==>
                                    candles[j] in plan.missed
  {
    hide Unclaimed, Timely, Late;
    var eligible := Unclaimed(claims, candles);
    var timely := Timely(eligible);
    SubsetOf(eligible);
    UnclaimedAll(claims, candles);
    Split(eligible);
    if timely == [] {
      forall k: nat ensures !Newest(claims, candles, k) {
        if k < |candles| && Eligible(claims, candles[k]) { assert candles[k] in eligible; }
      }
    } else {
      var k := LastTimely(claims, candles);
      assert timely == timely[..|timely| - 1] + [timely[|timely| - 1]];
    }
  }

  lemma {:induction false} UnclaimedAll(claims: map<Identifier, Claim>, candles: seq<Candle>)
    ensures forall c :: c in Unclaimed(claims, candles) <==> c in candles && Eligible(claims, c)
  {
    if candles != [] {
      UnclaimedAll(claims, candles[1..]);
      assert candles == [candles[0]] + candles[1..];
    }
  }

  lemma {:induction false} Split(candles: seq<Candle>)
    ensures forall c :: c in candles ==> if c.timely then c in Timely(candles) else c in Late(candles)
    ensures forall c :: c in Timely(candles) ==> c.timely
  {
    if candles != [] { Split(candles[1..]); }
  }

  /** The last timely unclaimed candle, and that everything before it is left to the rest of the list. */
  lemma {:induction false} LastTimely(claims: map<Identifier, Claim>, candles: seq<Candle>) returns (k: nat)
    requires Timely(Unclaimed(claims, candles)) != []
    ensures var timely := Timely(Unclaimed(claims, candles));
            && Newest(claims, candles, k) && candles[k] == timely[|timely| - 1]
            && forall j :: 0 <= j < |candles| && j != k && Eligible(claims, candles[j]) && candles[j].timely ==>
                             candles[j] in timely[..|timely| - 1]
  {
    var rest := candles[1..];
    var later := Timely(Unclaimed(claims, rest));
    UnclaimedFirst(claims, candles);
    if later != [] {
      var m := LastTimely(claims, rest);
      k := m + 1;
      var timely := Timely(Unclaimed(claims, candles));
      assert timely[..|timely| - 1]
             == (if Eligible(claims, candles[0]) && candles[0].timely then [candles[0]] else [])
                + later[..|later| - 1];
      forall j | 0 <= j < |candles| && j != k && Eligible(claims, candles[j]) && candles[j].timely
        ensures candles[j] in timely[..|timely| - 1]
      {
        if j > 0 { assert rest[j - 1] == candles[j]; }
      }
    } else {
      k := 0;
      UnclaimedAll(claims, rest);
      Split(Unclaimed(claims, rest));
      forall j | 0 < j < |candles| ensures !(Eligible(claims, candles[j]) && candles[j].timely) {
        assert candles[j] == rest[j - 1] && candles[j] in rest;
      }
    }
  }

  lemma UnclaimedFirst(claims: map<Identifier, Claim>, candles: seq<Candle>)
    requires candles != []
    ensures Timely(Unclaimed(claims, candles))
         == (if Eligible(claims, candles[0]) && candles[0].timely then [candles[0]] else [])
            + Timely(Unclaimed(claims, candles[1..]))
  {
    var c, rest := candles[0], Unclaimed(claims, candles[1..]);
    assert ([c] + rest)[1..] == rest && [] + rest == rest;
  }

  lemma StepPolls(s: State, a: Action)
    requires Inv(s)
    ensures forall p :: p in Step(s, a).polls ==> PollOk(Step(s, a), Step(s, a).polls[p])
  {
    hide Plan;
    match a
    case Begin(pid, candles) =>
      PlanKeys(s.claims, candles);
      if !s.processing && s.runtime == Ready && pid !in s.polls {
        var missed := Plan(s.claims, candles).missed;
        forall i | 0 <= i < |missed| ensures missed[i].key !in s.dispatched { assert missed[i] in missed; }
        assert s.polls == map[];
      }
    case Advance(pid, ok, choice) =>
      if pid in s.polls {
        AdvanceKeepsPoll(s, pid, ok, choice);
      }
    case Start(_, _, _) => if ReadyToStart(s) { assert !s.processing; }
    case _ =>
  }

  lemma AdvanceKeepsPoll(s: State, pid: nat, ok: bool, choice: Choice)
    requires Inv(s) && pid in s.polls
    ensures var s' := AdvancePoll(s, pid, ok, choice); forall p :: p in s'.polls ==> p == pid && PollOk(s', s'.polls[p])
  {
    hide PollOk, AdvancePoll, DispatchesOk, DecisionsOk;
    assert PollOk(s, s.polls[pid]);
    OnlyPollAdvances(s, pid, ok, choice);
    var s' := AdvancePoll(s, pid, ok, choice);
    if pid in s'.polls {
      if s.polls[pid].pc.Preparing? && s.polls[pid].pc.key in s.claims {
        ClaimedNotDispatched(s, s.polls[pid].pc.key);
      }
      AdvancedPollOk(s, pid, ok, choice);
    }
  }

  lemma OnlyPollAdvances(s: State, pid: nat, ok: bool, choice: Choice)
    requires OnePoll(s) && pid in s.polls
    ensures forall p :: p in AdvancePoll(s, pid, ok, choice).polls ==> p == pid
  {
    hide Plan, Discover, Move, MarkTerminal;
  }

  lemma ClaimedNotDispatched(s: State, key: Identifier)
    requires DispatchesOk(s) && key in s.claims
    ensures s.claims[key].state == Claimed ==> key !in s.dispatched
  {
    if key in s.dispatched {
      var i :| 0 <= i < |s.dispatched| && s.dispatched[i] == key;
      assert Spent(s.claims, s.dispatched[i]);
    }
  }

  lemma AdvancedPollOk(s: State, pid: nat, ok: bool, choice: Choice)
    requires pid in s.polls && PollOk(s, s.polls[pid]) && pid in AdvancePoll(s, pid, ok, choice).polls
    requires s.polls[pid].pc.Preparing? && s.polls[pid].pc.key in s.claims
             && s.claims[s.polls[pid].pc.key].state == Claimed ==>
               s.polls[pid].pc.key !in s.dispatched
    ensures PollOk(AdvancePoll(s, pid, ok, choice), AdvancePoll(s, pid, ok, choice).polls[pid])
  {
    hide AdvancePoll, PollOk;
    match s.polls[pid].pc
    case Missing(_, _) => MissingPollOk(s, pid, ok, choice);
    case Marking(_, _) => MarkingPollOk(s, pid, ok, choice);
    case Preparing(_) => PreparingPollOk(s, pid, ok, choice);
    case Recording(_, _) => RecordingPollOk(s, pid, ok, choice);
    case Closing(_, _) => ClosingPollOk(s, pid, ok, choice);
    case _ => OtherPollOk(s, pid, ok, choice);
  }

  lemma MissingPollOk(s: State, pid: nat, ok: bool, choice: Choice)
    requires pid in s.polls && s.polls[pid].pc.Missing? && PollOk(s, s.polls[pid])
    ensures var s' := AdvancePoll(s, pid, ok, choice); pid in s'.polls ==> PollOk(s', s'.polls[pid])
  {
  }

  lemma MarkingPollOk(s: State, pid: nat, ok: bool, choice: Choice)
    requires pid in s.polls && s.polls[pid].pc.Marking? && PollOk(s, s.polls[pid])
    ensures var s' := AdvancePoll(s, pid, ok, choice); pid in s'.polls ==> PollOk(s', s'.polls[pid])
  {
    var poll := s.polls[pid];
    assert forall i :: 0 <= i < |poll.pc.missed[1..]| ==> poll.pc.missed[1..][i] == poll.pc.missed[i + 1];
  }

  lemma PreparingPollOk(s: State, pid: nat, ok: bool, choice: Choice)
    requires pid in s.polls && s.polls[pid].pc.Preparing? && PollOk(s, s.polls[pid])
    requires s.polls[pid].pc.key in s.claims && s.claims[s.polls[pid].pc.key].state == Claimed ==>
               s.polls[pid].pc.key !in s.dispatched
    ensures var s' := AdvancePoll(s, pid, ok, choice); pid in s'.polls ==> PollOk(s', s'.polls[pid])
  {
  }

  lemma RecordingPollOk(s: State, pid: nat, ok: bool, choice: Choice)
    requires pid in s.polls && s.polls[pid].pc.Recording? && PollOk(s, s.polls[pid])
    ensures var s' := AdvancePoll(s, pid, ok, choice); pid in s'.polls ==> PollOk(s', s'.polls[pid])
  {
  }

  lemma ClosingPollOk(s: State, pid: nat, ok: bool, choice: Choice)
    requires pid in s.polls && s.polls[pid].pc.Closing? && PollOk(s, s.polls[pid])
    ensures var s' := AdvancePoll(s, pid, ok, choice); pid in s'.polls ==> PollOk(s', s'.polls[pid])
  {
  }

  lemma OtherPollOk(s: State, pid: nat, ok: bool, choice: Choice)
    requires pid in s.polls && PollOk(s, s.polls[pid])
    requires match s.polls[pid].pc
             case Discovering(_) => true
             case Claiming(_) => true
             case Dispatching(_) => true
             case Awaiting(_) => true
             case Ending => true
             case _ => false
    ensures var s' := AdvancePoll(s, pid, ok, choice); pid in s'.polls ==> PollOk(s', s'.polls[pid])
  {}

  lemma StepKeepsInv(s: State, a: Action)
    requires Inv(s)
    ensures Inv(Step(s, a))
  {
    hide Step, OnePoll, DispatchesOk, DecisionsOk, PollOk;
    StepOnePoll(s, a);
    StepDispatches(s, a);
    StepDecisions(s, a);
    StepPolls(s, a);
  }

  lemma {:induction false} RunKeepsInv(actions: seq<Action>)
    ensures Inv(Run(actions))
  {
    if actions != [] {
      hide Step, Inv;
      RunKeepsInv(actions[..|actions| - 1]);
      StepKeepsInv(Run(actions[..|actions| - 1]), actions[|actions| - 1]);
    } else {
      assert Run(actions) == Initial;
    }
  }

  // ----- what every run keeps -----

  /** No decision key is ever dispatched twice, through any polls, shutdowns, crashes and restarts. */
  lemma NeverDispatchedTwice(actions: seq<Action>, i: nat, j: nat)
    requires i < j < |Run(actions).dispatched|
    ensures Run(actions).dispatched[i] != Run(actions).dispatched[j]
  {
    RunKeepsInv(actions);
  }

  /** At most one poll is ever running, and one poll dispatches at most one candle. */
  lemma OneDecisionInFlight(actions: seq<Action>, p: nat, q: nat)
    requires p in Run(actions).polls && q in Run(actions).polls
    ensures p == q && |Run(actions).polls[p].sent| <= 1
  {
    RunKeepsInv(actions);
    assert PollOk(Run(actions), Run(actions).polls[p]);
  }

  /** A missed candle was never dispatched, and a completed or failed one has its decision record. */
  lemma ClaimsTellTheTruth(actions: seq<Action>, key: Identifier)
    requires key in Run(actions).claims
    ensures Run(actions).claims[key].state in {Missed, Discovered, Claimed} ==> key !in Run(actions).dispatched
    ensures Run(actions).claims[key].state in {Completed, Failed} ==> key in Run(actions).decisions
  {
    RunKeepsInv(actions);
    var s := Run(actions);
    if key in s.dispatched {
      var i :| 0 <= i < |s.dispatched| && s.dispatched[i] == key;
      assert Spent(s.claims, s.dispatched[i]);
    }
  }

  function RunFrom(s: State, actions: seq<Action>): State {
    if actions == [] then s else Step(RunFrom(s, actions[..|actions| - 1]), actions[|actions| - 1])
  }

  /**
   * A shutdown that arrives while a poll is running wins: until the next start or restart the runtime is never
   * ready again, and once the poll is over it is stopped.
   */
  lemma {:induction false} ShutdownEndsStopped(s: State, actions: seq<Action>)
    requires Inv(s) && s.processing && s.shutdownRequested
    requires forall i :: 0 <= i < |actions| ==> !actions[i].Start? && !actions[i].Restart?
    ensures var s' := RunFrom(s, actions);
            && Inv(s') && s'.shutdownRequested && s'.runtime != Ready
            && (!s'.processing ==> s'.runtime == Stopped)
  {
    if actions == [] {
    } else {
      var n := |actions| - 1;
      var before := RunFrom(s, actions[..n]);
      ShutdownEndsStopped(s, actions[..n]);
      StepKeepsInv(before, actions[n]);
      StillStopping(before, actions[n]);
    }
  }

  lemma StillStopping(s: State, a: Action)
    requires OnePoll(s) && s.shutdownRequested && s.runtime != Ready && (!s.processing ==> s.runtime == Stopped)
    requires !a.Start? && !a.Restart?
    ensures var s' := Step(s, a);
            s'.shutdownRequested && s'.runtime != Ready && (!s'.processing ==> s'.runtime == Stopped)
  {
    hide Plan, Abandon, AdvancePoll;
    if a.Advance? && a.pid in s.polls { AdvanceShape(s, a.pid, a.ok, a.choice); }
  }
}
