/**
 * The continuous runtime in its own imperative form. Each method returns the ghost trace of operations it
 * performed and proves its effect to be that of the trace, so every guarantee about runs covers its calls.
 */
module ContinuousRuntime {
  import opened Prelude
  import opened RiskTypes
  import opened ContinuousProtocol

  predicate Open(s: ClaimState) { s == Discovered || s == Claimed || s == InProcess }

  /** Claims left claimed or processing by an earlier process are abandoned; every other claim is as it was. */
  predicate AllAbandoned(before: map<Identifier, Claim>, after: map<Identifier, Claim>) {
    && after.Keys == before.Keys
    && forall k :: k in before ==>
         && after[k].digest == before[k].digest
         && after[k].state == if before[k].state in {Claimed, InProcess} then Abandoned else before[k].state
  }

  /** No candle but those given had its claim changed. */
  ghost predicate OthersKept(before: map<Identifier, Claim>, after: map<Identifier, Claim>, candles: seq<Candle>) {
    forall k :: k !in KeysOf(candles) ==> (k in after <==> k in before) && (k in before ==> after[k] == before[k])
  }

  function KeysOf(candles: seq<Candle>): set<Identifier> { set c | c in candles :: c.key }

  predicate DistinctKeys(candles: seq<Candle>) {
    forall i, j :: 0 <= i < j < |candles| ==> candles[i].key != candles[j].key
  }

  predicate AllMissed(claims: map<Identifier, Claim>, candles: seq<Candle>) {
    forall c :: c in candles ==> c.key in claims && claims[c.key] == Claim(c.digest, Missed)
  }

  class ObservationRepository {
    var claims: map<Identifier, Claim>
    var decisions: set<Identifier>

    constructor ()
      ensures claims == map[] && decisions == {}
    {
      claims, decisions := map[], {};
    }

    method DiscoverCandle(c: Candle, stored: bool) returns (ok: bool)
      modifies this`claims
      ensures ok == (stored && Discover(old(claims), c).Some?)
      ensures claims == if ok then Discover(old(claims), c).value else old(claims)
      ensures ok <==> stored && (c.key in old(claims) ==> old(claims)[c.key].digest == c.digest)
      ensures claims
              == if ok && c.key !in old(claims) then old(claims)[c.key := Claim(c.digest, Discovered)] else old(claims)
    {
      if c.key in claims {
        return stored && claims[c.key].digest == c.digest;
      }
      if stored {
        claims := claims[c.key := Claim(c.digest, Discovered)];
      }
      ok := stored;
    }

    method Transition(key: Identifier, expected: ClaimState, target: ClaimState, stored: bool) returns (ok: bool)
      modifies this`claims
      ensures ok == (stored && Move(old(claims), key, expected, target).Some?)
      ensures claims == if ok then Move(old(claims), key, expected, target).value else old(claims)
      ensures ok <==> stored && key in old(claims) && old(claims)[key].state == expected
      ensures claims == if ok then old(claims)[key := old(claims)[key].(state := target)] else old(claims)
    {
      if key !in claims || claims[key].state != expected || !stored {
        return false;
      }
      claims := claims[key := claims[key].(state := target)];
      ok := true;
    }

    method Finish(key: Identifier, target: ClaimState, stored: bool) returns (ok: bool)
      modifies this`claims
      ensures ok == (stored && MarkTerminal(old(claims), key, target).Some?)
      ensures claims == if ok then MarkTerminal(old(claims), key, target).value else old(claims)
      ensures ok <==> stored && key in old(claims) && Open(old(claims)[key].state)
      ensures claims == if ok then old(claims)[key := old(claims)[key].(state := target)] else old(claims)
    {
      if key !in claims || Terminal(claims[key].state) || !stored {
        return false;
      }
      claims := claims[key := claims[key].(state := target)];
      ok := true;
    }

    method AppendDecision(key: Identifier, stored: bool) returns (ok: bool)
      modifies this`decisions
      ensures ok == (stored && key !in old(decisions))
      ensures decisions == if ok then old(decisions) + {key} else old(decisions)
    {
      ok := stored && key !in decisions;
      if ok {
        decisions := decisions + {key};
      }
    }

    /** Abandons unfinished claims one after the other; storage gives out after `writes` of them. */
    method RecoverIncomplete(writes: nat) returns (ok: bool, ghost some: set<Identifier>)
      modifies this`claims
      ensures claims == Abandon(old(claims), some)
      ensures ok ==> claims == Abandon(old(claims), old(claims).Keys)
      ensures ok ==> AllAbandoned(old(claims), claims)
    {
      some := {};
      var pending := claims.Keys;
      var left := writes;
      while pending != {}
        invariant pending + some == old(claims).Keys && pending !! some
        invariant claims == Abandon(old(claims), some)
        decreases pending
      {
        var key :| key in pending;
        if Unfinished(claims[key].state) {
          if left == 0 {
            return false, some;
          }
          left := left - 1;
          claims := claims[key := claims[key].(state := Abandoned)];
        }
        pending := pending - {key};
        some := some + {key};
      }
      ok := true;
    }
  }

  /** How preparing a claimed candle goes: on to dispatch, held inside or outside the guarded block, or failed. */
  datatype Preparation = Proceed | HoldGuarded | HoldInHandler | Fails

  datatype Interruption = AnotherPoll(candles: seq<Candle>) | ShutdownCall

  /** What one poll will meet: storage results, the preparation and cycle results, and calls made while it waits. */
  datatype World = World(
    missedStored: nat -> bool,
    discovered: bool,
    claimed: bool,
    preparation: Preparation,
    marked: bool,
    interruptions: seq<Interruption>,
    cycleOk: bool,
    recorded: bool,
    closed: bool,
    recordedAgain: bool,
    closedAgain: bool)

  /**
   * What processing one claimed candle leaves. Its shadow cycle starts exactly when the preparation lets it through
   * and the claim is marked. The candle completes when it is held, or its cycle succeeds, and both writes go through.
   * When the decision record of such a candle cannot be appended inside the guarded block, a failure is recorded
   * instead; a record that was appended without its claim being closed stays, and so does the claim.
   */
  predicate Handled(w: World, key: Identifier, before: map<Identifier, Claim>, decided: set<Identifier>,
                    after: map<Identifier, Claim>, decided': set<Identifier>, sent: bool, recorded: Option<Identifier>)
    requires key in before
  {
    var well := if w.preparation.Proceed? then w.marked && w.cycleOk else !w.preparation.Fails?;
    var guarded := well && !w.preparation.HoldInHandler?;
    && (sent <==> w.preparation.Proceed? && w.marked)
    && recorded == (if well && w.recorded && w.closed then Some(key) else None)
    && decided' == (if w.recorded || (guarded && w.recordedAgain) then decided + {key} else decided)
    && after == before[key := before[key].(state :=
         if w.recorded && w.closed then (if well then Completed else Failed)
         else if !w.recorded && guarded && w.recordedAgain && w.closedAgain then Failed
         else if sent then InProcess else Claimed)]
  }

  /** How an open claim without a decision record is concluded: recorded and closed, or failed in a second attempt. */
  predicate Concluded(w: World, key: Identifier, result: ClaimState, guarded: bool, before: map<Identifier, Claim>,
                      decided: set<Identifier>, after: map<Identifier, Claim>, decided': set<Identifier>, ok: bool)
    requires key in before
  {
    && ok == (w.recorded && w.closed)
    && decided' == (if w.recorded || (guarded && w.recordedAgain) then decided + {key} else decided)
    && after == (if ok then before[key := before[key].(state := result)]
                 else if guarded && !w.recorded && w.recordedAgain && w.closedAgain
                 then before[key := before[key].(state := Failed)]
                 else before)
  }

  /** The preparation, the cycle and the two writes, put together. */
  lemma HandledBy(w: World, key: Identifier, before: map<Identifier, Claim>, mid: map<Identifier, Claim>,
                  after: map<Identifier, Claim>, decided: set<Identifier>, decided': set<Identifier>, going: bool,
                  result: ClaimState, guarded: bool, ok: bool)
    requires key in before && before[key].state == Claimed && key !in decided
    requires going <==> w.preparation.Proceed? && w.marked
    requires mid == if going then before[key := before[key].(state := InProcess)] else before
    requires result == if going then (if w.cycleOk then Completed else Failed)
                       else if w.preparation.Proceed? || w.preparation.Fails? then Failed else Completed
    requires guarded == if going then w.cycleOk else w.preparation.HoldGuarded?
    requires key in mid && Concluded(w, key, result, guarded, mid, decided, after, decided', ok)
    ensures Handled(w, key, before, decided, after, decided', going,
                    if ok && result == Completed then Some(key) else None)
  {
    assert before == before[key := before[key].(state := Claimed)];
  }

  lemma OpenStates()
    ensures Open(Claimed) && Open(InProcess)
  {}

  /** What becomes of an unclaimed candle: it may not even get claimed; from there on see `Handled`. */
  predicate Processed(w: World, c: Candle, before: map<Identifier, Claim>, decided: set<Identifier>,
                      after: map<Identifier, Claim>, decided': set<Identifier>, sent: bool,
                      recorded: Option<Identifier>)
  {
    if w.discovered && w.claimed then
      Handled(w, c.key, before[c.key := Claim(c.digest, Claimed)], decided, after, decided', sent, recorded)
    else
      && !sent && recorded.None? && decided' == decided
      && after == if w.discovered then before[c.key := Claim(c.digest, Discovered)] else before
  }

  /**
   * Earlier claims are kept, and of the unclaimed candles all but the newest timely one end missed; that one stays
   * unclaimed. Only a failing write or a repeated key leaves some of them out.
   */
  ghost predicate Noted(w: World, candles: seq<Candle>, before: map<Identifier, Claim>, noted: map<Identifier, Claim>)
  {
    && OthersKept(before, noted, candles)
    && (forall k :: k in before ==> k in noted && noted[k] == before[k])
    && (DistinctKeys(candles) && (forall j: nat :: w.missedStored(j)) ==> MissedButNewest(candles, before, noted))
  }

  /** The newest timely candle was taken up after every other unclaimed one was marked missed. */
  ghost predicate Taken(w: World, candles: seq<Candle>, k: nat, before: map<Identifier, Claim>,
                        noted: map<Identifier, Claim>, decided: set<Identifier>, after: map<Identifier, Claim>,
                        decided': set<Identifier>, sent: bool, recorded: Option<Identifier>)
    requires k < |candles|
  {
    && candles[k].key !in noted && MissedButNewest(candles, before, noted)
    && (recorded.Some? ==> recorded.value == candles[k].key && candles[k].key in decided')
    && (candles[k].key !in decided ==>
          Processed(w, candles[k], noted, decided, after, decided', sent, recorded))
  }

  lemma DistinctPlan(claims: map<Identifier, Claim>, candles: seq<Candle>)
    requires DistinctKeys(candles)
    ensures var plan := Plan(claims, candles);
            && DistinctKeys(plan.missed)
            && (plan.candidate.Some? ==> plan.candidate.value.key !in KeysOf(plan.missed))
  {
    var eligible := Unclaimed(claims, candles);
    var timely, late := Timely(eligible), Late(eligible);
    DistinctUnclaimed(claims, candles);
    DistinctSplit(eligible);
    hide Unclaimed, Timely, Late;
    if timely != [] { DistinctJoin(late, timely); }
  }

  lemma DistinctJoin(late: seq<Candle>, timely: seq<Candle>)
    requires timely != [] && DistinctKeys(late) && DistinctKeys(timely)
    requires forall c, d :: c in late && d in timely ==> c.key != d.key
    ensures var n := |timely| - 1;
            DistinctKeys(late + timely[..n]) && timely[n].key !in KeysOf(late + timely[..n])
  {
    var n := |timely| - 1;
    forall d | d in late + timely[..n] ensures d.key != timely[n].key {
      if d in timely[..n] {
        var j :| 0 <= j < n && timely[j] == d;
      } else {
        assert d in late && timely[n] in timely;
      }
    }
    forall i, j | 0 <= i < |late| && 0 <= j < n ensures late[i].key != timely[j].key {
      assert late[i] in late && timely[j] in timely;
    }
  }

  lemma PlanUnclaimed(claims: map<Identifier, Claim>, candles: seq<Candle>)
    ensures forall c :: c in Plan(claims, candles).missed ==> c.key !in claims
  {
    PlanMeans(claims, candles);
  }

  lemma NewestUnique(claims: map<Identifier, Claim>, candles: seq<Candle>, j: nat, k: nat)
    requires Newest(claims, candles, j) && Newest(claims, candles, k)
    ensures j == k
  {}

  /** Once the missed candles are recorded, only the planned candidate can still be unclaimed. */
  lemma PlanNoted(w: World, candles: seq<Candle>, before: map<Identifier, Claim>, noted: map<Identifier, Claim>,
                  plan: Pc, ok: bool)
    requires plan == Plan(before, candles) && plan.Missing?
    requires OthersKept(before, noted, plan.missed)
    requires ok ==> AllMissed(noted, plan.missed)
    requires ok <==> DistinctKeys(plan.missed) && forall j :: 0 <= j < 2 * |plan.missed| ==> w.missedStored(j)
    ensures Noted(w, candles, before, noted)
    ensures plan.candidate.None? ==> forall k: nat :: !Newest(before, candles, k)
    ensures ok && plan.candidate.Some? && plan.candidate.value.key in noted ==>
              noted[plan.candidate.value.key].state == Missed
    ensures ok && plan.candidate.Some? && plan.candidate.value.key !in noted ==>
              MissedButNewest(candles, before, noted)
    ensures DistinctKeys(candles) && (forall j: nat :: w.missedStored(j)) ==>
              ok && (plan.candidate.Some? ==> plan.candidate.value.key !in noted)
  {
    hide Plan, Newest, MissedButNewest;
    PlanMeans(before, candles);
    forall k | k in KeysOf(plan.missed) ensures k in KeysOf(candles) && k !in before {
      var c :| c in plan.missed && c.key == k;
    }
    if plan.candidate.Some? {
      CandidateUnclaimed(before, candles, plan);
    }
    if DistinctKeys(candles) { DistinctPlan(before, candles); }
    if ok && (plan.candidate.None? || plan.candidate.value.key !in noted) {
      OnlyNewestLeft(candles, before, noted, plan);
    }
  }

  lemma CandidateUnclaimed(claims: map<Identifier, Claim>, candles: seq<Candle>, plan: Pc)
    requires plan == Plan(claims, candles) && plan.candidate.Some?
    ensures plan.candidate.value.key !in claims
  {
    hide Plan;
    PlanMeans(claims, candles);
  }

  lemma OnlyNewestLeft(candles: seq<Candle>, before: map<Identifier, Claim>, noted: map<Identifier, Claim>, plan: Pc)
    requires plan == Plan(before, candles) && plan.Missing? && AllMissed(noted, plan.missed)
    requires plan.candidate.None? || plan.candidate.value.key !in noted
    ensures MissedButNewest(candles, before, noted)
  {
    hide Plan;
    PlanMeans(before, candles);
    if plan.candidate.Some? {
      var n: nat :| Newest(before, candles, n) && candles[n] == plan.candidate.value
                    && forall j :: 0 <= j < |candles| && j != n && Eligible(before, candles[j]) ==>
                                     candles[j] in plan.missed;
    }
  }

  lemma PlanTaken(w: World, candles: seq<Candle>, before: map<Identifier, Claim>, noted: map<Identifier, Claim>,
                  plan: Pc, decided: set<Identifier>, after: map<Identifier, Claim>, decided': set<Identifier>,
                  sent: bool, recorded: Option<Identifier>)
    requires plan == Plan(before, candles) && plan.candidate.Some? && plan.candidate.value.key !in noted
    requires MissedButNewest(candles, before, noted)
    requires recorded.Some? ==> recorded.value == plan.candidate.value.key && recorded.value in decided'
    requires plan.candidate.value.key !in decided ==>
               Processed(w, plan.candidate.value, noted, decided, after, decided', sent, recorded)
    ensures exists k: nat :: Newest(before, candles, k) && candles[k] == plan.candidate.value
              && Taken(w, candles, k, before, noted, decided, after, decided', sent, recorded)
    ensures forall k: nat :: Newest(before, candles, k) ==>
              Taken(w, candles, k, before, noted, decided, after, decided', sent, recorded)
  {
    hide Plan, Processed, MissedButNewest;
    PlanMeans(before, candles);
    var n: nat :| Newest(before, candles, n) && candles[n] == plan.candidate.value;
    forall k: nat | Newest(before, candles, k)
      ensures Taken(w, candles, k, before, noted, decided, after, decided', sent, recorded)
    {
      NewestUnique(before, candles, n, k);
    }
  }

  lemma {:induction false} DistinctUnclaimed(claims: map<Identifier, Claim>, candles: seq<Candle>)
    requires DistinctKeys(candles)
    ensures DistinctKeys(Unclaimed(claims, candles))
    ensures forall c :: c in Unclaimed(claims, candles) ==> c in candles
  {
    if candles != [] {
      var rest := candles[1..];
      DistinctUnclaimed(claims, rest);
      forall c | c in Unclaimed(claims, rest) ensures c.key != candles[0].key {
        var i :| 0 <= i < |rest| && rest[i] == c;
        assert candles[i + 1] == c;
      }
    }
  }

  /** Taking the timely and the late candles apart keeps keys distinct, within the parts and across them. */
  lemma {:induction false} DistinctSplit(candles: seq<Candle>)
    requires DistinctKeys(candles)
    ensures DistinctKeys(Timely(candles)) && DistinctKeys(Late(candles))
    ensures forall c, d :: c in Late(candles) && d in Timely(candles) ==> c.key != d.key
    ensures forall c :: c in Timely(candles) || c in Late(candles) ==> c in candles
  {
    if candles != [] {
      var c, rest := candles[0], candles[1..];
      HeadApart(candles);
      DistinctSplit(rest);
      if c.timely { HeadJoins(c, Timely(rest)); } else { HeadJoins(c, Late(rest)); }
      assert [] + Timely(rest) == Timely(rest) && [] + Late(rest) == Late(rest);
      hide DistinctKeys;
    }
  }

  lemma HeadApart(candles: seq<Candle>)
    requires candles != [] && DistinctKeys(candles)
    ensures DistinctKeys(candles[1..]) && forall c :: c in candles[1..] ==> c.key != candles[0].key
  {
    forall c | c in candles[1..] ensures c.key != candles[0].key {
      var i :| 0 <= i < |candles[1..]| && candles[1..][i] == c;
      assert candles[i + 1] == c;
    }
  }

  lemma HeadJoins(c: Candle, rest: seq<Candle>)
    requires DistinctKeys(rest) && forall d :: d in rest ==> d.key != c.key
    ensures DistinctKeys([c] + rest)
  {}

  predicate MissedButNewest(candles: seq<Candle>, before: map<Identifier, Claim>, noted: map<Identifier, Claim>) {
    forall k: nat :: k < |candles| && Eligible(before, candles[k]) ==>
      if Newest(before, candles, k) then candles[k].key !in noted
      else candles[k].key in noted && noted[candles[k].key] == Claim(candles[k].digest, Missed)
  }

  lemma Extend(s: State, trace: seq<Action>, a: Action)
    ensures RunFrom(s, trace + [a]) == Step(RunFrom(s, trace), a)
  {
    assert (trace + [a])[..|trace|] == trace;
  }

  lemma {:induction false} Join(s: State, first: seq<Action>, second: seq<Action>)
    ensures RunFrom(s, first + second) == RunFrom(RunFrom(s, first), second)
  {
    hide Step;
    if second == [] {
      assert first + second == first;
    } else {
      var n := |second| - 1;
      Join(s, first, second[..n]);
      assert first + second == (first + second[..n]) + [second[n]];
      Extend(s, first + second[..n], second[n]);
    }
  }

  /** One missed candle through both writes. */
  lemma OneMissed(before: map<Identifier, Claim>, after: map<Identifier, Claim>, c: Candle, discovered: bool,
                  marked: bool, ok: bool)
    requires var found := discovered && (c.key in before ==> before[c.key].digest == c.digest);
             var mid := if found && c.key !in before then before[c.key := Claim(c.digest, Discovered)] else before;
             && (ok <==> found && marked && Open(mid[c.key].state))
             && after == if ok then mid[c.key := mid[c.key].(state := Missed)] else mid
    ensures OthersKept(before, after, [c])
    ensures ok ==> AllMissed(after, [c])
    ensures ok ==> c.key !in before || Open(before[c.key].state)
    ensures ok ==> discovered && marked
    ensures c.key !in before && discovered && marked ==> ok
  {
    assert c.key in KeysOf([c]) by { assert c in [c]; }
  }

  lemma NoneMissed(claims: map<Identifier, Claim>)
    ensures OthersKept(claims, claims, []) && AllMissed(claims, []) && DistinctKeys([])
  {}

  /** One more candle handled: what that leaves for the first `i + 1`, and when their keys are distinct. */
  lemma OneMoreMissed(start: map<Identifier, Claim>, before: map<Identifier, Claim>, after: map<Identifier, Claim>,
                      missed: seq<Candle>, i: nat, ok: bool)
    requires i < |missed|
    requires OthersKept(start, before, missed[..i]) && AllMissed(before, missed[..i]) && DistinctKeys(missed[..i])
    requires OthersKept(before, after, [missed[i]])
    requires ok ==> AllMissed(after, [missed[i]])
    requires ok ==> missed[i].key !in before || Open(before[missed[i].key].state)
    ensures OthersKept(start, after, missed)
    ensures ok ==> OthersKept(start, after, missed[..i + 1])
    ensures ok ==> AllMissed(after, missed[..i + 1]) && DistinctKeys(missed[..i + 1])
    ensures missed[i].key in before && missed[i].key !in start ==> !DistinctKeys(missed)
  {
    var c := missed[i];
    var done, rest := missed[..i], missed[i + 1..];
    assert missed[..i + 1] == done + [c] && missed == done + [c] + rest;
    KeptThrough(start, before, after, done, c, rest);
    if c.key in before && c.key !in start { RepeatedKey(start, before, missed, i); }
    if ok { AlsoMissed(before, after, done, c); }
    hide OthersKept, AllMissed, DistinctKeys;
  }

  lemma KeptThrough(start: map<Identifier, Claim>, before: map<Identifier, Claim>, after: map<Identifier, Claim>,
                    done: seq<Candle>, c: Candle, rest: seq<Candle>)
    requires OthersKept(start, before, done) && OthersKept(before, after, [c])
    ensures OthersKept(start, after, done + [c]) && OthersKept(start, after, done + [c] + rest)
  {
    KeysOfJoin(done, [c]);
    KeysOfJoin(done + [c], rest);
    hide KeysOf;
  }

  lemma RepeatedKey(start: map<Identifier, Claim>, before: map<Identifier, Claim>, missed: seq<Candle>, i: nat)
    requires i < |missed| && OthersKept(start, before, missed[..i])
    requires missed[i].key in before && missed[i].key !in start
    ensures !DistinctKeys(missed)
  {
    assert missed[i].key in KeysOf(missed[..i]);
    var d :| d in missed[..i] && d.key == missed[i].key;
    var j :| 0 <= j < i && missed[j] == d;
  }

  lemma AlsoMissed(before: map<Identifier, Claim>, after: map<Identifier, Claim>, done: seq<Candle>, c: Candle)
    requires AllMissed(before, done) && DistinctKeys(done) && OthersKept(before, after, [c]) && AllMissed(after, [c])
    requires c.key !in before || Open(before[c.key].state)
    ensures AllMissed(after, done + [c]) && DistinctKeys(done + [c])
  {
    forall d | d in done ensures d.key != c.key && d.key !in KeysOf([c]) {
      assert before[d.key] == Claim(d.digest, Missed);
    }
    assert c in [c];
  }

  lemma KeysOfJoin(first: seq<Candle>, second: seq<Candle>)
    ensures KeysOf(first + second) == KeysOf(first) + KeysOf(second)
  {
    forall k | k in KeysOf(first) + KeysOf(second) ensures k in KeysOf(first + second) {
      var c :| (c in first || c in second) && c.key == k;
      assert c in first + second;
    }
  }

  class ContinuousShadowRuntime {
    const repository: ObservationRepository
    var state: RuntimeState
    var processing: bool
    var shutdownRequested: bool
    var dispatched: seq<Identifier> // every shadow cycle started, in order
    ghost var polls: map<nat, Poll>

    ghost function View(): State
      reads this, repository
    {
      State(state, processing, shutdownRequested, polls, repository.claims, repository.decisions, dispatched)
    }

    constructor (repository: ObservationRepository)
      ensures this.repository == repository && state == Stopped && !processing && !shutdownRequested && dispatched == []
              && polls == map[]
    {
      this.repository := repository;
      state, processing, shutdownRequested, dispatched, polls := Stopped, false, false, [], map[];
    }

    /** Starts from STOPPED only; raises otherwise, when the symbol is ineligible, or when recovery fails. */
    method StartRuntime(eligible: bool, writes: nat) returns (ok: bool, ghost action: Action)
      modifies this, repository
      ensures action.Start? && View() == Step(old(View()), action)
      ensures ok <==> old(state) == Stopped && state == Ready
      ensures ok ==> eligible && !shutdownRequested && AllAbandoned(old(repository.claims), repository.claims)
      ensures !ok ==>
                && shutdownRequested == old(shutdownRequested)
                && state == if old(state) != Stopped then old(state) else if eligible then Starting else Faulted
    {
      action := Start(eligible, false, {});
      if state != Stopped {
        return false, action;
      }
      state := Starting;
      if !eligible {
        state := Faulted;
        return false, action;
      }
      ghost var some;
      ok, some := repository.RecoverIncomplete(writes);
      action := Start(eligible, ok, some);
      if !ok {
        return;
      }
      shutdownRequested := false;
      state := Ready;
    }

    method ShutdownRuntime()
      modifies this
      ensures View() == Step(old(View()), Shutdown)
      ensures processing == old(processing) && polls == old(polls) && dispatched == old(dispatched)
      ensures state == if old(state) == Stopped || !processing then Stopped else Stopping
      ensures shutdownRequested == (old(shutdownRequested) || old(state) != Stopped)
    {
      if state == Stopped {
        return;
      }
      shutdownRequested := true;
      state := Stopping;
      if !processing {
        state := Stopped;
      }
    }

    /** Calls that arrive while the poll awaits its shadow cycle. */
    method Interrupted(events: seq<Interruption>) returns (ghost trace: seq<Action>)
      requires processing && state != Stopped
      modifies this
      ensures View() == RunFrom(old(View()), trace)
      ensures forall i :: 0 <= i < |trace| ==> trace[i].Begin? || trace[i].Shutdown?
      ensures processing && polls == old(polls) && dispatched == old(dispatched)
      ensures state == if ShutdownCall in events then Stopping else old(state)
      ensures shutdownRequested == (old(shutdownRequested) || ShutdownCall in events)
    {
      trace := [];
      for i := 0 to |events|
        invariant View() == RunFrom(old(View()), trace)
        invariant forall i :: 0 <= i < |trace| ==> trace[i].Begin? || trace[i].Shutdown?
        invariant processing && polls == old(polls) && dispatched == old(dispatched)
        invariant state == if ShutdownCall in events[..i] then Stopping else old(state)
        invariant shutdownRequested == (old(shutdownRequested) || ShutdownCall in events[..i])
      {
        assert events[..i + 1] == events[..i] + [events[i]];
        match events[i] {
          case ShutdownCall =>
            Extend(old(View()), trace, Shutdown);
            trace := trace + [Shutdown];
            ShutdownRuntime();
          case AnotherPoll(candles) =>
            // The overlapping poll sees that one is processing and returns at once.
            Extend(old(View()), trace, Begin(0, candles));
            trace := trace + [Begin(0, candles)];
        }
      }
      assert events[..|events|] == events;
    }

    method DiscoverMissed(c: Candle, ghost missed: seq<Candle>, ghost candidate: Option<Candle>, stored: bool,
                          ghost pid: nat)
      returns (ok: bool)
      requires missed != [] && c == missed[0] && pid in polls && polls[pid].pc == Missing(missed, candidate)
      modifies this`polls, repository`claims
      ensures View() == Step(old(View()), Advance(pid, stored, GoOn))
      ensures pid in polls
              && polls[pid] == old(polls[pid]).(pc := if ok then Marking(missed, candidate) else Ending)
      ensures ok <==> stored && (c.key in old(repository.claims) ==> old(repository.claims)[c.key].digest == c.digest)
      ensures repository.claims
              == if ok && c.key !in old(repository.claims)
                 then old(repository.claims)[c.key := Claim(c.digest, Discovered)] else old(repository.claims)
    {
      hide Discover;
      ok := repository.DiscoverCandle(c, stored);
      polls := polls[pid := polls[pid].(pc := if ok then Marking(missed, candidate) else Ending)];
    }

    method MarkMissed(key: Identifier, ghost missed: seq<Candle>, ghost candidate: Option<Candle>, stored: bool,
                      ghost pid: nat)
      returns (ok: bool)
      requires missed != [] && key == missed[0].key && pid in polls && polls[pid].pc == Marking(missed, candidate)
      modifies this`polls, repository`claims
      ensures View() == Step(old(View()), Advance(pid, stored, GoOn))
      ensures pid in polls
              && polls[pid] == old(polls[pid]).(pc := if ok then Missing(missed[1..], candidate) else Ending)
      ensures ok <==> stored && key in old(repository.claims) && Open(old(repository.claims)[key].state)
      ensures repository.claims
              == if ok then old(repository.claims)[key := old(repository.claims)[key].(state := Missed)]
                 else old(repository.claims)
    {
      hide MarkTerminal;
      ok := repository.Finish(key, Missed, stored);
      polls := polls[pid := polls[pid].(pc := if ok then Missing(missed[1..], candidate) else Ending)];
    }

    /** Discovers one missed candle and marks its claim; the first operation that fails ends the poll. */
    method MissOne(c: Candle, ghost missed: seq<Candle>, ghost candidate: Option<Candle>, discovered: bool,
                   marked: bool, ghost pid: nat)
      returns (ok: bool, ghost trace: seq<Action>)
      requires missed != [] && c == missed[0] && pid in polls && polls[pid].pc == Missing(missed, candidate)
      modifies this`polls, repository`claims
      ensures View() == RunFrom(old(View()), trace)
      ensures pid in polls
              && polls[pid] == old(polls[pid]).(pc := if ok then Missing(missed[1..], candidate) else Ending)
      ensures forall i :: 0 <= i < |trace| ==> trace[i].Advance?
      ensures OthersKept(old(repository.claims), repository.claims, [c])
      ensures ok ==> AllMissed(repository.claims, [c])
      ensures ok ==> c.key !in old(repository.claims) || Open(old(repository.claims)[c.key].state)
      ensures ok ==> discovered && marked
      ensures c.key !in old(repository.claims) && discovered && marked ==> ok
    {
      hide *;
      ghost var start, before := View(), repository.claims;
      ok := DiscoverMissed(c, missed, candidate, discovered, pid);
      trace := [Advance(pid, discovered, GoOn)];
      OneStep(start, trace[0]);
      if ok {
        ok := MarkMissed(c.key, missed, candidate, marked, pid);
        Extend(start, trace, Advance(pid, marked, GoOn));
        trace := trace + [Advance(pid, marked, GoOn)];
      }
      OneMissed(before, repository.claims, c, discovered, marked, ok);
    }

    /** Records the missed candles in turn; with storage at hand only a repeated key stops it. */
    method RecordMissed(missed: seq<Candle>, ghost candidate: Option<Candle>, stored: nat -> bool, ghost pid: nat)
      returns (ok: bool, ghost trace: seq<Action>)
      requires pid in polls && polls[pid].pc == Missing(missed, candidate)
      modifies this`polls, repository`claims
      ensures View() == RunFrom(old(View()), trace)
      ensures pid in polls && polls[pid] == old(polls[pid]).(pc := if ok then Missing([], candidate) else Ending)
      ensures forall i :: 0 <= i < |trace| ==> trace[i].Advance?
      ensures OthersKept(old(repository.claims), repository.claims, missed)
      ensures ok ==> AllMissed(repository.claims, missed)
      ensures (forall c :: c in missed ==> c.key !in old(repository.claims)) ==>
                (ok <==> DistinctKeys(missed) && forall j :: 0 <= j < 2 * |missed| ==> stored(j))
    {
      hide RunFrom, OthersKept, AllMissed, DistinctKeys;
      trace := [];
      EmptyRun(old(View()));
      NoneMissed(repository.claims);
      ghost var sent := polls[pid].sent;
      for i := 0 to |missed|
        invariant View() == RunFrom(old(View()), trace)
        invariant pid in polls && polls[pid] == Poll(Missing(missed[i..], candidate), sent)
        invariant forall k :: 0 <= k < |trace| ==> trace[k].Advance?
        invariant OthersKept(old(repository.claims), repository.claims, missed[..i])
        invariant AllMissed(repository.claims, missed[..i])
        invariant DistinctKeys(missed[..i]) && forall j :: 0 <= j < 2 * i ==> stored(j)
      {
        ghost var start, claims := View(), repository.claims;
        ghost var more;
        ok, more := MissOne(missed[i], missed[i..], candidate, stored(2 * i), stored(2 * i + 1), pid);
        Join(old(View()), trace, more);
        trace := trace + more;
        OneMoreMissed(old(repository.claims), claims, repository.claims, missed, i, ok);
        if !ok {
          return;
        }
        assert missed[i..][1..] == missed[i + 1..];
      }
      assert missed[|missed|..] == [] && missed[..|missed|] == missed;
      ok := true;
    }

    // ----- single operations of a running poll, each one step of the protocol -----

    method DiscoverOne(c: Candle, stored: bool, ghost pid: nat) returns (ok: bool)
      requires pid in polls && polls[pid].pc == Discovering(c)
      modifies this`polls, repository`claims
      ensures View() == Step(old(View()), Advance(pid, stored, GoOn))
      ensures pid in polls && polls[pid] == old(polls[pid]).(pc := if ok then Claiming(c.key) else Ending)
      ensures c.key !in old(repository.claims) ==>
                ok == stored
                && repository.claims
                   == if ok then old(repository.claims)[c.key := Claim(c.digest, Discovered)]
                      else old(repository.claims)
      ensures c.key in old(repository.claims) ==> repository.claims == old(repository.claims)
    {
      hide Discover;
      ok := repository.DiscoverCandle(c, stored);
      polls := polls[pid := polls[pid].(pc := if ok then Claiming(c.key) else Ending)];
    }

    method ClaimOne(key: Identifier, stored: bool, ghost pid: nat) returns (ok: bool)
      requires pid in polls && polls[pid].pc == Claiming(key)
      modifies this`polls, this`state, repository`claims
      ensures View() == Step(old(View()), Advance(pid, stored, GoOn))
      ensures pid in polls && polls[pid] == old(polls[pid]).(pc := if ok then Preparing(key) else Ending)
      ensures state == if ok then Processing else old(state)
      ensures ok <==> stored && key in old(repository.claims) && old(repository.claims)[key].state == Discovered
      ensures repository.claims
              == if ok then old(repository.claims)[key := old(repository.claims)[key].(state := Claimed)]
                 else old(repository.claims)
    {
      hide Move;
      ok := repository.Transition(key, Discovered, Claimed, stored);
      polls := polls[pid := polls[pid].(pc := if ok then Preparing(key) else Ending)];
      if ok {
        state := Processing;
      }
    }

    /** Snapshot, risk context, features and eligibility; only a candle that passes all is marked processing. */
    method Prepare(key: Identifier, preparation: Preparation, marked: bool, ghost pid: nat)
      returns (going: bool, result: ClaimState, guarded: bool, ghost action: Action)
      requires pid in polls && polls[pid].pc == Preparing(key)
      modifies this`polls, repository`claims
      ensures action.Advance? && View() == Step(old(View()), action)
      ensures pid in polls
              && polls[pid] == old(polls[pid]).(pc := if going then Dispatching(key) else Recording(key, result))
      ensures result == Completed || (result == Failed && !guarded)
      ensures going <==> preparation.Proceed? && marked && key in old(repository.claims)
                         && old(repository.claims)[key].state == Claimed
      ensures repository.claims
              == if going then old(repository.claims)[key := old(repository.claims)[key].(state := InProcess)]
                 else old(repository.claims)
      ensures result == if preparation.Proceed? || preparation.Fails? then Failed else Completed
      ensures guarded == preparation.HoldGuarded?
    {
      hide Move;
      going, result, guarded := false, Failed, false;
      if preparation == Proceed {
        going := repository.Transition(key, Claimed, InProcess, marked);
      } else if preparation != Fails {
        result, guarded := Completed, preparation == HoldGuarded;
      }
      action := Advance(pid, marked, if preparation == Proceed then GoOn
                        else if preparation == Fails then Fail else Hold);
      polls := polls[pid := polls[pid].(pc := if going then Dispatching(key) else Recording(key, result))];
    }

    method Dispatch(key: Identifier, ghost pid: nat)
      requires pid in polls && polls[pid].pc == Dispatching(key)
      modifies this`polls, this`dispatched
      ensures View() == Step(old(View()), Advance(pid, true, GoOn))
      ensures dispatched == old(dispatched) + [key]
      ensures pid in polls && polls[pid].pc == Awaiting(key)
    {
      dispatched := dispatched + [key];
      polls := polls[pid := Poll(Awaiting(key), polls[pid].sent + [key])];
    }

    ghost method Resume(key: Identifier, cycleOk: bool, pid: nat)
      requires pid in polls && polls[pid].pc == Awaiting(key)
      modifies this`polls
      ensures View() == Step(old(View()), Advance(pid, cycleOk, GoOn))
      ensures pid in polls && polls[pid].pc == Recording(key, if cycleOk then Completed else Failed)
    {
      polls := polls[pid := polls[pid].(pc := Recording(key, if cycleOk then Completed else Failed))];
    }

    /** `guarded`: an exception here is caught, and the candle recorded as failed instead. */
    method Record(key: Identifier, result: ClaimState, guarded: bool, stored: bool, ghost pid: nat) returns (ok: bool)
      requires pid in polls && polls[pid].pc == Recording(key, result) && (result == Completed || !guarded)
      modifies this`polls, repository`decisions
      ensures View() == Step(old(View()), Advance(pid, stored, if guarded then Fail else GoOn))
      ensures pid in polls && polls[pid] == old(polls[pid]).(pc :=
                if ok then Closing(key, result) else if guarded then Recording(key, Failed) else Ending)
      ensures ok <==> stored && key !in old(repository.decisions)
      ensures repository.decisions == if stored then old(repository.decisions) + {key} else old(repository.decisions)
    {
      ok := repository.AppendDecision(key, stored);
      polls := polls[pid := polls[pid].(pc :=
        if ok then Closing(key, result) else if guarded then Recording(key, Failed) else Ending)];
    }

    method CloseClaim(key: Identifier, result: ClaimState, guarded: bool, stored: bool, ghost pid: nat)
      returns (ok: bool)
      requires pid in polls && polls[pid].pc == Closing(key, result) && (result == Completed || !guarded)
      modifies this`polls, repository`claims
      ensures View() == Step(old(View()), Advance(pid, stored, if guarded then Fail else GoOn))
      ensures pid in polls
              && polls[pid] == old(polls[pid]).(pc := if !ok && guarded then Recording(key, Failed) else Ending)
      ensures ok <==> stored && key in old(repository.claims) && Open(old(repository.claims)[key].state)
      ensures repository.claims
              == if ok then old(repository.claims)[key := old(repository.claims)[key].(state := result)]
                 else old(repository.claims)
    {
      ok := repository.Finish(key, result, stored);
      polls := polls[pid := polls[pid].(pc := if !ok && guarded then Recording(key, Failed) else Ending)];
    }

    /**
     * Appends the decision record and closes the claim; a failure inside the guarded block leaves a failure to
     * record.
     */
    method RecordAndClose(key: Identifier, result: ClaimState, guarded: bool, recorded: bool, closed: bool,
                          ghost pid: nat)
      returns (ok: bool, ghost trace: seq<Action>)
      requires pid in polls && polls[pid].pc == Recording(key, result)
      requires result == Completed || (result == Failed && !guarded)
      modifies this`polls, repository
      ensures View() == RunFrom(old(View()), trace)
      ensures pid in polls
              && polls[pid] == old(polls[pid]).(pc := if !ok && guarded then Recording(key, Failed) else Ending)
      ensures ok <==> recorded && closed && key !in old(repository.decisions) && key in old(repository.claims)
                      && Open(old(repository.claims)[key].state)
      ensures repository.decisions == if recorded then old(repository.decisions) + {key} else old(repository.decisions)
      ensures repository.claims
              == if ok then old(repository.claims)[key := old(repository.claims)[key].(state := result)]
                 else old(repository.claims)
      ensures forall i :: 0 <= i < |trace| ==> trace[i].Advance?
    {
      hide *;
      ghost var start := View();
      ghost var choice := if guarded then Fail else GoOn;
      ok := Record(key, result, guarded, recorded, pid);
      trace := [Advance(pid, recorded, choice)];
      OneStep(start, trace[0]);
      if ok {
        ok := CloseClaim(key, result, guarded, closed, pid);
        Extend(start, trace, Advance(pid, closed, choice));
        trace := trace + [Advance(pid, closed, choice)];
      }
    }

    /** Records how a candle went and closes its claim; a failure inside the guarded block is recorded once more. */
    method Conclude(key: Identifier, result: ClaimState, guarded: bool, w: World, ghost pid: nat)
      returns (ok: bool, ghost trace: seq<Action>)
      requires pid in polls && polls[pid].pc == Recording(key, result)
      requires result == Completed || (result == Failed && !guarded)
      modifies this`polls, repository
      ensures View() == RunFrom(old(View()), trace)
      ensures pid in polls && polls[pid] == old(polls[pid]).(pc := Ending)
      ensures ok ==> key in repository.decisions && key in repository.claims && repository.claims[key].state == result
      ensures key !in old(repository.decisions) && key in old(repository.claims)
              && Open(old(repository.claims)[key].state) ==>
                Concluded(w, key, result, guarded, old(repository.claims), old(repository.decisions),
                          repository.claims, repository.decisions, ok)
      ensures forall i :: 0 <= i < |trace| ==> trace[i].Advance?
    {
      hide RunFrom, Step, View;
      ghost var start := View();
      ok, trace := RecordAndClose(key, result, guarded, w.recorded, w.closed, pid);
      if !ok && guarded {
        var again; ghost var more;
        again, more := RecordAndClose(key, Failed, false, w.recordedAgain, w.closedAgain, pid);
        Join(start, trace, more);
        trace := trace + more;
      }
    }

    /** Starts the shadow cycle and waits for it, while other calls may arrive. */
    method RunCycle(key: Identifier, w: World, ghost pid: nat) returns (ghost trace: seq<Action>)
      requires processing && state != Stopped && pid in polls && polls[pid].pc == Dispatching(key)
      modifies this
      ensures View() == RunFrom(old(View()), trace)
      ensures repository.claims == old(repository.claims) && repository.decisions == old(repository.decisions)
      ensures processing && pid in polls && polls[pid].pc == Recording(key, if w.cycleOk then Completed else Failed)
      ensures dispatched == old(dispatched) + [key]
      ensures state == if ShutdownCall in w.interruptions then Stopping else old(state)
      ensures shutdownRequested == (old(shutdownRequested) || ShutdownCall in w.interruptions)
      ensures forall i :: 0 <= i < |trace| ==> !trace[i].Start? && !trace[i].Restart?
    {
      hide *;
      ghost var start := View();
      Dispatch(key, pid);
      trace := [Advance(pid, true, GoOn)];
      OneStep(start, trace[0]);
      ghost var more := Interrupted(w.interruptions);
      Join(start, trace, more);
      trace := trace + more;
      Resume(key, w.cycleOk, pid);
      Extend(start, trace, Advance(pid, w.cycleOk, GoOn));
      trace := trace + [Advance(pid, w.cycleOk, GoOn)];
    }

    /** Discovers and claims the candidate. */
    method Take(c: Candle, w: World, ghost pid: nat) returns (ok: bool, ghost trace: seq<Action>)
      requires pid in polls && polls[pid].pc == Discovering(c)
      modifies this`polls, this`state, repository`claims
      ensures View() == RunFrom(old(View()), trace)
      ensures pid in polls && polls[pid].pc == (if ok then Preparing(c.key) else Ending)
      ensures state == if ok then Processing else old(state)
      ensures c.key !in old(repository.claims) ==>
                && ok == (w.discovered && w.claimed)
                && repository.claims
                   == if !w.discovered then old(repository.claims)
                      else old(repository.claims)[c.key := Claim(c.digest, if ok then Claimed else Discovered)]
      ensures c.key in old(repository.claims) && old(repository.claims)[c.key].state != Discovered ==>
                !ok && repository.claims == old(repository.claims)
      ensures forall i :: 0 <= i < |trace| ==> !trace[i].Start? && !trace[i].Restart?
    {
      hide *;
      ghost var start := View();
      ok := DiscoverOne(c, w.discovered, pid);
      trace := [Advance(pid, w.discovered, GoOn)];
      OneStep(start, trace[0]);
      if ok {
        ok := ClaimOne(c.key, w.claimed, pid);
        Extend(start, trace, Advance(pid, w.claimed, GoOn));
        trace := trace + [Advance(pid, w.claimed, GoOn)];
      }
    }

    /** Prepares the claimed candle and, if it gets that far, runs its shadow cycle. */
    method Attempt(key: Identifier, w: World, ghost pid: nat)
      returns (result: ClaimState, guarded: bool, ghost sent: bool, ghost trace: seq<Action>)
      requires processing && state == Processing && pid in polls && polls[pid].pc == Preparing(key)
      modifies this, repository`claims
      ensures View() == RunFrom(old(View()), trace)
      ensures processing && pid in polls && polls[pid].pc == Recording(key, result)
      ensures dispatched == if sent then old(dispatched) + [key] else old(dispatched)
      ensures sent <==> w.preparation.Proceed? && w.marked && key in old(repository.claims)
                        && old(repository.claims)[key].state == Claimed
      ensures repository.claims
              == if sent then old(repository.claims)[key := old(repository.claims)[key].(state := InProcess)]
                 else old(repository.claims)
      ensures result == if sent then (if w.cycleOk then Completed else Failed)
                        else if w.preparation.Proceed? || w.preparation.Fails? then Failed else Completed
      ensures guarded == if sent then w.cycleOk else w.preparation.HoldGuarded?
      ensures state == if sent && ShutdownCall in w.interruptions then Stopping else Processing
      ensures shutdownRequested == (old(shutdownRequested) || (sent && ShutdownCall in w.interruptions))
      ensures forall i :: 0 <= i < |trace| ==> !trace[i].Start? && !trace[i].Restart?
    {
      hide *;
      ghost var start := View();
      var going; ghost var action;
      going, result, guarded, action := Prepare(key, w.preparation, w.marked, pid);
      trace := [action];
      OneStep(start, action);
      if going {
        ghost var more := RunCycle(key, w, pid);
        Join(start, trace, more);
        trace := trace + more;
        result, guarded := if w.cycleOk then Completed else Failed, w.cycleOk;
      }
      sent := going;
    }

    /** Prepares the claimed candle, dispatches it at most once, and records how it went. */
    method Handle(key: Identifier, w: World, ghost pid: nat)
      returns (recorded: Option<Identifier>, ghost sent: bool, ghost trace: seq<Action>)
      requires processing && state == Processing && pid in polls && polls[pid].pc == Preparing(key)
      modifies this, repository
      ensures View() == RunFrom(old(View()), trace)
      ensures processing && pid in polls && polls[pid].pc == Ending && state != Faulted
      ensures dispatched == if sent then old(dispatched) + [key] else old(dispatched)
      ensures key in old(repository.claims) && old(repository.claims)[key].state == Claimed
              && key !in old(repository.decisions) ==>
                Handled(w, key, old(repository.claims), old(repository.decisions), repository.claims,
                        repository.decisions, sent, recorded)
      ensures recorded.Some? ==> recorded.value == key && key in repository.decisions
      ensures shutdownRequested == (old(shutdownRequested) || (sent && ShutdownCall in w.interruptions))
      ensures forall i :: 0 <= i < |trace| ==> !trace[i].Start? && !trace[i].Restart?
    {
      hide *;
      OpenStates();
      ghost var start, before, decided := View(), repository.claims, repository.decisions;
      var result, guarded, ok; ghost var more;
      result, guarded, sent, trace := Attempt(key, w, pid);
      ghost var mid := repository.claims;
      ok, more := Conclude(key, result, guarded, w, pid);
      Join(start, trace, more);
      trace := trace + more;
      if key in before && before[key].state == Claimed && key !in decided {
        HandledBy(w, key, before, mid, repository.claims, decided, repository.decisions, sent, result, guarded, ok);
      }
      recorded := if ok && result == Completed then Some(key) else None;
    }

    /** Processes the newest timely candle: claim, prepare, dispatch at most once, record. */
    method Process(c: Candle, w: World, ghost pid: nat)
      returns (recorded: Option<Identifier>, ghost sent: bool, ghost trace: seq<Action>)
      requires processing && state == Polling && pid in polls && polls[pid].pc == Discovering(c)
      modifies this, repository
      ensures View() == RunFrom(old(View()), trace)
      ensures processing && pid in polls && polls[pid].pc == Ending && state != Faulted
      ensures dispatched == if sent then old(dispatched) + [c.key] else old(dispatched)
      ensures c.key !in old(repository.claims) && c.key !in old(repository.decisions) ==>
                Processed(w, c, old(repository.claims), old(repository.decisions), repository.claims,
                          repository.decisions, sent, recorded)
      ensures c.key in old(repository.claims) && old(repository.claims)[c.key].state != Discovered ==>
                && repository.claims == old(repository.claims) && repository.decisions == old(repository.decisions)
                && !sent && recorded.None?
      ensures shutdownRequested == (old(shutdownRequested) || (sent && ShutdownCall in w.interruptions))
      ensures recorded.Some? ==> recorded.value == c.key && c.key in repository.decisions
      ensures forall i :: 0 <= i < |trace| ==> !trace[i].Start? && !trace[i].Restart?
    {
      hide RunFrom, Step, View;
      ghost var start := View();
      recorded, sent := None, false;
      var ok;
      ok, trace := Take(c, w, pid);
      if ok {
        ghost var more;
        recorded, sent, more := Handle(c.key, w, pid);
        Join(start, trace, more);
        trace := trace + more;
      }
    }

    /** Accepts a poll: the plan is made against the claims as they stand. */
    method Accept(candles: seq<Candle>, ghost pid: nat) returns (plan: Pc)
      requires pid !in polls && !processing && state == Ready
      modifies this
      ensures View() == Step(old(View()), Begin(pid, candles))
      ensures plan == Plan(old(repository.claims), candles) && plan.Missing?
      ensures polls == old(polls)[pid := Poll(plan, [])] && processing && state == Polling
      ensures dispatched == old(dispatched) && shutdownRequested == old(shutdownRequested)
      ensures repository.claims == old(repository.claims) && repository.decisions == old(repository.decisions)
    {
      processing := true;
      state := Polling;
      plan := Plan(repository.claims, candles);
      polls := polls[pid := Poll(plan, [])];
    }

    /** All missed candles are recorded; what remains is the candidate, if there is one. */
    ghost method Turn(candidate: Option<Candle>, pid: nat)
      requires pid in polls && polls[pid].pc == Missing([], candidate)
      modifies this`polls
      ensures View() == Step(old(View()), Advance(pid, true, GoOn))
      ensures polls
              == old(polls)[pid :=
                            old(polls[pid]).(pc := if candidate.Some? then Discovering(candidate.value) else Ending)]
    {
      polls := polls[pid := polls[pid].(pc := if candidate.Some? then Discovering(candidate.value) else Ending)];
    }

    /** The poll's finally block. */
    method EndPoll(ghost pid: nat)
      requires pid in polls && polls[pid].pc == Ending
      modifies this
      ensures View() == Step(old(View()), Advance(pid, true, GoOn))
      ensures !processing && polls == old(polls) - {pid} && dispatched == old(dispatched)
              && shutdownRequested == old(shutdownRequested)
      ensures state == if old(state) == Faulted then Faulted else if shutdownRequested then Stopped else Ready
    {
      processing := false;
      if state != Faulted {
        state := if shutdownRequested then Stopped else Ready;
      }
      polls := polls - {pid};
    }

    /** Carries out the plan: the missed candles first, then the candidate if all of them could be recorded. */
    method Carry(candles: seq<Candle>, plan: Pc, w: World, ghost pid: nat)
      returns (recorded: Option<Identifier>, ghost sent: bool, ghost noted: map<Identifier, Claim>,
               ghost trace: seq<Action>)
      requires processing && state == Polling && pid in polls && polls[pid].pc == plan
      requires plan == Plan(repository.claims, candles) && plan.Missing?
      modifies this, repository
      ensures View() == RunFrom(old(View()), trace)
      ensures forall i :: 0 <= i < |trace| ==> !trace[i].Start? && !trace[i].Restart?
      ensures processing && pid in polls && polls[pid].pc == Ending && state != Faulted
      ensures shutdownRequested == (old(shutdownRequested) || (sent && ShutdownCall in w.interruptions))
      ensures Noted(w, candles, old(repository.claims), noted)
      ensures || (repository.claims == noted && repository.decisions == old(repository.decisions)
                  && dispatched == old(dispatched) && !sent && recorded.None?)
              || exists k: nat :: Newest(old(repository.claims), candles, k)
                   && dispatched == (if sent then old(dispatched) + [candles[k].key] else old(dispatched))
                   && Taken(w, candles, k, old(repository.claims), noted, old(repository.decisions),
                            repository.claims, repository.decisions, sent, recorded)
      ensures DistinctKeys(candles) && (forall j: nat :: w.missedStored(j)) ==>
                forall k: nat :: Newest(old(repository.claims), candles, k) ==>
                  Taken(w, candles, k, old(repository.claims), noted, old(repository.decisions),
                        repository.claims, repository.decisions, sent, recorded)
    {
      hide *;
      ghost var start, before, decided := View(), repository.claims, repository.decisions;
      recorded, sent := None, false;
      PlanUnclaimed(before, candles);
      var ok; ghost var more;
      ok, trace := RecordMissed(plan.missed, plan.candidate, w.missedStored, pid);
      noted := repository.claims;
      PlanNoted(w, candles, before, noted, plan, ok);
      if ok {
        Turn(plan.candidate, pid);
        Extend(start, trace, Advance(pid, true, GoOn));
        trace := trace + [Advance(pid, true, GoOn)];
        if plan.candidate.Some? {
          recorded, sent, more := Process(plan.candidate.value, w, pid);
          Join(start, trace, more);
          trace := trace + more;
          if plan.candidate.value.key !in noted {
            PlanTaken(w, candles, before, noted, plan, decided, repository.claims, repository.decisions, sent,
                      recorded);
          }
        }
      }
    }

    /**
     * One bounded poll. It raises when the runtime is not ready; while another poll is processing it returns at
     * once; otherwise it dispatches at most one candle, the newest timely one, and leaves the runtime ready, or
     * stopped if a shutdown came.
     */
    method PollOnce(candles: seq<Candle>, w: World, ghost pid: nat)
      returns (raised: bool, recorded: Option<Identifier>, ghost sent: bool, ghost noted: map<Identifier, Claim>,
               ghost trace: seq<Action>)
      requires pid !in polls
      modifies this, repository
      ensures View() == RunFrom(old(View()), trace)
      ensures forall i :: 0 <= i < |trace| ==> !trace[i].Start? && !trace[i].Restart?
      ensures raised <==> !old(processing) && old(state) != Ready
      ensures old(processing) || old(state) != Ready ==> View() == old(View()) && recorded.None?
      ensures !old(processing) && old(state) == Ready ==>
                && !processing && pid !in polls
                && state == (if shutdownRequested then Stopped else Ready)
                && shutdownRequested == (old(shutdownRequested) || (sent && ShutdownCall in w.interruptions))
                && Noted(w, candles, old(repository.claims), noted)
      ensures !old(processing) && old(state) == Ready ==>
                || (repository.claims == noted && repository.decisions == old(repository.decisions)
                    && dispatched == old(dispatched) && !sent && recorded.None?)
                || exists k: nat :: Newest(old(repository.claims), candles, k)
                     && dispatched == (if sent then old(dispatched) + [candles[k].key] else old(dispatched))
                     && Taken(w, candles, k, old(repository.claims), noted, old(repository.decisions),
                              repository.claims, repository.decisions, sent, recorded)
      ensures !old(processing) && old(state) == Ready && DistinctKeys(candles)
              && (forall j: nat :: w.missedStored(j)) ==>
                forall k: nat :: Newest(old(repository.claims), candles, k) ==>
                  Taken(w, candles, k, old(repository.claims), noted, old(repository.decisions),
                        repository.claims, repository.decisions, sent, recorded)
    {
      hide *;
      ghost var start, before, decided := View(), repository.claims, repository.decisions;
      raised, recorded, sent, noted, trace := false, None, false, before, [];
      EmptyRun(start);
      if processing || state != Ready {
        raised := !processing;
        return;
      }
      var plan := Accept(candles, pid);
      OneStep(start, Begin(pid, candles));
      trace := [Begin(pid, candles)];
      ghost var more;
      recorded, sent, noted, more := Carry(candles, plan, w, pid);
      Join(start, trace, more);
      trace := trace + more;
      EndPoll(pid);
      Extend(start, trace, Advance(pid, true, GoOn));
      trace := trace + [Advance(pid, true, GoOn)];
    }
  }

  lemma EmptyRun(s: State)
    ensures RunFrom(s, []) == s
  {}

  lemma OneStep(s: State, a: Action)
    ensures RunFrom(s, [a]) == Step(s, a)
  {
    Extend(s, [], a);
    assert [] + [a] == [a];
  }

  /** A method's trace, appended to any run, is a run: the protocol's guarantees hold of it. */
  lemma {:induction false} CallsAreRuns(actions: seq<Action>, trace: seq<Action>)
    ensures Run(actions + trace) == RunFrom(Run(actions), trace)
  {
    hide Step;
    if trace == [] {
      assert actions + trace == actions;
    } else {
      var n := |trace| - 1;
      CallsAreRuns(actions, trace[..n]);
      assert (actions + trace)[..|actions + trace| - 1] == actions + trace[..n];
    }
  }
}
