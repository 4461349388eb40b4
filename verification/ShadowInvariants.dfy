/** What the accumulated state says about the agent calls made so far, and when it presents as a valid cycle. */
module ShadowInvariants {
  import opened Prelude
  import opened RiskTypes
  import opened ShadowTypes
  import opened ShadowState

  // ----- the results of a list of calls -----

  function Audits(w: World, q: Request, slots: seq<Slot>): seq<Invocation> {
    if slots == [] then [] else
      var o := Invoke(w, q, slots[|slots| - 1]);
      Audits(w, q, slots[..|slots| - 1]) + if o.audit.Some? then [o.audit.value] else []
  }

  function Answers(w: World, q: Request, slots: seq<Slot>): seq<Output> {
    if slots == [] then [] else
      var o := Invoke(w, q, slots[|slots| - 1]);
      Answers(w, q, slots[..|slots| - 1]) + if o.output.Some? then [o.output.value] else []
  }

  /** Once stage one has passed, its failures are carried on as degradations. */
  function Carried(s: Slot, f: Failure, passed: bool): Failure {
    if passed && s.stage == 1 then f.(disposition := ContinueDegraded) else f
  }

  function Failings(w: World, q: Request, slots: seq<Slot>, passed: bool): seq<Failure> {
    if slots == [] then [] else
      var last := slots[|slots| - 1];
      var o := Invoke(w, q, last);
      Failings(w, q, slots[..|slots| - 1], passed) + if o.failure.Some?
        then [Carried(last, o.failure.value, passed)] else []
  }

  predicate Increasing(slots: seq<Slot>) {
    forall i, j :: 0 <= i < j < |slots| ==> Rank(slots[i]) < Rank(slots[j])
  }

  /** The state holds exactly the results of these calls, in call order. */
  predicate Holds(s: State, w: World, q: Request, slots: seq<Slot>, passed: bool) {
    && s.invocations == Audits(w, q, slots)
    && s.outputs == Answers(w, q, slots)
    && s.failures == Failings(w, q, slots, passed)
    && s.chiefDecisions == ChiefOutputs(s.outputs)
    && s.chiefDecision.None? && s.proposal.None? && s.risk.None?
  }

  predicate StagesOk(stages: map<nat, StageRecord>) {
    forall n :: n in stages ==> stages[n].number == n && ValidStage(stages[n])
  }

  /** One more call adds exactly its own results. */
  lemma CallsOneMore(w: World, q: Request, slots: seq<Slot>, passed: bool, next: Slot)
    ensures var o := Invoke(w, q, next);
            && Audits(w, q, slots + [next]) == Audits(w, q, slots) + (if o.audit.Some? then [o.audit.value] else [])
            && Answers(w, q, slots + [next]) == Answers(w, q, slots) + (if o.output.Some? then [o.output.value] else [])
            && Failings(w, q, slots + [next], passed)
               == Failings(w, q, slots, passed) + (if o.failure.Some?
                                                   then [Carried(next, o.failure.value, passed)] else [])
  {
    hide Invoke, Carried;
    assert (slots + [next])[..|slots|] == slots;
  }

  lemma ChiefOneMore(outputs: seq<Output>, o: Output)
    ensures ChiefOutputs(outputs + [o]) == if o.role == ChiefTrader then ChiefOutputs(outputs) + [o]
            else ChiefOutputs(outputs)
  {
    assert (outputs + [o])[..|outputs|] == outputs;
  }

  lemma AnswerShape(w: World, q: Request, s: Slot)
    ensures Invoke(w, q, s).output == if w(s).Answer? then Some(w(s).output) else None
  {}

  /** Retaining one more outcome; a Chief output must also be appended to the decision history. */
  lemma HoldsOneMore(s: State, w: World, q: Request, slots: seq<Slot>, passed: bool, next: Slot)
    requires Holds(s, w, q, slots, passed) && (next.stage == 1 ==> !passed)
    requires w(next).Answer? ==> w(next).output.role == next.role
    ensures var s' := Retain(s, Invoke(w, q, next));
            && (next.role != ChiefTrader || !w(next).Answer? ==> Holds(s', w, q, slots + [next], passed))
            && (next.role == ChiefTrader && w(next).Answer? ==>
                  Holds(s'.(chiefDecisions := s'.chiefDecisions + [w(next).output]), w, q, slots + [next], passed))
  {
    hide Invoke, Audits, Answers, Failings, ChiefOutputs;
    CallsOneMore(w, q, slots, passed, next);
    AnswerShape(w, q, next);
    var o := Invoke(w, q, next);
    if o.output.Some? {
      ChiefOneMore(s.outputs, o.output.value);
    } else {
      assert s.outputs + [] == s.outputs;
    }
  }

  // ----- where the results come from -----

  lemma {:induction false} AuditFrom(w: World, q: Request, slots: seq<Slot>, v: Invocation) returns (s: Slot)
    requires v in Audits(w, q, slots)
    ensures s in slots && Invoke(w, q, s).audit == Some(v) && v.id == AuditId(w, s)
  {
    var n := |slots| - 1;
    if v in Audits(w, q, slots[..n]) { s := AuditFrom(w, q, slots[..n], v); } else { s := slots[n]; }
  }

  lemma {:induction false} AnswerFrom(w: World, q: Request, slots: seq<Slot>, o: Output) returns (s: Slot)
    requires o in Answers(w, q, slots)
    ensures s in slots && Invoke(w, q, s).output == Some(o)
  {
    var n := |slots| - 1;
    if o in Answers(w, q, slots[..n]) { s := AnswerFrom(w, q, slots[..n], o); } else { s := slots[n]; }
  }

  lemma {:induction false} FailingFrom(w: World, q: Request, slots: seq<Slot>, passed: bool, f: Failure)
    returns (s: Slot)
    requires f in Failings(w, q, slots, passed)
    ensures s in slots && Invoke(w, q, s).failure.Some? && f == Carried(s, Invoke(w, q, s).failure.value, passed)
  {
    var n := |slots| - 1;
    if f in Failings(w, q, slots[..n], passed) {
      s := FailingFrom(w, q, slots[..n], passed, f);
    } else {
      s := slots[n];
    }
  }

  /** Nothing a retained call brought is lost. */
  lemma {:induction false} ResultKept(w: World, q: Request, slots: seq<Slot>, passed: bool, s: Slot)
    requires s in slots
    ensures var o := Invoke(w, q, s);
            && (o.audit.Some? ==> o.audit.value in Audits(w, q, slots))
            && (o.output.Some? ==> o.output.value in Answers(w, q, slots))
            && (o.failure.Some? ==> Carried(s, o.failure.value, passed) in Failings(w, q, slots, passed))
  {
    var n := |slots| - 1;
    if s in slots[..n] { ResultKept(w, q, slots[..n], passed, s); }
  }

  // ----- identities never repeat -----

  lemma IncreasingLast(slots: seq<Slot>)
    requires Increasing(slots) && slots != []
    ensures Increasing(slots[..|slots| - 1]) && slots[|slots| - 1] !in slots[..|slots| - 1]
  {}

  lemma {:induction false} AuditsDistinct(w: World, q: Request, slots: seq<Slot>)
    requires Consistent(w, q) && Increasing(slots)
    ensures Distinct(InvocationIds(Audits(w, q, slots))) && |Audits(w, q, slots)| <= |slots|
  {
    if slots != [] {
      var n := |slots| - 1;
      var before, all := Audits(w, q, slots[..n]), Audits(w, q, slots);
      IncreasingLast(slots);
      AuditsDistinct(w, q, slots[..n]);
      if Invoke(w, q, slots[n]).audit.Some? {
        var id := AuditId(w, slots[n]);
        if id in InvocationIds(before) {
          var i :| 0 <= i < |before| && before[i].id == id;
          var s := AuditFrom(w, q, slots[..n], before[i]);
        }
        DistinctOneMore(InvocationIds(before), id);
        assert InvocationIds(all) == InvocationIds(before) + [id];
      } else {
        assert all == before;
      }
    }
  }

  lemma {:induction false} AnswersDistinct(w: World, q: Request, slots: seq<Slot>)
    requires Consistent(w, q) && Increasing(slots)
    ensures Distinct(OutputIds(Answers(w, q, slots)))
  {
    if slots != [] {
      var n := |slots| - 1;
      var before, all := Answers(w, q, slots[..n]), Answers(w, q, slots);
      IncreasingLast(slots);
      AnswersDistinct(w, q, slots[..n]);
      if w(slots[n]).Answer? {
        var id := OutputOf(Own(slots[n]));
        if id in OutputIds(before) {
          var i :| 0 <= i < |before| && before[i].id == id;
          var s := AnswerFrom(w, q, slots[..n], before[i]);
        }
        DistinctOneMore(OutputIds(before), id);
        assert OutputIds(all) == OutputIds(before) + [id];
      } else {
        assert all == before;
      }
    }
  }

  lemma {:induction false} FailingsDistinct(w: World, q: Request, slots: seq<Slot>, passed: bool)
    requires Increasing(slots)
    ensures Distinct(FailureIds(Failings(w, q, slots, passed)))
    ensures forall id :: id in FailureIds(Failings(w, q, slots, passed)) ==> id.FailureOf?
  {
    if slots != [] {
      var n := |slots| - 1;
      var before, all := Failings(w, q, slots[..n], passed), Failings(w, q, slots, passed);
      IncreasingLast(slots);
      FailingsDistinct(w, q, slots[..n], passed);
      if Invoke(w, q, slots[n]).failure.Some? {
        var id := FailureOf(Own(slots[n]));
        if id in FailureIds(before) {
          var i :| 0 <= i < |before| && before[i].id == id;
          var s := FailingFrom(w, q, slots[..n], passed, before[i]);
        }
        DistinctOneMore(FailureIds(before), id);
        assert FailureIds(all) == FailureIds(before) + [id];
      } else {
        assert all == before;
      }
    }
  }

  lemma References(w: World, q: Request, slots: seq<Slot>, passed: bool)
    requires Consistent(w, q)
    ensures ReferencesMatch(Audits(w, q, slots), Answers(w, q, slots), Failings(w, q, slots, passed))
  {
    var audits, answers, failings := Audits(w, q, slots), Answers(w, q, slots), Failings(w, q, slots, passed);
    forall v | v in audits
      ensures v.output.Some? ==> v.output.value in OutputIds(answers)
      ensures v.failure.Some? ==> v.failure.value in FailureIds(failings)
    {
      AuditReferences(w, q, slots, passed, v);
    }
    forall o | o in answers ensures exists v :: v in audits && v.output == Some(o.id) {
      var s := AnswerFrom(w, q, slots, o);
      ResultKept(w, q, slots, passed, s);
    }
  }

  lemma AuditReferences(w: World, q: Request, slots: seq<Slot>, passed: bool, v: Invocation)
    requires v in Audits(w, q, slots)
    ensures v.output.Some? ==> v.output.value in OutputIds(Answers(w, q, slots))
    ensures v.failure.Some? ==> v.failure.value in FailureIds(Failings(w, q, slots, passed))
  {
    var s := AuditFrom(w, q, slots, v);
    ResultKept(w, q, slots, passed, s);
    var o := Invoke(w, q, s);
    if v.output.Some? { OutputIdIn(Answers(w, q, slots), o.output.value); }
    if v.failure.Some? { FailureIdIn(Failings(w, q, slots, passed), Carried(s, o.failure.value, passed)); }
  }

  lemma OutputIdIn(outputs: seq<Output>, o: Output)
    requires o in outputs
    ensures o.id in OutputIds(outputs)
  {
    var i :| 0 <= i < |outputs| && outputs[i] == o;
    assert OutputIds(outputs)[i] == o.id;
  }

  lemma FailureIdIn(failures: seq<Failure>, f: Failure)
    requires f in failures
    ensures f.id in FailureIds(failures)
  {
    var i :| 0 <= i < |failures| && failures[i] == f;
    assert FailureIds(failures)[i] == f.id;
  }

  // ----- stages -----

  lemma {:induction false} StageInvocationsDistinct(invocations: seq<Invocation>, n: nat)
    requires Distinct(InvocationIds(invocations))
    ensures Distinct(StageInvocations(invocations, n))
    ensures forall id :: id in StageInvocations(invocations, n) ==> id in InvocationIds(invocations)
  {
    if invocations != [] {
      var m := |invocations| - 1;
      var ids := InvocationIds(invocations);
      assert InvocationIds(invocations[..m]) == ids[..m];
      StageInvocationsDistinct(invocations[..m], n);
      assert ids[m] !in ids[..m];
      DistinctOneMore(StageInvocations(invocations[..m], n), ids[m]);
      assert StageInvocations(invocations[..m], n) + [] == StageInvocations(invocations[..m], n);
      assert ids == ids[..m] + [ids[m]];
    }
  }

  lemma {:induction false} StageFailuresDistinct(failures: seq<Failure>, n: nat)
    requires Distinct(FailureIds(failures))
    ensures Distinct(StageFailures(failures, n))
    ensures forall id :: id in StageFailures(failures, n) ==> id in FailureIds(failures)
  {
    if failures != [] {
      var m := |failures| - 1;
      var ids := FailureIds(failures);
      assert FailureIds(failures[..m]) == ids[..m];
      StageFailuresDistinct(failures[..m], n);
      assert ids[m] !in ids[..m];
      DistinctOneMore(StageFailures(failures[..m], n), ids[m]);
      assert StageFailures(failures[..m], n) + [] == StageFailures(failures[..m], n);
      assert ids == ids[..m] + [ids[m]];
    }
  }

  /** Ids in the state are distinct, whatever it holds. */
  predicate Unique(s: State) { Distinct(InvocationIds(s.invocations)) && Distinct(FailureIds(s.failures)) }

  lemma HoldsUnique(s: State, w: World, q: Request, slots: seq<Slot>, passed: bool)
    requires Holds(s, w, q, slots, passed) && Consistent(w, q) && Increasing(slots)
    ensures Unique(s)
  {
    AuditsDistinct(w, q, slots);
    FailingsDistinct(w, q, slots, passed);
  }

  /** Recording a stage cannot fail: its ids are a selection of distinct ids. */
  lemma SetStageOk(s: State, n: nat, status: StageStatus)
    requires Unique(s) && StagesOk(s.stages)
    ensures StagesOk(SetStage(s, n, status).stages)
  {
    StageInvocationsDistinct(s.invocations, n);
    StageFailuresDistinct(s.failures, n);
  }

  predicate AllStages(stages: map<nat, StageRecord>) { forall n :: 1 <= n <= 6 ==> n in stages }

  lemma {:induction false} FillFromOk(s: State, n: nat)
    requires Unique(s) && StagesOk(s.stages) && 1 <= n <= 7 && forall m :: 1 <= m < n ==> m in s.stages
    ensures var s' := FillFrom(s, n);
            && StagesOk(s'.stages) && AllStages(s'.stages) && s' == s.(stages := s'.stages)
            && forall m :: m in s.stages ==> m in s'.stages && s'.stages[m] == s.stages[m]
    decreases 7 - n
  {
    if n <= 6 {
      var next := if n in s.stages then s else SetStage(s, n, StageSkipped);
      SetStageOk(s, n, StageSkipped);
      FillFromOk(next, n + 1);
    }
  }

  /** Every recorded stage lists exactly what was invoked and what failed in it. */
  predicate Filed(s: State) { forall n :: n in s.stages ==> FiledAt(s, n) }

  predicate FiledAt(s: State, n: nat)
    requires n in s.stages
  {
    && s.stages[n].invocations == StageInvocations(s.invocations, n)
    && s.stages[n].failures == StageFailures(s.failures, n)
  }

  /** A call belongs to a stage that is not recorded yet. */
  lemma FiledCall(s: State, w: World, q: Request, next: Slot)
    requires Filed(s) && next == SlotFor(next.role, next.round) && next.stage !in s.stages
    ensures Filed(Retain(s, Invoke(w, q, next)))
  {
    var s' := Retain(s, Invoke(w, q, next));
    forall n | n in s'.stages ensures FiledAt(s', n) {
      assert FiledAt(s, n);
      var v, f := s'.invocations, s'.failures;
      assert v == s.invocations || v[..|v| - 1] == s.invocations;
      assert f == s.failures || f[..|f| - 1] == s.failures;
      assert StageInvocations(s.invocations, n) + [] == StageInvocations(s.invocations, n);
      assert StageFailures(s.failures, n) + [] == StageFailures(s.failures, n);
    }
  }

  lemma FiledStage(s: State, n: nat, status: StageStatus)
    requires Filed(s)
    ensures Filed(SetStage(s, n, status))
  {
    var s' := SetStage(s, n, status);
    forall m | m in s'.stages ensures FiledAt(s', m) {
      if m != n { assert FiledAt(s, m); }
    }
  }

  lemma FiledFill(s: State, n: nat)
    requires Filed(s)
    ensures Filed(FillFrom(s, n))
    decreases 7 - n
  {
    if n <= 6 {
      FiledStage(s, n, StageSkipped);
      FiledFill(if n in s.stages then s else SetStage(s, n, StageSkipped), n + 1);
    }
  }

  lemma {:induction false} DegradedStage(failures: seq<Failure>, n: nat)
    ensures StageFailures(Degraded(failures), n) == StageFailures(failures, n)
  {
    if failures != [] {
      var m := |failures| - 1;
      assert Degraded(failures)[..m] == Degraded(failures[..m]);
      DegradedStage(failures[..m], n);
    } else {
      assert Degraded(failures) == [];
    }
  }

  lemma FiledReplaced(s: State)
    requires Filed(s) && Distinct(FailureIds(s.failures))
    ensures Filed(ReplaceFailures(s, Degraded(s.failures)))
  {
    var s' := ReplaceFailures(s, Degraded(s.failures));
    assert s'.failures == Degraded(s.failures) by {
      forall i | 0 <= i < |s.failures| ensures s'.failures[i] == Degraded(s.failures)[i] { LookUpSame(s.failures, i); }
    }
    forall n | n in s'.stages ensures FiledAt(s', n) {
      assert FiledAt(s, n);
      DegradedStage(s.failures, n);
    }
  }

  /** A system failure belongs to no stage. */
  lemma FiledSystemFailure(s: State, q: Request, category: FailureCategory)
    requires Filed(s)
    ensures Filed(AddSystemFailure(s, q, category))
  {
    var s' := AddSystemFailure(s, q, category);
    forall n | n in s'.stages ensures FiledAt(s', n) {
      assert FiledAt(s, n);
      assert s'.failures[..|s'.failures| - 1] == s.failures;
      assert StageFailures(s.failures, n) + [] == StageFailures(s.failures, n);
    }
  }

  lemma {:induction false} ListedInvocations(invocations: seq<Invocation>, n: nat, id: InvocationId)
    ensures id in StageInvocations(invocations, n)
            <==> exists v :: v in invocations && v.id == id && v.slot.stage == n
  {
    if invocations != [] {
      var m := |invocations| - 1;
      ListedInvocations(invocations[..m], n, id);
      assert invocations == invocations[..m] + [invocations[m]];
    }
  }

  lemma {:induction false} ListedFailures(failures: seq<Failure>, n: nat, id: FailureId)
    ensures id in StageFailures(failures, n)
            <==> exists f :: f in failures && f.id == id && f.role.Some? && StageOf(f.role.value) == n
  {
    if failures != [] {
      var m := |failures| - 1;
      ListedFailures(failures[..m], n, id);
      assert failures == failures[..m] + [failures[m]];
    }
  }

  // ----- carrying stage-one failures on -----

  function Degraded(failures: seq<Failure>): seq<Failure> {
    seq(|failures|, i requires 0 <= i < |failures| => failures[i].(disposition := ContinueDegraded))
  }

  lemma {:induction false} LookUpSame(failures: seq<Failure>, i: nat)
    requires Distinct(FailureIds(failures)) && i < |failures|
    ensures LookUp(Degraded(failures), failures[i]) == failures[i].(disposition := ContinueDegraded)
  {
    var n := |failures| - 1;
    if i < n {
      var ids := FailureIds(failures);
      assert ids[i] != ids[n];
      assert FailureIds(failures[..n]) == ids[..n];
      assert Degraded(failures)[..n] == Degraded(failures[..n]);
      LookUpSame(failures[..n], i);
      assert failures[..n][i] == failures[i];
    }
  }

  lemma {:induction false} CarriedOn(w: World, q: Request, slots: seq<Slot>)
    requires forall i :: 0 <= i < |slots| ==> slots[i].stage == 1
    ensures Failings(w, q, slots, true) == Degraded(Failings(w, q, slots, false))
  {
    if slots != [] { CarriedOn(w, q, slots[..|slots| - 1]); }
  }

  /** Replacing the retained failures of stage one by their degraded copies carries exactly those on. */
  lemma HoldsReplaced(s: State, w: World, q: Request, slots: seq<Slot>)
    requires Holds(s, w, q, slots, false) && Increasing(slots) && forall i :: 0 <= i < |slots| ==> slots[i].stage == 1
    ensures Holds(ReplaceFailures(s, Degraded(s.failures)), w, q, slots, true)
  {
    FailingsDistinct(w, q, slots, false);
    CarriedOn(w, q, slots);
    forall i | 0 <= i < |s.failures|
      ensures LookUp(Degraded(s.failures), s.failures[i]) == Degraded(s.failures)[i]
    {
      LookUpSame(s.failures, i);
    }
    assert ReplaceFailures(s, Degraded(s.failures)).failures == Degraded(s.failures);
  }

  // ----- presenting the cycle -----

  function Present(q: Request, s: State, startedAt: Instant, completedAt: Instant, disposition: Disposition,
                   source: Source): Cycle
    requires AllStages(s.stages)
  {
    Cycle(q.snapshot.cycleId, q.snapshot.snapshotId, q.snapshot.symbol, q.timeframe, startedAt, completedAt,
          q.market, q.context,
          [s.stages[1], s.stages[2], s.stages[3], s.stages[4], s.stages[5], s.stages[6]],
          s.invocations, s.outputs, s.failures, s.chiefDecisions, s.chiefDecision, s.proposal, s.risk,
            disposition, source)
  }

  predicate SameIdentity(q: Request) {
    q.market.cycleId == q.snapshot.cycleId && q.market.snapshotId == q.snapshot.snapshotId
      && q.market.symbol == q.snapshot.symbol
  }

  function SystemFailureFor(q: Request, category: FailureCategory): Failure {
    AddSystemFailure(EmptyState, q, category).failures[0]
  }

  /** The state at the end: held results, plus at most one failure of the orchestrator itself. */
  predicate Collected(s: State, w: World, q: Request, slots: seq<Slot>, passed: bool, extra: Option<FailureCategory>) {
    && s.invocations == Audits(w, q, slots)
    && s.outputs == Answers(w, q, slots)
    && s.failures == Failings(w, q, slots, passed) + if extra.Some? then [SystemFailureFor(q, extra.value)] else []
  }

  lemma CollectedUnique(s: State, w: World, q: Request, slots: seq<Slot>, passed: bool, extra: Option<FailureCategory>)
    requires Collected(s, w, q, slots, passed, extra) && Consistent(w, q) && Increasing(slots)
    ensures Unique(s) && Distinct(OutputIds(s.outputs))
  {
    AuditsDistinct(w, q, slots);
    AnswersDistinct(w, q, slots);
    FailingsDistinct(w, q, slots, passed);
    var agents := Failings(w, q, slots, passed);
    if extra.Some? {
      DistinctOneMore(FailureIds(agents), SystemFailure(extra.value));
      assert FailureIds(s.failures) == FailureIds(agents) + [SystemFailure(extra.value)];
    } else {
      assert s.failures == agents;
    }
  }

  lemma CollectedResultsMatch(s: State, w: World, q: Request, slots: seq<Slot>, passed: bool,
                              extra: Option<FailureCategory>, c: Cycle)
    requires Collected(s, w, q, slots, passed, extra) && Consistent(w, q) && Increasing(slots) && SameIdentity(q)
    requires c.invocations == s.invocations && c.outputs == s.outputs && c.failures == s.failures
    requires c.cycleId == q.snapshot.cycleId && c.snapshotId == q.snapshot.snapshotId
    ensures ResultsMatch(c)
  {
    hide Distinct, ReferencesMatch;
    CollectedUnique(s, w, q, slots, passed, extra);
    forall o | o in s.outputs ensures o.cycleId == c.cycleId && o.snapshotId == c.snapshotId {
      var k := AnswerFrom(w, q, slots, o);
    }
    var agents := Failings(w, q, slots, passed);
    forall f | f in s.failures ensures f.cycleId == c.cycleId && f.snapshotId == c.snapshotId {
      if f in agents { var k := FailingFrom(w, q, slots, passed, f); }
    }
    References(w, q, slots, passed);
    MoreFailuresStillMatch(s.invocations, s.outputs, agents, s.failures);
  }

  lemma MoreFailuresStillMatch(invocations: seq<Invocation>, outputs: seq<Output>, failures: seq<Failure>,
                               more: seq<Failure>)
    requires ReferencesMatch(invocations, outputs, failures) && failures <= more
    ensures ReferencesMatch(invocations, outputs, more)
  {
    forall id | id in FailureIds(failures) ensures id in FailureIds(more) {
      var i :| 0 <= i < |failures| && FailureIds(failures)[i] == id;
      assert FailureIds(more)[i] == id;
    }
  }
}
