/**
 * Concrete runs of the execution machine: a restart that leaves an uncertain execution behind while control
 * stays enabled, and a record that recovery invalidates.
 */
module ExecutionExamples {
  import opened Prelude
  import opened RiskTypes
  import opened ExecutionTypes
  import opened ExecutionStore
  import opened ExecutionProtocol
  import F = PreflightModel
  import R = RiskEngineModel

  // ----- what a restart leaves behind -----

  /** The restart made an uncertain record of this one. */
  predicate MadeUnknown(before: Store, after: Store, id: Identifier) {
    && id in before.records && before.records[id].phase != Unknown
    && id in after.records && after.records[id].phase == Unknown
  }

  /**
   * Recovery never touches the control log: it leaves a newly uncertain execution behind without halting exactly
   * when it finds an execution dispatched or submitted while control is not halted already.
   */
  lemma RestartWithoutHaltIff(s: State, at: Instant)
    requires ClockCurrent(s.store, at) && RecoverAll(s.store, at).Some?
    ensures var after := Next(s, Restart(at)).store;
            && after.control == s.store.control
            && ((exists id :: MadeUnknown(s.store, after, id)) && ControlState(after.control) != ControlHalted
                <==> (exists id :: id in s.store.records && s.store.records[id].phase in {Dispatching, Submitted})
                     && ControlState(s.store.control) != ControlHalted)
  {
    var after := Next(s, Restart(at)).store;
    forall id | id in s.store.records
      ensures MadeUnknown(s.store, after, id) <==> s.store.records[id].phase in {Dispatching, Submitted}
    {
      assert after.records[id] == RecoverRecord(s.store.records[id], at).value;
    }
  }

  // ----- one execution, lost in a crash -----

  const QUOTE := F.Tick(0, 99.0, 100.0, 1.0)
  const CAPABLE := F.Capabilities(true, true, true, true, true, true)
  const SHADOW := F.ShadowIntent("c", "analysis", R.SAMPLE_PROPOSAL.(snapshotId := "analysis"), 5.0, 100.0)
  const CANDIDATE := F.Candidate("EURUSD", 0, SHADOW, "source", "intent", "trade", "p")
  const OBSERVED := F.Observation(R.SAMPLE_SNAPSHOT, R.SAMPLE_CONTEXT, QUOTE, "demo", true, 0, CAPABLE)
  const DEMO := Env(F.Acceptance("a", "demo"), F.Policy(10, 10, 10, 100, 2.0, 1.0, 0.0))
  const FINAL := F.FinalObservation(true, true, "a", "demo", 0, true, "EURUSD", QUOTE, 1.0, Full, CAPABLE, true)
  const FRESH := Preflight(0, 0, "analysis", "s", 100.0, 100.0, 1.0, 0.0, 0)
  const INTENT :=
    Intent("intent", "trade", "source", "a", "demo", "EURUSD", Buy, 5.0, 100.0, 100.0, 90.0, 120.0, 0, 0, 100)
  const CHECKED := OrderCheck(true, 0)
  const PASSED := Guard(0, None)
  const BEGIN := BeginExecute(R.SAMPLE_SETTINGS, CANDIDATE, OBSERVED, DEMO, true, 0, 0, 0, "owner")

  /** The fresh risk decision on the sample account. */
  function Approval(): Revalidation
    requires ValidContext(R.SAMPLE_CONTEXT)
    requires R.Evaluation(R.SAMPLE_SETTINGS, R.SAMPLE_PROPOSAL, R.SAMPLE_SNAPSHOT, R.SAMPLE_CONTEXT, 0).Some?
  {
    Revalidation(R.SAMPLE_PROPOSAL,
                 R.Evaluation(R.SAMPLE_SETTINGS, R.SAMPLE_PROPOSAL, R.SAMPLE_SNAPSHOT, R.SAMPLE_CONTEXT, 0).value, 0)
  }

  lemma FreshFacts()
    ensures F.ValidateFresh(CANDIDATE, OBSERVED, DEMO.acceptance, DEMO.policy, 0, 0) == F.Ok(FRESH)
    ensures F.ValidPolicy(DEMO.policy) && F.ValidShadow(SHADOW)
  {
    assert AbsReal(100.0 - 100.0) / 1.0 == 0.0;
    assert 0.0 * 1.0 / 1.0 == 0.0;
    assert F.ExactDeviationPoints(0.0, 1.0, 1.0) == F.Ok(0);
  }

  lemma BeginClaims()
    ensures ValidContext(R.SAMPLE_CONTEXT)
    ensures R.Evaluation(R.SAMPLE_SETTINGS, R.SAMPLE_PROPOSAL, R.SAMPLE_SNAPSHOT, R.SAMPLE_CONTEXT, 0).Some?
    ensures Begin(BEGIN) == Claiming(DEMO, INTENT, FRESH, Approval(), "owner")
  {
    R.HealthyAccountApproved();
    FreshFacts();
    hide R.Evaluation, F.ValidateFresh, ValidSettings;
    assert F.RevalidationProposal(CANDIDATE, OBSERVED, FRESH) == R.SAMPLE_PROPOSAL;
  }

  function ClaimedBy(v: Revalidation): Record { ClaimRecord(INTENT, FRESH, v, "owner", 0) }

  function DispatchingBy(v: Revalidation): Record {
    Extend(ClaimedBy(v), Dispatching, 0, None, Some(CHECKED), Some(PASSED), None, None)
  }

  const ENABLED_LOG := [ControlEvent(None, ControlDisabled, 0), ControlEvent(Some(ControlDisabled), ControlEnabled, 0)]

  function StoreOf(r: Record): Store {
    Store(map["intent" := r], map["source" := "intent"], map["trade" := "intent"], ENABLED_LOG)
  }

  lemma ClaimedAndDispatching(v: Revalidation)
    ensures ValidRecord(ClaimedBy(v)) && ValidRecord(DispatchingBy(v))
  {
    ExtendValidIff(ClaimedBy(v), Dispatching, 0, None, Some(CHECKED), Some(PASSED), None, None);
  }

  ghost predicate Reachable(s: State) { exists actions :: Run(actions) == s }

  lemma ReachNext(s: State, a: Action)
    requires Reachable(s)
    ensures Reachable(Next(s, a))
  {
    hide Next;
    var actions :| Run(actions) == s;
    var all := actions + [a];
    assert all[..|actions|] == actions;
    assert Run(all) == Next(s, a);
  }

  /** Operators enable control. */
  lemma EnabledIsReachable()
    ensures Reachable(State(Store(map[], map[], map[], ENABLED_LOG), [], map[]))
  {
    hide Reachable;
    InitialIsReachable();
    var disabled, enabled := Operator(ENABLED_LOG[0]), Operator(ENABLED_LOG[1]);
    ReachNext(Initial, disabled);
    var s1 := Next(Initial, disabled);
    assert s1 == State(Store(map[], map[], map[], [ENABLED_LOG[0]]), [], map[]);
    ReachNext(s1, enabled);
    assert Next(s1, enabled) == State(Store(map[], map[], map[], ENABLED_LOG), [], map[]);
  }

  /** One thread claims the sample intent. */
  lemma ClaimIsReachable(v: Revalidation)
    requires Begin(BEGIN) == Claiming(DEMO, INTENT, FRESH, v, "owner")
    ensures Reachable(State(StoreOf(ClaimedBy(v)), [], map[0 := Checking(DEMO, ClaimedBy(v))]))
  {
    hide Begin, Reachable;
    EnabledIsReachable();
    var s2 := State(Store(map[], map[], map[], ENABLED_LOG), [], map[]);
    ReachNext(s2, ThreadStep(0, BEGIN));
    var s3 := Next(s2, ThreadStep(0, BEGIN));
    assert s3.threads == map[0 := Claiming(DEMO, INTENT, FRESH, v, "owner")];
    ReachNext(s3, ThreadStep(0, DoClaim(0, false)));
    ClaimedAndDispatching(v);
    hide ValidRecord;
    var s4 := Next(s3, ThreadStep(0, DoClaim(0, false)));
    assert s4.store == StoreOf(ClaimedBy(v));
    assert s4.threads == map[0 := Checking(DEMO, ClaimedBy(v))];
  }

  lemma InitialIsReachable()
    ensures Reachable(Initial)
  {
    assert Run([]) == Initial;
  }

  function Standing(store: Store, submitted: seq<Identifier>, pc: Pc): State { State(store, submitted, map[0 := pc]) }

  /** One more step of the one thread. */
  lemma ReachThread(store: Store, submitted: seq<Identifier>, pc: Pc, i: Input, c: Config)
    requires Reachable(Standing(store, submitted, pc)) && c == ExecutionProtocol.Step(Config(store, submitted, pc), i)
    ensures Reachable(Standing(c.store, c.submitted, c.pc))
  {
    hide Reachable, ExecutionProtocol.Step;
    var s := Standing(store, submitted, pc);
    ReachNext(s, ThreadStep(0, i));
    assert Next(s, ThreadStep(0, i)) == Standing(c.store, c.submitted, c.pc);
  }

  lemma GuardPasses(v: Revalidation)
    ensures AfterGuard(ReadingControl(DEMO, ClaimedBy(v), CHECKED, FINAL, 0, true), ControlEnabled)
            == Saving(DispatchingBy(v), SubmitIt)
  {
    ClaimedAndDispatching(v);
    hide ValidRecord;
    F.GuardPassesIff(INTENT, DEMO.acceptance, DEMO.policy, FINAL, true, ControlEnabled, 0);
    assert AbsReal(100.0 - 100.0) == 0.0;
  }

  /** The claimed execution passes its check, and its claim is read back. */
  lemma CheckIsReachable(v: Revalidation)
    requires Reachable(Standing(StoreOf(ClaimedBy(v)), [], Checking(DEMO, ClaimedBy(v))))
    ensures Reachable(Standing(StoreOf(ClaimedBy(v)), [], ReadingControl(DEMO, ClaimedBy(v), CHECKED, FINAL, 0, true)))
  {
    hide Reachable, ValidRecord, AfterGuard;
    var store, r := StoreOf(ClaimedBy(v)), ClaimedBy(v);
    ReachThread(store, [], Checking(DEMO, r), DoCheck(Some(CHECKED), 0),
                Config(store, [], Observing(DEMO, r, CHECKED)));
    ReachThread(store, [], Observing(DEMO, r, CHECKED), DoObserve(Some(FINAL), 0),
                Config(store, [], ReadingClaim(DEMO, r, CHECKED, FINAL, 0)));
    ReachThread(store, [], ReadingClaim(DEMO, r, CHECKED, FINAL, 0), DoReadClaim,
                Config(store, [], ReadingControl(DEMO, r, CHECKED, FINAL, 0, true)));
  }

  lemma DispatchSaves(v: Revalidation)
    ensures Save(StoreOf(ClaimedBy(v)), DispatchingBy(v)) == Some(StoreOf(DispatchingBy(v)))
  {
    var store, d := StoreOf(ClaimedBy(v)), DispatchingBy(v);
    assert d.events[..2] == ClaimedBy(v).events;
    assert store.records["intent" := d] == map["intent" := d];
  }

  /** It passes its guard, and its dispatch is stored. */
  lemma DispatchIsReachable(v: Revalidation)
    requires Reachable(Standing(StoreOf(ClaimedBy(v)), [], ReadingControl(DEMO, ClaimedBy(v), CHECKED, FINAL, 0, true)))
    ensures Reachable(Standing(StoreOf(DispatchingBy(v)), [], Submitting(DispatchingBy(v))))
  {
    var store, r, d := StoreOf(ClaimedBy(v)), ClaimedBy(v), DispatchingBy(v);
    GuardPasses(v);
    DispatchSaves(v);
    hide Reachable, AfterGuard, Save, ClaimedBy, DispatchingBy;
    ReachThread(store, [], ReadingControl(DEMO, r, CHECKED, FINAL, 0, true), DoReadControl,
                Config(store, [], Saving(d, SubmitIt)));
    ReachThread(store, [], Saving(d, SubmitIt), DoSave(false), Config(StoreOf(d), [], Submitting(d)));
  }

  function LostBy(v: Revalidation): Record {
    Extend(DispatchingBy(v), Unknown, 0, Some(DispatchResultUnknown), None, None, Some(Receipt(Uncertain, 0, 0)), None)
  }

  /**
   * The order goes out and the process crashes before the answer is stored: after the restart the execution is
   * uncertain, its intent has been submitted, and control is still enabled.
   */
  lemma CrashAndRestart(v: Revalidation)
    requires Reachable(Standing(StoreOf(DispatchingBy(v)), [], Submitting(DispatchingBy(v))))
    ensures Reachable(Standing(StoreOf(LostBy(v)), ["intent"], Stopped))
  {
    RestartRecovers(v);
    hide Reachable, AfterSubmit, Next;
    var d := DispatchingBy(v);
    var store := StoreOf(d);
    var sent := AfterSubmit(d, None, 0);
    ReachThread(store, [], Submitting(d), DoSubmit(None, 0), Config(store, ["intent"], sent));
    ReachThread(store, ["intent"], sent, Crash, Config(store, ["intent"], Stopped));
    ReachNext(Standing(store, ["intent"], Stopped), Restart(0));
  }

  lemma RestartRecovers(v: Revalidation)
    ensures Next(Standing(StoreOf(DispatchingBy(v)), ["intent"], Stopped), Restart(0))
            == Standing(StoreOf(LostBy(v)), ["intent"], Stopped)
  {
    hide ValidRecord;
    var store := StoreOf(DispatchingBy(v));
    assert RecoverRecord(DispatchingBy(v), 0) == Some(LostBy(v));
    assert RecoverAll(store, 0).Some? && RecoverAll(store, 0).value.records == map["intent" := LostBy(v)];
  }

  /**
   * The halt after an uncertain dispatch is the workflow's, not recovery's: there is a run that ends with a
   * submitted intent whose execution is uncertain while control is enabled and no thread is left to halt it.
   */
  lemma RestartLeavesControlEnabled()
    ensures exists actions ::
              var s := Run(actions);
              && "intent" in s.submitted && "intent" in s.store.records && s.store.records["intent"].phase == Unknown
              && ControlState(s.store.control) == ControlEnabled
              && forall t :: t in s.threads ==> s.threads[t] == Stopped
  {
    BeginClaims();
    var v := Approval();
    ClaimIsReachable(v);
    hide Begin, Run, Approval, StoreOf;
    CheckIsReachable(v);
    DispatchIsReachable(v);
    CrashAndRestart(v);
    LostIsUncertain(v);
    var s := Standing(StoreOf(LostBy(v)), ["intent"], Stopped);
    var actions := RunTo(s);
  }

  lemma RunTo(s: State) returns (actions: seq<Action>)
    requires Reachable(s)
    ensures Run(actions) == s
  {
    hide Run;
    actions :| Run(actions) == s;
  }

  lemma LostIsUncertain(v: Revalidation)
    ensures var store := StoreOf(LostBy(v));
            && "intent" in store.records && store.records["intent"].phase == Unknown
            && ControlState(store.control) == ControlEnabled
  {}

  // ----- recovery behind the clock -----

  /**
   * Recovery with a clock one tick behind the claim: the abandoned record is stored all the same, and it no longer
   * meets its own lifecycle.
   */
  lemma RecoveryBehindClaim(i: Intent, preflight: Preflight, v: Revalidation, owner: Identifier, at: Instant)
    requires i.createdAt <= at
    ensures var r := ClaimRecord(i, preflight, v, owner, at);
            && ValidRecord(r)
            && RecoverRecord(r, at - 1).Some? && !ValidRecord(RecoverRecord(r, at - 1).value)
  {
    var r := ClaimRecord(i, preflight, v, owner, at);
    assert ValidRecord(r);
    RecoveryKeepsLifecycleIff(r, at - 1);
  }
}
