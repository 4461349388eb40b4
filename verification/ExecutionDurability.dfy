/**
 * When exactly-once dispatch survives threads that share a database connection. Every write of the execution store
 * changes the cache first and is then inserted and committed on the one connection of its process; a failed write
 * rolls that connection back, whichever thread inserted the rows. A process that starts loads what was executed from
 * the stored revisions alone, and from then on sees in its cache only what its own threads put there.
 */
module ExecutionDurability {
  import opened Prelude

  type Identifier = string

  /** What the claim of an execution is unique in. */
  datatype Intent = Intent(id: Identifier, source: Identifier, client: Identifier)

  predicate Same(i: Intent, j: Intent) { i.id == j.id || i.source == j.source || i.client == j.client }

  /** A row of the intent table, of the revision table, or of any other table of the store. */
  datatype Row =
    | IntentRow(intent: Intent)
    | RevisionRow(intent: Intent, revision: nat)
    | OtherRow(key: Identifier)

  /** Two rows share a primary key or a unique column. */
  predicate Clash(a: Row, b: Row) {
    match a
    case IntentRow(i) => b.IntentRow? && Same(i, b.intent)
    case RevisionRow(i, n) => b.RevisionRow? && i.id == b.intent.id && n == b.revision
    case OtherRow(key) => b.OtherRow? && key == b.key
  }

  /** An execution claims, stores its dispatch and submits; any other writer inserts one row of its own. */
  datatype Work = Execution(intent: Intent) | Writer(row: Row)

  /** `done` counts the writes that came back normally; a submitted execution stands at three. */
  datatype Thread = Thread(pid: nat, work: Work, done: nat, inserted: bool, dead: bool)

  predicate Writing(t: Thread) { !t.dead && t.done < if t.work.Execution? then 2 else 1 }

  /** A claim inserts the intent with its second revision; the dispatch is the third. */
  function RowsOf(t: Thread): set<Row> {
    match t.work
    case Execution(i) => if t.done == 0 then {IntentRow(i), RevisionRow(i, 2)} else {RevisionRow(i, 3)}
    case Writer(row) => {row}
  }

  /** A process is known by the intents it loaded when it started; nothing is left of one that was killed. */
  datatype State = State(
    table: set<Row>,
    uncommitted: set<Row>,
    writer: nat,
    threads: map<nat, Thread>,
    processes: map<nat, Option<set<Intent>>>,
    submitted: seq<Intent>)

  const Initial := State({}, {}, 0, map[], map[], [])

  function Loaded(table: set<Row>): set<Intent> { set r | r in table && r.RevisionRow? :: r.intent }

  predicate Alive(s: State, pid: nat) { pid in s.processes && s.processes[pid].Some? }

  /** A claim stands in the cache of its process from its beginning, and is popped only if it raises. */
  predicate InCache(t: Thread, pid: nat) { t.pid == pid && t.work.Execution? && (0 < t.done || !t.dead) }

  /** What the caches let begin: an execution must share no identity with one that its process knows. */
  predicate Admits(s: State, pid: nat, work: Work) {
    && Alive(s, pid)
    && (work.Execution? ==>
          && (forall i :: i in s.processes[pid].value ==> !Same(i, work.intent))
          && (forall t :: t in s.threads && InCache(s.threads[t], pid) ==>
                !Same(s.threads[t].work.intent, work.intent)))
  }

  /** How a commit ends: acknowledged, not done, or done but reported as failed. */
  datatype Ending = Acknowledged | NotDone | DoneButFailed

  /** Threads are never reused; a process that restarts has a new number. */
  datatype Action =
    | Start(pid: nat)
    | Begin(tid: nat, pid: nat, work: Work)
    | Insert(tid: nat, storageOk: bool)
    | Commit(tid: nat, ending: Ending)
    | Submit(tid: nat)
    | Kill(pid: nat)

  function Open(s: State, pid: nat): set<Row> { if s.writer == pid then s.uncommitted else {} }

  predicate CanInsert(s: State, tid: nat) { tid in s.threads && Writing(s.threads[tid]) && !s.threads[tid].inserted }

  predicate CanCommit(s: State, tid: nat) { tid in s.threads && Writing(s.threads[tid]) && s.threads[tid].inserted }

  predicate CanSubmit(s: State, tid: nat) {
    && tid in s.threads && !s.threads[tid].dead
    && s.threads[tid].work.Execution? && s.threads[tid].done == 2
  }

  predicate InsertSucceeds(s: State, t: Thread, storageOk: bool) {
    && storageOk
    && (s.uncommitted == {} || s.writer == t.pid)
    && forall w, r :: w in s.table + s.uncommitted && r in RowsOf(t) ==> !Clash(w, r)
  }

  function RolledBack(s: State, tid: nat): State
    requires tid in s.threads
  {
    s.(uncommitted := s.uncommitted - Open(s, s.threads[tid].pid),
       threads := s.threads[tid := s.threads[tid].(dead := true, inserted := false)])
  }

  function Step(s: State, a: Action): State {
    match a
    case Start(pid) =>
      if pid in s.processes then s else s.(processes := s.processes[pid := Some(Loaded(s.table))])
    case Begin(tid, pid, work) =>
      if tid in s.threads || !Admits(s, pid, work) then s else
      s.(threads := s.threads[tid := Thread(pid, work, 0, false, false)])
    case Insert(tid, storageOk) =>
      if !CanInsert(s, tid) then s else
      var t := s.threads[tid];
      if InsertSucceeds(s, t, storageOk)
      then s.(uncommitted := s.uncommitted + RowsOf(t), writer := t.pid,
              threads := s.threads[tid := t.(inserted := true)])
      else RolledBack(s, tid)
    case Commit(tid, ending) =>
      if !CanCommit(s, tid) then s else
      var t := s.threads[tid];
      var written := s.(table := s.table + Open(s, t.pid), uncommitted := s.uncommitted - Open(s, t.pid));
      match ending {
        case Acknowledged => written.(threads := s.threads[tid := t.(done := t.done + 1, inserted := false)])
        case NotDone => RolledBack(s, tid)
        case DoneButFailed => written.(threads := s.threads[tid := t.(dead := true, inserted := false)])
      }
    case Submit(tid) =>
      if !CanSubmit(s, tid) then s else
      s.(threads := s.threads[tid := s.threads[tid].(done := 3)],
         submitted := s.submitted + [s.threads[tid].work.intent])
    case Kill(pid) =>
      s.(uncommitted := s.uncommitted - Open(s, pid),
         processes := if pid in s.processes then s.processes[pid := None] else s.processes,
         threads := map t | t in s.threads ::
           if s.threads[t].pid == pid then s.threads[t].(dead := true, inserted := false) else s.threads[t])
  }

  function Run(actions: seq<Action>): State {
    if actions == [] then Initial else Step(Run(actions[..|actions| - 1]), actions[|actions| - 1])
  }

  // ----- the rows an execution relies on -----

  /** The claim makes an execution unique in all three identities; the dispatch makes it unique in its own. */
  datatype Reliance = OnClaim | OnDispatch

  function RelianceRow(i: Intent, k: Reliance): Row {
    if k == OnClaim then IntentRow(i) else RevisionRow(i, 3)
  }

  function WriteOf(k: Reliance): nat { if k == OnClaim then 0 else 1 }

  /** The write of that row has come back normally. */
  predicate Relies(t: Thread, k: Reliance) { t.work.Execution? && WriteOf(k) < t.done }

  /** The row has been inserted and the call has not come back yet. */
  predicate Waits(t: Thread, k: Reliance) { t.work.Execution? && !t.dead && t.inserted && t.done == WriteOf(k) }

  predicate Concerns(s: State, tid: nat, k: Reliance) {
    tid in s.threads && (Relies(s.threads[tid], k) || Waits(s.threads[tid], k))
  }

  function RowAt(s: State, tid: nat, k: Reliance): Row
    requires tid in s.threads && s.threads[tid].work.Execution?
  {
    RelianceRow(s.threads[tid].work.intent, k)
  }

  predicate RollsBack(s: State, a: Action) {
    match a
    case Insert(tid, storageOk) => CanInsert(s, tid) && !InsertSucceeds(s, s.threads[tid], storageOk)
    case Commit(tid, ending) => CanCommit(s, tid) && ending == NotDone
    case _ => false
  }

  /** If the action rolls a connection back, it takes no such row of another thread with it. */
  predicate Quiet(s: State, a: Action, k: Reliance) {
    RollsBack(s, a) ==>
      forall t :: t in s.threads && t != a.tid && Waits(s.threads[t], k) ==>
          RowAt(s, t, k) !in Open(s, s.threads[a.tid].pid)
  }

  predicate QuietRun(actions: seq<Action>, k: Reliance) {
    forall i :: 0 <= i < |actions| ==> Quiet(Run(actions[..i]), actions[i], k)
  }

  // ----- the invariant -----

  predicate NoClashes(rows: set<Row>) { forall a, b :: a in rows && b in rows && a != b ==> !Clash(a, b) }

  ghost predicate TablesOk(s: State) { s.uncommitted !! s.table && NoClashes(s.table + s.uncommitted) }

  /** What is relied on is durable; what is waited for is durable or still in its own connection. */
  ghost predicate RowsOk(s: State, k: Reliance) {
    forall t :: Concerns(s, t, k) ==>
      RowAt(s, t, k) in s.table || (Waits(s.threads[t], k) && RowAt(s, t, k) in Open(s, s.threads[t].pid))
  }

  ghost predicate ThreadsDiffer(s: State, k: Reliance) {
    forall t, u :: Concerns(s, t, k) && Concerns(s, u, k) && t != u ==> RowAt(s, t, k) != RowAt(s, u, k)
  }

  predicate HasSubmitted(s: State, tid: nat) {
    tid in s.threads && s.threads[tid].work.Execution? && s.threads[tid].done == 3
  }

  predicate SubmittedBy(s: State, tid: nat, i: Intent) { HasSubmitted(s, tid) && s.threads[tid].work.intent == i }

  ghost predicate HasSubmitter(s: State, i: Intent) { exists t :: SubmittedBy(s, t, i) }

  /** Every submission is that of one thread, and no two submissions clash in the row relied on. */
  ghost predicate SubmittedOk(s: State, k: Reliance) {
    && (forall i :: 0 <= i < |s.submitted| ==> HasSubmitter(s, s.submitted[i]))
    && (forall i, j :: 0 <= i < j < |s.submitted| ==> RelianceRow(s.submitted[i], k) != RelianceRow(s.submitted[j], k))
  }

  ghost predicate Inv(s: State, k: Reliance) { TablesOk(s) && RowsOk(s, k) && ThreadsDiffer(s, k) && SubmittedOk(s, k) }

  // ----- one step -----

  lemma ClashSymmetric()
    ensures forall a, b :: Clash(a, b) ==> Clash(b, a)
  {}

  lemma ClashSelf(a: Row)
    ensures Clash(a, a)
  {}

  lemma StepTables(s: State, a: Action)
    requires TablesOk(s)
    ensures TablesOk(Step(s, a))
  {
    ClashSymmetric();
    if a.Insert? && CanInsert(s, a.tid) && InsertSucceeds(s, s.threads[a.tid], a.storageOk) {
      OwnRowsDiffer(s.threads[a.tid]);
      forall r | r in RowsOf(s.threads[a.tid]) ensures r !in s.table { ClashSelf(r); }
    }
  }

  lemma OwnRowsDiffer(t: Thread)
    ensures NoClashes(RowsOf(t))
  {}

  /** A thread comes to concern a row only by inserting it. */
  lemma ConcernsBefore(s: State, a: Action, t: nat, k: Reliance)
    requires Concerns(Step(s, a), t, k)
    ensures t in s.threads && s.threads[t].work == Step(s, a).threads[t].work
            && s.threads[t].pid == Step(s, a).threads[t].pid
    ensures || Concerns(s, t, k)
            || (a == Insert(t, true) && CanInsert(s, t) && InsertSucceeds(s, s.threads[t], true)
                && RelianceRow(s.threads[t].work.intent, k) in RowsOf(s.threads[t]))
  {}

  lemma StepRows(s: State, a: Action, k: Reliance)
    requires RowsOk(s, k) && TablesOk(s) && Quiet(s, a, k)
    ensures RowsOk(Step(s, a), k)
  {
    hide RowsOk, TablesOk, Quiet, Step;
    var s' := Step(s, a);
    forall t | Concerns(s', t, k)
      ensures RowAt(s', t, k) in s'.table || (Waits(s'.threads[t], k) && RowAt(s', t, k) in Open(s', s'.threads[t].pid))
    {
      RowStays(s, a, t, k);
    }
    assert RowsOk(s', k) by { AllRows(s', k); }
  }

  lemma AllRows(s: State, k: Reliance)
    requires forall t :: Concerns(s, t, k) ==>
               RowAt(s, t, k) in s.table || (Waits(s.threads[t], k) && RowAt(s, t, k) in Open(s, s.threads[t].pid))
    ensures RowsOk(s, k)
  {}

  lemma RowStays(s: State, a: Action, t: nat, k: Reliance)
    requires RowsOk(s, k) && TablesOk(s) && Quiet(s, a, k) && Concerns(Step(s, a), t, k)
    ensures var s' := Step(s, a);
            && t in s'.threads && s'.threads[t].work.Execution?
            && (RowAt(s', t, k) in s'.table
                || (Waits(s'.threads[t], k) && RowAt(s', t, k) in Open(s', s'.threads[t].pid)))
  {
    ConcernsBefore(s, a, t, k);
    hide NoClashes, Clash;
    if Concerns(s, t, k) {
      assert RowAt(s, t, k) in s.table || (Waits(s.threads[t], k) && RowAt(s, t, k) in Open(s, s.threads[t].pid));
    }
  }

  lemma StepDiffer(s: State, a: Action, k: Reliance)
    requires RowsOk(s, k) && ThreadsDiffer(s, k)
    ensures ThreadsDiffer(Step(s, a), k)
  {
    hide Step, RowsOk, ThreadsDiffer;
    var s' := Step(s, a);
    forall t, u | Concerns(s', t, k) && Concerns(s', u, k) && t != u ensures RowAt(s', t, k) != RowAt(s', u, k) {
      ConcernsBefore(s, a, t, k);
      ConcernsBefore(s, a, u, k);
      if Concerns(s, t, k) && Concerns(s, u, k) {
        assert RowAt(s, t, k) != RowAt(s, u, k) by { assert ThreadsDiffer(s, k); TheyDiffer(s, t, u, k); }
      } else if Concerns(s, t, k) {
        NewRowIsNew(s, u, t, k);
      } else {
        NewRowIsNew(s, t, u, k);
      }
    }
    AllDiffer(s', k);
  }

  lemma TheyDiffer(s: State, t: nat, u: nat, k: Reliance)
    requires ThreadsDiffer(s, k) && Concerns(s, t, k) && Concerns(s, u, k) && t != u
    ensures RowAt(s, t, k) != RowAt(s, u, k)
  {}

  lemma AllDiffer(s: State, k: Reliance)
    requires forall t, u :: Concerns(s, t, k) && Concerns(s, u, k) && t != u ==> RowAt(s, t, k) != RowAt(s, u, k)
    ensures ThreadsDiffer(s, k)
  {}

  /** What a thread has just inserted differs from every row another thread concerns. */
  lemma NewRowIsNew(s: State, t: nat, u: nat, k: Reliance)
    requires RowsOk(s, k) && Concerns(s, u, k) && CanInsert(s, t) && InsertSucceeds(s, s.threads[t], true)
    requires s.threads[t].work.Execution? && RelianceRow(s.threads[t].work.intent, k) in RowsOf(s.threads[t])
    ensures RowAt(s, t, k) != RowAt(s, u, k)
  {
    ClashSelf(RowAt(s, u, k));
    assert RowAt(s, u, k) in s.table + s.uncommitted;
  }

  lemma SubmitterOf(s: State, k: Reliance, i: nat) returns (t: nat)
    requires SubmittedOk(s, k) && i < |s.submitted|
    ensures HasSubmitted(s, t) && s.threads[t].work.intent == s.submitted[i] && Concerns(s, t, k)
  {
    assert HasSubmitter(s, s.submitted[i]);
    t :| SubmittedBy(s, t, s.submitted[i]);
  }

  lemma SubmittedStays(s: State, a: Action, t: nat)
    requires HasSubmitted(s, t)
    ensures HasSubmitted(Step(s, a), t) && Step(s, a).threads[t].work == s.threads[t].work
  {
    hide InsertSucceeds, RowsOf;
  }

  lemma StepSubmitted(s: State, a: Action, k: Reliance)
    requires SubmittedOk(s, k) && ThreadsDiffer(s, k)
    ensures SubmittedOk(Step(s, a), k)
  {
    var s' := Step(s, a);
    forall i | 0 <= i < |s.submitted| ensures HasSubmitter(s', s.submitted[i]) {
      var t := SubmitterOf(s, k, i);
      SubmittedStays(s, a, t);
      assert SubmittedBy(s', t, s.submitted[i]);
    }
    if a.Submit? && CanSubmit(s, a.tid) {
      var i := s.threads[a.tid].work.intent;
      forall j | 0 <= j < |s.submitted| ensures RelianceRow(s.submitted[j], k) != RelianceRow(i, k) {
        var t := SubmitterOf(s, k, j);
        TheyDiffer(s, t, a.tid, k);
      }
      OneMoreSubmitted(s, s', a.tid, k);
    } else {
      SameSubmitted(s, a);
    }
  }

  lemma SameSubmitted(s: State, a: Action)
    requires !(a.Submit? && CanSubmit(s, a.tid))
    ensures Step(s, a).submitted == s.submitted
  {
    hide InsertSucceeds, RowsOf;
  }

  lemma OneMoreSubmitted(s: State, s': State, tid: nat, k: Reliance)
    requires SubmittedOk(s, k) && HasSubmitted(s', tid) && s'.submitted == s.submitted + [s'.threads[tid].work.intent]
    requires forall i :: 0 <= i < |s.submitted| ==> HasSubmitter(s', s.submitted[i])
    requires forall j :: 0 <= j < |s.submitted| ==>
               RelianceRow(s.submitted[j], k) != RelianceRow(s'.threads[tid].work.intent, k)
    ensures SubmittedOk(s', k)
  {
    var n := |s.submitted|;
    assert SubmittedBy(s', tid, s'.submitted[n]) && HasSubmitter(s', s'.submitted[n]);
    hide RelianceRow, HasSubmitter;
  }

  /** A step keeps the invariant exactly when it rolls back no other thread's row that executions rely on. */
  lemma StepKeepsInvIff(s: State, a: Action, k: Reliance)
    requires Inv(s, k)
    ensures Inv(Step(s, a), k) <==> Quiet(s, a, k)
  {
    if Quiet(s, a, k) {
      hide TablesOk, RowsOk, ThreadsDiffer, SubmittedOk, Step, Quiet;
      StepTables(s, a);
      StepRows(s, a, k);
      StepDiffer(s, a, k);
      StepSubmitted(s, a, k);
    } else {
      LoudStrandsARow(s, a, k);
    }
  }

  lemma LoudStrandsARow(s: State, a: Action, k: Reliance)
    requires Inv(s, k) && !Quiet(s, a, k)
    ensures !RowsOk(Step(s, a), k)
  {
    hide NoClashes, InsertSucceeds, SubmittedOk, ThreadsDiffer;
    var pid := s.threads[a.tid].pid;
    var u :| u in s.threads && u != a.tid && Waits(s.threads[u], k) && RowAt(s, u, k) in Open(s, pid);
    assert Concerns(Step(s, a), u, k);
    assert RowAt(s, u, k) !in s.table;
  }

  // ----- every run -----

  lemma {:induction false} RunKeepsInv(actions: seq<Action>, k: Reliance)
    requires QuietRun(actions, k)
    ensures Inv(Run(actions), k)
  {
    if actions != [] {
      hide Inv, Step, Quiet;
      var n := |actions| - 1;
      forall i | 0 <= i < n ensures Quiet(Run(actions[..n][..i]), actions[..n][i], k) {
        assert actions[..n][..i] == actions[..i];
      }
      RunKeepsInv(actions[..n], k);
      StepKeepsInvIff(Run(actions[..n]), actions[n], k);
    }
  }

  lemma SubmittedRows(s: State, k: Reliance, i: nat, j: nat)
    requires Inv(s, k) && i < j < |s.submitted|
    ensures RelianceRow(s.submitted[i], k) in s.table && RelianceRow(s.submitted[j], k) in s.table
    ensures !Clash(RelianceRow(s.submitted[i], k), RelianceRow(s.submitted[j], k))
  {
    var t := SubmitterOf(s, k, i);
    var u := SubmitterOf(s, k, j);
    hide Clash, ThreadsDiffer;
    assert RelianceRow(s.submitted[i], k) in s.table + s.uncommitted
           && RelianceRow(s.submitted[j], k) in s.table + s.uncommitted;
  }

  /**
   * As long as no rollback takes another thread's claim, no intent, source or client identity is submitted twice,
   * whatever processes, threads, restarts and failed writes the run contains, and every submitted intent is in the
   * table.
   */
  lemma ClaimsKeepDispatchUnique(actions: seq<Action>, i: nat, j: nat)
    requires QuietRun(actions, OnClaim) && i < j < |Run(actions).submitted|
    ensures var s := Run(actions);
            && s.submitted[i].id != s.submitted[j].id && s.submitted[i].source != s.submitted[j].source
            && s.submitted[i].client != s.submitted[j].client
            && IntentRow(s.submitted[i]) in s.table && IntentRow(s.submitted[j]) in s.table
  {
    hide Run, QuietRun, Inv;
    RunKeepsInv(actions, OnClaim);
    SubmittedRows(Run(actions), OnClaim, i, j);
  }

  /**
   * Even when claims are lost, no intent is submitted twice as long as no rollback takes another thread's stored
   * dispatch, and a restart finds the dispatch of whatever was submitted.
   */
  lemma DispatchesKeepDispatchUnique(actions: seq<Action>, i: nat, j: nat)
    requires QuietRun(actions, OnDispatch) && i < j < |Run(actions).submitted|
    ensures var s := Run(actions);
            && s.submitted[i].id != s.submitted[j].id
            && RevisionRow(s.submitted[i], 3) in s.table && RevisionRow(s.submitted[j], 3) in s.table
  {
    hide Run, QuietRun, Inv;
    RunKeepsInv(actions, OnDispatch);
    SubmittedRows(Run(actions), OnDispatch, i, j);
  }

  /** What a process has loaded stays what it has loaded until it is killed. */
  lemma LoadedStays(s: State, a: Action, pid: nat)
    requires pid in s.processes
    ensures pid in Step(s, a).processes
    ensures Alive(Step(s, a), pid) ==> Alive(s, pid) && Step(s, a).processes[pid] == s.processes[pid]
  {
    hide InsertSucceeds, RowsOf, Admits;
  }

  lemma {:induction false} LoadedStaysThrough(actions: seq<Action>, more: seq<Action>, pid: nat)
    requires pid in Run(actions).processes
    ensures pid in Run(actions + more).processes
    ensures Alive(Run(actions + more), pid) ==>
              Alive(Run(actions), pid) && Run(actions + more).processes[pid] == Run(actions).processes[pid]
  {
    hide Step;
    if more == [] {
      assert actions + more == actions;
    } else {
      var n := |more| - 1;
      assert (actions + more)[..|actions + more| - 1] == actions + more[..n];
      LoadedStaysThrough(actions, more[..n], pid);
      LoadedStays(Run(actions + more[..n]), more[n], pid);
    }
  }

  lemma DispatchIsLoaded(s: State, i: nat)
    requires Inv(s, OnDispatch) && i < |s.submitted|
    ensures s.submitted[i] in Loaded(s.table)
  {
    var t := SubmitterOf(s, OnDispatch, i);
    hide TablesOk, ThreadsDiffer;
    assert RowAt(s, t, OnDispatch) in s.table;
    assert RevisionRow(s.submitted[i], 3) in s.table;
  }

  lemma LoadedIsRefused(s: State, pid: nat, i: Intent, j: Intent)
    requires Alive(s, pid) && i in s.processes[pid].value && Same(i, j)
    ensures !Admits(s, pid, Execution(j))
  {}

  /**
   * A restart is safe even when claims are lost: a process that starts after a submission, found by its dispatch,
   * admits nothing that shares the intent, the source or the client identity with it, whatever happens afterwards.
   */
  lemma RestartRefuses(actions: seq<Action>, pid: nat, more: seq<Action>, i: nat, j: Intent)
    requires QuietRun(actions, OnDispatch) && i < |Run(actions).submitted| && pid !in Run(actions).processes
    requires var sent := Run(actions).submitted[i];
             sent.id == j.id || sent.source == j.source || sent.client == j.client
    ensures !Admits(Run(actions + [Start(pid)] + more), pid, Execution(j))
  {
    var s, started := Run(actions), actions + [Start(pid)];
    assert Same(s.submitted[i], j);
    RunKeepsInv(actions, OnDispatch);
    DispatchIsLoaded(s, i);
    assert started[..|started| - 1] == actions;
    assert Run(started) == Step(s, Start(pid));
    assert Run(started).processes[pid] == Some(Loaded(s.table));
    hide Run, QuietRun, Inv, Step, Loaded, Same, Admits;
    LoadedStaysThrough(started, more, pid);
    if Alive(Run(started + more), pid) {
      LoadedIsRefused(Run(started + more), pid, s.submitted[i], j);
    } else {
      DeadAdmitsNothing(Run(started + more), pid, Execution(j));
    }
  }

  lemma DeadAdmitsNothing(s: State, pid: nat, work: Work)
    requires !Alive(s, pid)
    ensures !Admits(s, pid, work)
  {}

  /** No process has two threads inside a write at the same time. */
  predicate OneWriterEach(s: State) {
    forall t, u :: t in s.threads && u in s.threads && t != u && Writing(s.threads[t]) && Writing(s.threads[u]) ==>
                     s.threads[t].pid != s.threads[u].pid
  }

  /** Processes that write one row at a time lose no other thread's row. */
  lemma OneWriterIsQuiet(s: State, a: Action, k: Reliance)
    requires Inv(s, k) && OneWriterEach(s)
    ensures Quiet(s, a, k)
  {
    hide NoClashes, InsertSucceeds, SubmittedOk, ThreadsDiffer;
    if RollsBack(s, a) {
      forall t | t in s.threads && t != a.tid && Waits(s.threads[t], k)
        ensures RowAt(s, t, k) !in Open(s, s.threads[a.tid].pid)
      {
        assert Writing(s.threads[t]) && Writing(s.threads[a.tid]);
        assert Concerns(s, t, k);
      }
    }
  }

  // ----- what lost rows allow -----

  /** Some run leads here and loses none of the rows named. */
  ghost predicate Reach(s: State, kept: set<Reliance>) {
    exists actions :: Run(actions) == s && forall k :: k in kept ==> QuietRun(actions, k)
  }

  lemma ReachNext(s: State, a: Action, kept: set<Reliance>)
    requires Reach(s, kept) && forall k :: k in kept ==> Quiet(s, a, k)
    ensures Reach(Step(s, a), kept)
  {
    hide Step, Quiet;
    var actions :| Run(actions) == s && forall k :: k in kept ==> QuietRun(actions, k);
    var all := actions + [a];
    assert all[..|actions|] == actions;
    forall k, i | k in kept && 0 <= i < |all| ensures Quiet(Run(all[..i]), all[i], k) {
      if i < |actions| {
        assert all[..i] == actions[..i];
        assert QuietRun(actions, k) && Quiet(Run(actions[..i]), actions[i], k);
      }
    }
    assert Run(all) == Step(s, a);
  }

  lemma ReachInitial(kept: set<Reliance>)
    ensures Reach(Initial, kept)
  {
    assert Run([]) == Initial && forall k :: QuietRun([], k);
  }

  lemma StartNow(s: State, pid: nat, kept: set<Reliance>)
    requires Reach(s, kept) && pid !in s.processes
    ensures Reach(s.(processes := s.processes[pid := Some(Loaded(s.table))]), kept)
  {
    hide Reach;
    ReachNext(s, Start(pid), kept);
  }

  lemma BeginNow(s: State, tid: nat, pid: nat, work: Work, kept: set<Reliance>)
    requires Reach(s, kept) && tid !in s.threads && Admits(s, pid, work)
    ensures Reach(s.(threads := s.threads[tid := Thread(pid, work, 0, false, false)]), kept)
  {
    hide Reach, Admits;
    ReachNext(s, Begin(tid, pid, work), kept);
  }

  /** One write of an execution, from its insert to its normal return, with nothing in between. */
  lemma WriteAlone(s: State, tid: nat, kept: set<Reliance>)
    requires Reach(s, kept) && CanInsert(s, tid) && s.uncommitted == {} && InsertSucceeds(s, s.threads[tid], true)
    ensures var t := s.threads[tid];
            Reach(s.(table := s.table + RowsOf(t), writer := t.pid,
                     threads := s.threads[tid := t.(done := t.done + 1)]), kept)
  {
    hide Reach, InsertSucceeds, RowsOf;
    var t := s.threads[tid];
    ReachNext(s, Insert(tid, true), kept);
    var s1 := Step(s, Insert(tid, true));
    assert s1.uncommitted == RowsOf(t) && s1.threads[tid] == t.(inserted := true);
    ReachNext(s1, Commit(tid, Acknowledged), kept);
    var s2 := Step(s1, Commit(tid, Acknowledged));
    assert s2.uncommitted == {} && s2.table == s.table + RowsOf(t);
    assert s2.threads == s.threads[tid := t.(done := t.done + 1)];
  }

  /** A write whose rows another thread's failure takes back between its insert and its commit: it returns normally. */
  lemma WriteLost(s: State, tid: nat, other: nat, kept: set<Reliance>)
    requires Reach(s, kept) && CanInsert(s, tid) && s.uncommitted == {} && InsertSucceeds(s, s.threads[tid], true)
    requires other !in s.threads && Alive(s, s.threads[tid].pid)
    requires forall k :: k in kept ==>
               WriteOf(k) != s.threads[tid].done && forall t :: t in s.threads ==> !s.threads[t].inserted
    ensures var t := s.threads[tid];
            Reach(s.(writer := t.pid, threads := s.threads[other := Thread(t.pid, Writer(OtherRow("")), 0, false, true)]
                                                          [tid := t.(done := t.done + 1)]), kept)
  {
    hide Reach, InsertSucceeds, RowsOf;
    var t := s.threads[tid];
    ReachNext(s, Insert(tid, true), kept);
    var s1 := Step(s, Insert(tid, true));
    assert s1.uncommitted == RowsOf(t) && s1.threads[tid] == t.(inserted := true);
    BeginNow(s1, other, t.pid, Writer(OtherRow("")), kept);
    var s2 := s1.(threads := s1.threads[other := Thread(t.pid, Writer(OtherRow("")), 0, false, false)]);
    forall k | k in kept ensures Quiet(s2, Insert(other, false), k) { NoneWaits(s2, tid, other, k); }
    assert !InsertSucceeds(s2, s2.threads[other], false) by { FailingInsert(s2, s2.threads[other]); }
    ReachNext(s2, Insert(other, false), kept);
    var s3 := Step(s2, Insert(other, false));
    assert s3.uncommitted == {} && s3.table == s.table;
    ReachNext(s3, Commit(tid, Acknowledged), kept);
    var s4 := Step(s3, Commit(tid, Acknowledged));
    assert s4.table == s.table && s4.uncommitted == {};
    assert s4.threads
           == s.threads[other := Thread(t.pid, Writer(OtherRow("")), 0, false, true)][tid := t.(done := t.done + 1)];
  }

  lemma FailingInsert(s: State, t: Thread)
    ensures !InsertSucceeds(s, t, false)
  {}

  lemma NoneWaits(s: State, tid: nat, other: nat, k: Reliance)
    requires tid in s.threads && s.threads[tid].done != WriteOf(k)
    requires forall t :: t in s.threads && t != tid ==> !s.threads[t].inserted
    ensures Quiet(s, Insert(other, false), k)
  {}

  /** The executions used below: begun by thread `tid` of process `pid`, standing after `done` writes. */
  function Standing(i: Intent, pid: nat, done: nat): Thread { Thread(pid, Execution(i), done, false, false) }

  const Both: map<nat, Option<set<Intent>>> := map[1 := Some({}), 2 := Some({})]

  function Failed(pid: nat): Thread { Thread(pid, Writer(OtherRow("")), 0, false, true) }

  lemma SubmitNow(s: State, tid: nat, kept: set<Reliance>)
    requires Reach(s, kept) && CanSubmit(s, tid)
    ensures Reach(s.(threads := s.threads[tid := s.threads[tid].(done := 3)],
                     submitted := s.submitted + [s.threads[tid].work.intent]), kept)
  {
    hide Reach;
    ReachNext(s, Submit(tid), kept);
  }

  /** An undisturbed execution of an intent that neither the tables nor its process know. */
  lemma ExecuteAlone(s: State, tid: nat, pid: nat, i: Intent, kept: set<Reliance>) returns (later: State)
    requires Reach(s, kept) && tid !in s.threads && s.uncommitted == {} && Admits(s, pid, Execution(i))
    requires forall w :: w in s.table ==> !Clash(w, IntentRow(i)) && !(w.RevisionRow? && w.intent.id == i.id)
    ensures Reach(later, kept) && later.submitted == s.submitted + [i]
  {
    hide Reach, Admits;
    BeginNow(s, tid, pid, Execution(i), kept);
    var s1 := s.(threads := s.threads[tid := Standing(i, pid, 0)]);
    WriteAlone(s1, tid, kept);
    var s2 := s1.(table := s1.table + {IntentRow(i), RevisionRow(i, 2)}, writer := pid,
                  threads := s1.threads[tid := Standing(i, pid, 1)]);
    WriteAlone(s2, tid, kept);
    var s3 := s2.(table := s2.table + {RevisionRow(i, 3)}, threads := s2.threads[tid := Standing(i, pid, 2)]);
    SubmitNow(s3, tid, kept);
    later := s3.(threads := s3.threads[tid := Standing(i, pid, 3)], submitted := s3.submitted + [i]);
  }

  lemma RunTo(s: State, kept: set<Reliance>) returns (actions: seq<Action>)
    requires Reach(s, kept)
    ensures Run(actions) == s && forall k :: k in kept ==> QuietRun(actions, k)
  {
    hide Run, QuietRun;
    actions :| Run(actions) == s && forall k :: k in kept ==> QuietRun(actions, k);
  }

  /** Two processes start, and the first one claims an intent; a failed write of another thread takes the claim back. */
  lemma ClaimLost(i: Intent, kept: set<Reliance>)
    requires OnClaim !in kept
    ensures Reach(State({}, {}, 1, map[0 := Standing(i, 1, 1), 1 := Failed(1)], Both, []), kept)
  {
    hide Reach, Loaded, Admits;
    ReachInitial(kept);
    assert Loaded({}) == {} by { NothingLoaded(); }
    StartNow(Initial, 1, kept);
    var s1 := Initial.(processes := map[1 := Some({})]);
    assert Initial.(processes := Initial.processes[1 := Some(Loaded(Initial.table))]) == s1;
    StartNow(s1, 2, kept);
    var s2 := Initial.(processes := Both);
    assert s1.(processes := s1.processes[2 := Some(Loaded(s1.table))]) == s2;
    FreshAdmits(s2, 1, i);
    BeginNow(s2, 0, 1, Execution(i), kept);
    var s3 := s2.(threads := map[0 := Standing(i, 1, 0)]);
    assert s2.(threads := s2.threads[0 := Standing(i, 1, 0)]) == s3;
    WriteLost(s3, 0, 1, kept);
    assert s3.(writer := 1, threads := s3.threads[1 := Failed(1)][0 := Standing(i, 1, 1)])
           == State({}, {}, 1, map[0 := Standing(i, 1, 1), 1 := Failed(1)], Both, []);
  }

  lemma NothingLoaded()
    ensures Loaded({}) == {}
  {}

  /** A process that loaded nothing and has executed nothing admits everything. */
  lemma FreshAdmits(s: State, pid: nat, i: Intent)
    requires pid in s.processes && s.processes[pid] == Some({})
    requires forall t :: t in s.threads ==> s.threads[t].pid != pid
    ensures Admits(s, pid, Execution(i))
  {}

  /**
   * With both rows lost an intent is submitted twice: two failed writes of other threads take back first its claim
   * and then its dispatch, each after the insert and before the commit, and a process that starts afterwards finds
   * neither.
   */
  lemma LostRowsSubmitTwice(i: Intent)
    ensures exists actions :: Run(actions).submitted == [i, i]
  {
    hide Reach, Run, Loaded, Admits;
    ClaimLost(i, {});
    var s1 := State({}, {}, 1, map[0 := Standing(i, 1, 1), 1 := Failed(1)], Both, []);
    WriteLost(s1, 0, 2, {});
    var s2 := s1.(threads := map[0 := Standing(i, 1, 2), 1 := Failed(1), 2 := Failed(1)]);
    assert s1.(writer := 1, threads := s1.threads[2 := Failed(1)][0 := Standing(i, 1, 2)]) == s2;
    SubmitNow(s2, 0, {});
    var s3 := s2.(threads := s2.threads[0 := Standing(i, 1, 3)], submitted := [i]);
    assert s2.(threads := s2.threads[0 := Standing(i, 1, 3)], submitted := s2.submitted + [i]) == s3;
    StartNow(s3, 3, {});
    assert Loaded({}) == {} by { NothingLoaded(); }
    var s4 := s3.(processes := s3.processes[3 := Some({})]);
    FreshAdmits(s4, 3, i);
    var last := ExecuteAlone(s4, 3, 3, i, {});
    assert last.submitted == [i, i];
    var actions := RunTo(last, {});
  }

  /**
   * With only its claim lost, the source of an intent is submitted again under another intent, by a process that had
   * started before.
   */
  lemma LostClaimReusesSource(i: Intent, j: Intent)
    requires i.id != j.id
    ensures exists actions :: QuietRun(actions, OnDispatch) && Run(actions).submitted == [i, j]
  {
    hide Reach, Run, QuietRun, Admits;
    var kept := {OnDispatch};
    ClaimLost(i, kept);
    var s1 := State({}, {}, 1, map[0 := Standing(i, 1, 1), 1 := Failed(1)], Both, []);
    WriteAlone(s1, 0, kept);
    var s2 := s1.(table := {RevisionRow(i, 3)}, threads := map[0 := Standing(i, 1, 2), 1 := Failed(1)]);
    assert s1.(table := s1.table + {RevisionRow(i, 3)}, writer := 1, threads := s1.threads[0 := Standing(i, 1, 2)])
           == s2;
    SubmitNow(s2, 0, kept);
    var s3 := s2.(threads := s2.threads[0 := Standing(i, 1, 3)], submitted := [i]);
    assert s2.(threads := s2.threads[0 := Standing(i, 1, 3)], submitted := s2.submitted + [i]) == s3;
    FreshAdmits(s3, 2, j);
    var last := ExecuteAlone(s3, 2, 2, j, kept);
    assert last.submitted == [i, j];
    var actions := RunTo(last, kept);
  }
}
