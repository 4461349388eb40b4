/**
 * Single-use readiness: processes with private caches over shared tables. Every write goes into the cache first,
 * is then inserted and committed on the process's one database connection, and is popped again when that fails.
 * All interleavings of threads, processes, restarts and storage failures are runs of this machine.
 */
module ReadinessProtocol {
  import opened Prelude
  import opened RiskTypes
  import opened ExecutionTypes

  /** One readiness generation; `body` stands for the fields an approval binds besides those named here. */
  datatype Readiness = Readiness(
    runId: Identifier,
    generationId: Identifier,
    expiresAt: Instant,
    control: ControlEvent,
    body: Identifier,
    digestMatches: bool)

  datatype Approval = Approval(
    approvalId: Identifier,
    readiness: Readiness,
    control: ControlEvent,
    effectiveFrom: Instant,
    expiresAt: Instant)

  predicate AppliesAt(a: Approval, at: Instant) { a.effectiveFrom <= at < a.expiresAt }

  /** A row of one of the three tables. */
  datatype Write =
    | ReadinessRow(readiness: Readiness)
    | ConsumptionRow(generation: Identifier, approval: Identifier)
    | ResultRow(run: Identifier, ofGeneration: Identifier)

  /** Two rows share a primary key or a unique column. */
  predicate Clash(a: Write, b: Write) {
    match a
    case ReadinessRow(x) =>
      b.ReadinessRow? && (x.runId == b.readiness.runId || x.generationId == b.readiness.generationId)
    case ConsumptionRow(g, p) => b.ConsumptionRow? && (g == b.generation || p == b.approval)
    case ResultRow(r, _) => b.ResultRow? && r == b.run
  }

  datatype Cache = Cache(
    readiness: map<Identifier, Readiness>,
    consumed: map<Identifier, Identifier>,
    results: map<Identifier, Identifier>)

  const EmptyCache := Cache(map[], map[], map[])

  datatype Call =
    | AddReadiness(readiness: Readiness)
    | Consume(evidence: Readiness, approval: Approval, control: ControlEvent, at: Instant)
    | SaveResult(run: Identifier, generation: Identifier)

  /** The checks made under the lock, before the cache changes. */
  predicate Admitted(c: Cache, call: Call) {
    match call
    case AddReadiness(r) =>
      r.runId !in c.readiness && forall run :: run in c.readiness ==> c.readiness[run].generationId != r.generationId
    case Consume(r, a, control, at) =>
      && r.runId in c.readiness && c.readiness[r.runId] == r && r.digestMatches
      && r.generationId !in c.consumed
      && at < r.expiresAt && AppliesAt(a, at)
      && a.readiness == r && a.control == r.control && a.control == control && control.state == ControlEnabled
    case SaveResult(run, g) => run !in c.results && g in c.consumed
  }

  function RowOf(call: Call): Write {
    match call
    case AddReadiness(r) => ReadinessRow(r)
    case Consume(r, a, _, _) => ConsumptionRow(r.generationId, a.approvalId)
    case SaveResult(run, g) => ResultRow(run, g)
  }

  function Put(c: Cache, w: Write): Cache {
    match w
    case ReadinessRow(r) => c.(readiness := c.readiness[r.runId := r])
    case ConsumptionRow(g, p) => c.(consumed := c.consumed[g := p])
    case ResultRow(run, g) => c.(results := c.results[run := g])
  }

  function Pop(c: Cache, w: Write): Cache {
    match w
    case ReadinessRow(r) => c.(readiness := c.readiness - {r.runId})
    case ConsumptionRow(g, _) => c.(consumed := c.consumed - {g})
    case ResultRow(run, _) => c.(results := c.results - {run})
  }

  /** The cache after a refused write is the cache before it: the key was absent when the write was admitted. */
  lemma PopUndoesPut(c: Cache, call: Call)
    requires Admitted(c, call)
    ensures Pop(Put(c, RowOf(call)), RowOf(call)) == c
  {
    match call
    case AddReadiness(r) => assert c.readiness[r.runId := r] - {r.runId} == c.readiness;
    case Consume(r, a, _, _) => assert c.consumed[r.generationId := a.approvalId] - {r.generationId} == c.consumed;
    case SaveResult(run, g) => assert c.results[run := g] - {run} == c.results;
  }

  datatype Stage = Cached | Inserted | Failed

  datatype Thread = Thread(pid: nat, row: Write, stage: Stage)

  /**
   * The database holds committed rows in `table`; the one connection inside a write transaction, that of process
   * `writer`, holds `uncommitted` ones. `returned` lists the rows whose call came back normally, in order.
   */
  datatype State = State(
    table: set<Write>,
    uncommitted: set<Write>,
    writer: nat,
    caches: map<nat, Cache>,
    threads: map<nat, Thread>,
    returned: seq<Write>)

  const Initial := State({}, {}, 0, map[], map[], [])

  /** How a commit ends: acknowledged, not done, or done but reported as failed. */
  datatype Ending = Acknowledged | NotDone | DoneButFailed

  datatype Action =
    | Launch(pid: nat)
    | LoadRow(pid: nat, row: Write)
    | Kill(pid: nat)
    | Begin(tid: nat, pid: nat, call: Call)
    | Insert(tid: nat, storageOk: bool)
    | Commit(tid: nat, ending: Ending)
    | Undo(tid: nat)

  /** The rows the connection of one process has inserted but not committed. */
  function Open(s: State, pid: nat): set<Write> { if s.writer == pid then s.uncommitted else {} }

  predicate InsertSucceeds(s: State, t: Thread, storageOk: bool) {
    && storageOk
    && (s.uncommitted == {} || s.writer == t.pid)
    && forall w :: w in s.table + s.uncommitted ==> !Clash(w, t.row)
  }

  predicate At(s: State, tid: nat, stage: Stage) { tid in s.threads && s.threads[tid].stage == stage }

  function Step(s: State, a: Action): State {
    match a
    case Launch(pid) => if pid in s.caches then s else s.(caches := s.caches[pid := EmptyCache])
    case LoadRow(pid, row) =>
      if pid in s.caches && row in s.table then s.(caches := s.caches[pid := Put(s.caches[pid], row)]) else s
    case Kill(pid) =>
      s.(uncommitted := s.uncommitted - Open(s, pid), caches := s.caches - {pid},
         threads := map t | t in s.threads && s.threads[t].pid != pid :: s.threads[t])
    case Begin(tid, pid, call) =>
      if tid !in s.threads && pid in s.caches && Admitted(s.caches[pid], call)
      then s.(caches := s.caches[pid := Put(s.caches[pid], RowOf(call))],
              threads := s.threads[tid := Thread(pid, RowOf(call), Cached)])
      else s
    case Insert(tid, storageOk) =>
      if !At(s, tid, Cached) then s else
      if InsertSucceeds(s, s.threads[tid], storageOk)
      then s.(uncommitted := s.uncommitted + {s.threads[tid].row}, writer := s.threads[tid].pid,
              threads := s.threads[tid := s.threads[tid].(stage := Inserted)])
      else RolledBack(s, tid)
    case Commit(tid, ending) =>
      if !At(s, tid, Inserted) then s else
      var pid := s.threads[tid].pid;
      var written := s.(table := s.table + Open(s, pid), uncommitted := s.uncommitted - Open(s, pid));
      match ending {
        case Acknowledged => written.(threads := s.threads - {tid}, returned := s.returned + [s.threads[tid].row])
        case NotDone => RolledBack(s, tid)
        case DoneButFailed => written.(threads := s.threads[tid := s.threads[tid].(stage := Failed)])
      }
    case Undo(tid) =>
      if !At(s, tid, Failed) || s.threads[tid].pid !in s.caches then s else
      var t := s.threads[tid];
      s.(caches := s.caches[t.pid := Pop(s.caches[t.pid], t.row)], threads := s.threads - {tid})
  }

  /** A rollback takes back everything the connection had not committed, whichever thread inserted it. */
  function RolledBack(s: State, tid: nat): State
    requires tid in s.threads
  {
    s.(uncommitted := s.uncommitted - Open(s, s.threads[tid].pid),
       threads := s.threads[tid := s.threads[tid].(stage := Failed)])
  }

  predicate RollsBack(s: State, a: Action) {
    match a
    case Insert(tid, storageOk) => At(s, tid, Cached) && !InsertSucceeds(s, s.threads[tid], storageOk)
    case Commit(tid, ending) => At(s, tid, Inserted) && ending == NotDone
    case _ => false
  }

  /** If the action rolls a connection back, no other thread has an uncommitted row on it. */
  predicate Quiet(s: State, a: Action) {
    RollsBack(s, a) ==>
      forall t :: t in s.threads && t != a.tid && s.threads[t].stage == Inserted ==>
                    s.threads[t].row !in Open(s, s.threads[a.tid].pid)
  }

  function Run(actions: seq<Action>): State {
    if actions == [] then Initial else Step(Run(actions[..|actions| - 1]), actions[|actions| - 1])
  }

  predicate QuietRun(actions: seq<Action>) {
    forall i :: 0 <= i < |actions| ==> Quiet(Run(actions[..i]), actions[i])
  }

  // ----- the invariant -----

  predicate NoClashes(rows: set<Write>) { forall a, b :: a in rows && b in rows && a != b ==> !Clash(a, b) }

  ghost predicate TablesOk(s: State) { s.uncommitted !! s.table && NoClashes(s.table + s.uncommitted) }

  ghost predicate ThreadsOk(s: State) {
    && (forall t :: t in s.threads ==> s.threads[t].pid in s.caches)
    && (forall w :: w in s.uncommitted ==>
        exists t :: At(s, t, Inserted) && s.threads[t].pid == s.writer && s.threads[t].row == w)
    && (forall t, u :: At(s, t, Inserted) && At(s, u, Inserted) && t != u ==> s.threads[t].row != s.threads[u].row)
  }

  /** An inserted row is durable or still waiting in its own connection; it has not been reported yet. */
  ghost predicate InsertedOk(s: State) {
    forall t :: At(s, t, Inserted) ==>
      && s.threads[t].row in s.table + Open(s, s.threads[t].pid)
      && s.threads[t].row !in s.returned
  }

  ghost predicate ReturnedOk(s: State) {
    && (forall i :: 0 <= i < |s.returned| ==> s.returned[i] in s.table)
    && (forall i, j :: 0 <= i < j < |s.returned| ==> s.returned[i] != s.returned[j])
  }

  predicate InFlight(s: State, pid: nat, w: Write) {
    exists t :: t in s.threads && s.threads[t] == Thread(pid, w, s.threads[t].stage)
  }

  predicate Backed(s: State, pid: nat, w: Write) { w in s.table || InFlight(s, pid, w) }

  /** Every cached entry is a row of the table or one a thread of the same process is still writing. */
  ghost predicate CachesOk(s: State) {
    forall p :: p in s.caches ==> CacheOk(s, p, s.caches[p])
  }

  ghost predicate CacheOk(s: State, p: nat, c: Cache) {
    && (forall run :: run in c.readiness ==>
        c.readiness[run].runId == run && Backed(s, p, ReadinessRow(c.readiness[run])))
    && (forall g :: g in c.consumed ==> Backed(s, p, ConsumptionRow(g, c.consumed[g])))
    && (forall run :: run in c.results ==> Backed(s, p, ResultRow(run, c.results[run])))
  }

  ghost predicate Inv(s: State) {
    TablesOk(s) && ThreadsOk(s) && InsertedOk(s) && ReturnedOk(s) && CachesOk(s)
  }

  // ----- one step -----

  lemma StepTables(s: State, a: Action)
    requires TablesOk(s)
    ensures TablesOk(Step(s, a))
  {
    ClashSymmetric();
  }

  lemma ClashSymmetric()
    ensures forall a, b :: Clash(a, b) ==> Clash(b, a)
  {}

  lemma StepThreads(s: State, a: Action)
    requires TablesOk(s) && ThreadsOk(s) && InsertedOk(s)
    ensures ThreadsOk(Step(s, a))
  {
    hide TablesOk, NoClashes, Admitted, RowOf, Put, Pop, InsertSucceeds;
    var s' := Step(s, a);
    forall w | w in s'.uncommitted
      ensures exists t :: At(s', t, Inserted) && s'.threads[t].pid == s'.writer && s'.threads[t].row == w
    {
      RowHasThread(s, a, w);
    }
    forall t, u | At(s', t, Inserted) && At(s', u, Inserted) && t != u ensures s'.threads[t].row != s'.threads[u].row {
      RowsDiffer(s, a, t, u);
    }
  }

  lemma RowHasThread(s: State, a: Action, w: Write)
    requires ThreadsOk(s) && w in Step(s, a).uncommitted
    ensures var s' := Step(s, a);
            exists t :: At(s', t, Inserted) && s'.threads[t].pid == s'.writer && s'.threads[t].row == w
  {
    hide Admitted, RowOf, Put, Pop, InsertSucceeds;
    var s' := Step(s, a);
    if w in s.uncommitted {
      var t :| At(s, t, Inserted) && s.threads[t].pid == s.writer && s.threads[t].row == w;
      SameWriter(s, a, w);
      assert At(s', t, Inserted);
    } else {
      assert At(s', a.tid, Inserted);
    }
  }

  lemma RowsDiffer(s: State, a: Action, t: nat, u: nat)
    requires ThreadsOk(s) && InsertedOk(s) && t != u && At(Step(s, a), t, Inserted) && At(Step(s, a), u, Inserted)
    ensures Step(s, a).threads[t].row != Step(s, a).threads[u].row
  {
    hide Admitted, RowOf, Put, Pop, InsertSucceeds, ThreadsOk, InsertedOk;
    InsertedBefore(s, a, t);
    InsertedBefore(s, a, u);
    if At(s, t, Inserted) && At(s, u, Inserted) {
      assert s.threads[t].row != s.threads[u].row by { assert ThreadsOk(s); DifferentRows(s, t, u); }
    } else if At(s, t, Inserted) {
      NewRowIsNew(s, a, t);
    } else {
      NewRowIsNew(s, a, u);
    }
  }

  lemma DifferentRows(s: State, t: nat, u: nat)
    requires ThreadsOk(s) && At(s, t, Inserted) && At(s, u, Inserted) && t != u
    ensures s.threads[t].row != s.threads[u].row
  {}

  /** A thread is found inserted after a step only if it was, or is the one that has just inserted. */
  lemma InsertedBefore(s: State, a: Action, t: nat)
    requires At(Step(s, a), t, Inserted)
    ensures t in s.threads && Step(s, a).threads[t] == s.threads[t].(stage := Inserted)
    ensures At(s, t, Inserted) || (a == Insert(t, true) && At(s, t, Cached) && InsertSucceeds(s, s.threads[t], true))
  {
    hide Put, Pop, Admitted, RowOf;
  }

  lemma SameWriter(s: State, a: Action, w: Write)
    requires w in s.uncommitted && w in Step(s, a).uncommitted
    ensures Step(s, a).writer == s.writer
  {}

  /** A successful insert clashes with no row that any thread has already inserted. */
  lemma NewRowIsNew(s: State, a: Action, u: nat)
    requires InsertedOk(s) && At(s, u, Inserted)
    requires a.Insert? && At(s, a.tid, Cached) && At(Step(s, a), a.tid, Inserted)
    ensures s.threads[u].row != s.threads[a.tid].row
  {
    assert Clash(s.threads[u].row, s.threads[u].row);
  }

  lemma StepInserted(s: State, a: Action)
    requires Inv(s) && Quiet(s, a)
    ensures InsertedOk(Step(s, a))
  {
    hide Inv, Step, Quiet, Open;
    forall t | At(Step(s, a), t, Inserted)
      ensures Step(s, a).threads[t].row in Step(s, a).table + Open(Step(s, a), Step(s, a).threads[t].pid)
      ensures Step(s, a).threads[t].row !in Step(s, a).returned
    {
      InsertedStays(s, a, t);
    }
  }

  lemma InsertedStays(s: State, a: Action, t: nat)
    requires Inv(s) && Quiet(s, a) && At(Step(s, a), t, Inserted)
    ensures Step(s, a).threads[t].row in Step(s, a).table + Open(Step(s, a), Step(s, a).threads[t].pid)
    ensures Step(s, a).threads[t].row !in Step(s, a).returned
  {
    hide CachesOk, NoClashes, Admitted, RowOf, Put, Pop;
    InsertedBefore(s, a, t);
    assert Clash(s.threads[t].row, s.threads[t].row);
    if At(s, t, Inserted) && a.Commit? && At(s, a.tid, Inserted) && a.tid != t { DifferentRows(s, t, a.tid); }
  }

  lemma StepReturned(s: State, a: Action)
    requires ReturnedOk(s) && InsertedOk(s)
    ensures ReturnedOk(Step(s, a))
  {
    if a.Commit? && Step(s, a).returned != s.returned {
      assert At(s, a.tid, Inserted);
    }
  }

  /** Whatever backed an entry of one cache still backs it, unless the step pops that entry. */
  lemma StillBacked(s: State, a: Action, pid: nat, w: Write)
    requires InsertedOk(s) && ThreadsOk(s) && Backed(s, pid, w) && pid in Step(s, a).caches
    ensures Backed(Step(s, a), pid, w) || Pops(s, a, pid, w)
  {
    hide Admitted, RowOf, Put, Pop, InsertSucceeds;
    var s' := Step(s, a);
    if w !in s.table {
      var t :| t in s.threads && s.threads[t] == Thread(pid, w, s.threads[t].stage);
      if t in s'.threads {
        assert s'.threads[t] == Thread(pid, w, s'.threads[t].stage);
      } else if a.Commit? {
        assert At(s, t, Inserted);
      }
    }
  }

  predicate Pops(s: State, a: Action, pid: nat, w: Write) {
    a.Undo? && At(s, a.tid, Failed) && s.threads[a.tid].row == w && s.threads[a.tid].pid == pid
  }

  lemma StepCaches(s: State, a: Action)
    requires Inv(s)
    ensures CachesOk(Step(s, a))
  {
    hide CacheOk, Step, TablesOk, ThreadsOk, ReturnedOk, InsertedOk;
    var s' := Step(s, a);
    forall p | p in s'.caches ensures CacheOk(s', p, s'.caches[p]) {
      StepCache(s, a, p);
    }
  }

  /** The four ways one step can leave a cache. */
  lemma CacheChange(s: State, a: Action, p: nat)
    requires p in Step(s, a).caches
    ensures var c := Step(s, a).caches[p];
            || (p !in s.caches && c == EmptyCache)
            || (p in s.caches && c == s.caches[p] && forall w :: !Pops(s, a, p, w))
            || (p in s.caches && exists w :: c == Put(s.caches[p], w) && Backed(Step(s, a), p, w) && !a.Undo?)
            || (p in s.caches && exists w :: c == Pop(s.caches[p], w) && forall v :: Pops(s, a, p, v) ==> v == w)
  {
    hide Put, Pop, Admitted, InsertSucceeds, RowOf;
    var s' := Step(s, a);
    match a
    case LoadRow(pid, row) => if pid == p && pid in s.caches && row in s.table { assert Backed(s', p, row); }
    case Begin(tid, pid, call) =>
      if tid !in s.threads && pid == p && pid in s.caches && Admitted(s.caches[pid], call) {
        assert s'.threads[tid] == Thread(p, RowOf(call), Cached);
        assert Backed(s', p, RowOf(call));
      }
    case _ =>
  }

  lemma StepCache(s: State, a: Action, p: nat)
    requires Inv(s) && p in Step(s, a).caches
    ensures CacheOk(Step(s, a), p, Step(s, a).caches[p])
  {
    hide TablesOk, ThreadsOk, ReturnedOk, InsertedOk, Backed, Step, Pops, Put, Pop, CacheOk;
    var s' := Step(s, a);
    CacheChange(s, a, p);
    EmptyCacheOk(s', p);
    if p in s.caches {
      forall w | Backed(s, p, w) ensures Backed(s', p, w) || Pops(s, a, p, w) {
        StillBacked(s, a, p, w);
      }
      NoPop(s, a, p);
      if s'.caches[p] == s.caches[p] && forall w :: !Pops(s, a, p, w) {
        CacheKept(s, s', p, s.caches[p]);
      } else if w :| s'.caches[p] == Put(s.caches[p], w) && Backed(s', p, w) && !a.Undo? {
        CacheKept(s, s', p, s.caches[p]);
        CachePut(s', p, s.caches[p], w);
      } else {
        var w :| s'.caches[p] == Pop(s.caches[p], w) && forall v :: Pops(s, a, p, v) ==> v == w;
        CachePopped(s, s', p, s.caches[p], w);
      }
    }
  }

  lemma EmptyCacheOk(s: State, p: nat)
    ensures CacheOk(s, p, EmptyCache)
  {}

  lemma CacheKept(s: State, s': State, p: nat, c: Cache)
    requires CacheOk(s, p, c) && forall w :: Backed(s, p, w) ==> Backed(s', p, w)
    ensures CacheOk(s', p, c)
  {
    hide Backed;
  }

  lemma CachePut(s: State, p: nat, c: Cache, w: Write)
    requires CacheOk(s, p, c) && Backed(s, p, w)
    ensures CacheOk(s, p, Put(c, w))
  {
    hide Backed;
  }

  lemma CachePopped(s: State, s': State, p: nat, c: Cache, w: Write)
    requires CacheOk(s, p, c) && forall v :: Backed(s, p, v) ==> Backed(s', p, v) || v == w
    ensures CacheOk(s', p, Pop(c, w))
  {
    hide Backed;
  }

  lemma NoPop(s: State, a: Action, p: nat)
    ensures !a.Undo? ==> forall w :: !Pops(s, a, p, w)
  {}

  /** A step keeps the invariant exactly when it rolls back no other thread's row. */
  lemma StepKeepsInvIff(s: State, a: Action)
    requires Inv(s)
    ensures Inv(Step(s, a)) <==> Quiet(s, a)
  {
    if Quiet(s, a) {
      hide TablesOk, ThreadsOk, InsertedOk, ReturnedOk, CachesOk, Step, Quiet;
      StepTables(s, a);
      StepThreads(s, a);
      StepInserted(s, a);
      StepReturned(s, a);
      StepCaches(s, a);
    } else {
      LoudStrandsARow(s, a);
    }
  }

  lemma LoudStrandsARow(s: State, a: Action)
    requires Inv(s) && !Quiet(s, a)
    ensures !InsertedOk(Step(s, a))
  {
    var pid := s.threads[a.tid].pid;
    var u :| u in s.threads && u != a.tid && s.threads[u].stage == Inserted && s.threads[u].row in Open(s, pid);
    assert At(Step(s, a), u, Inserted);
    assert s.threads[u].row !in s.table;
  }

  // ----- every run -----

  lemma InitialInv()
    ensures Inv(Initial)
  {}

  lemma {:induction false} RunKeepsInv(actions: seq<Action>)
    requires QuietRun(actions)
    ensures Inv(Run(actions))
  {
    if actions == [] {
      InitialInv();
    } else {
      hide Inv, Step, Quiet;
      var n := |actions| - 1;
      assert QuietRun(actions[..n]) by {
        forall i | 0 <= i < n ensures Quiet(Run(actions[..n][..i]), actions[..n][i]) {
          assert actions[..n][..i] == actions[..i];
        }
      }
      RunKeepsInv(actions[..n]);
      StepKeepsInvIff(Run(actions[..n]), actions[n]);
    }
  }

  /** Two rows that use no run, generation or approval in common where each may be used only once. */
  predicate Disjoint(a: Write, b: Write) {
    && (a.ReadinessRow? && b.ReadinessRow? ==>
          a.readiness.runId != b.readiness.runId && a.readiness.generationId != b.readiness.generationId)
    && (a.ConsumptionRow? && b.ConsumptionRow? ==> a.generation != b.generation && a.approval != b.approval)
    && (a.ResultRow? && b.ResultRow? ==> a.run != b.run)
  }

  lemma DisjointIff(a: Write, b: Write)
    ensures Disjoint(a, b) <==> !Clash(a, b)
  {}

  /**
   * No two calls that came back normally wrote clashing rows: a generation is consumed at most once, an approval
   * used at most once, a result saved at most once per run, whatever processes, threads, restarts and failed
   * inserts the run contains. Every such row is in the shared tables.
   */
  lemma SingleUse(actions: seq<Action>, i: nat, j: nat)
    requires QuietRun(actions) && i < j < |Run(actions).returned|
    ensures var s := Run(actions);
            && s.returned[i] in s.table && s.returned[j] in s.table
            && Disjoint(s.returned[i], s.returned[j])
  {
    hide Run, QuietRun, Clash, Disjoint;
    RunKeepsInv(actions);
    var s := Run(actions);
    DisjointIff(s.returned[i], s.returned[j]);
    assert s.returned[i] in s.table + s.uncommitted && s.returned[j] in s.table + s.uncommitted;
  }

  /** Every generation a process believes consumed is in the table or being written by one of its threads. */
  lemma CacheIsCovered(actions: seq<Action>, pid: nat, g: Identifier)
    requires QuietRun(actions) && pid in Run(actions).caches && g in Run(actions).caches[pid].consumed
    ensures Backed(Run(actions), pid, ConsumptionRow(g, Run(actions).caches[pid].consumed[g]))
  {
    RunKeepsInv(actions);
    assert CacheOk(Run(actions), pid, Run(actions).caches[pid]);
  }

  /** No process has two threads inside a write at the same time. */
  predicate OneWriterEach(s: State) {
    forall t, u :: t in s.threads && u in s.threads && t != u ==> s.threads[t].pid != s.threads[u].pid
  }

  lemma OneWriterIsQuiet(s: State, a: Action)
    requires ThreadsOk(s) && InsertedOk(s) && TablesOk(s) && OneWriterEach(s)
    ensures Quiet(s, a)
  {
    if RollsBack(s, a) {
      forall t | t in s.threads && t != a.tid && s.threads[t].stage == Inserted
        ensures s.threads[t].row !in Open(s, s.threads[a.tid].pid)
      {
        assert At(s, t, Inserted);
        assert s.threads[t].row in s.table + Open(s, s.threads[t].pid);
      }
    }
  }

  /** Processes that write one row at a time never lose another thread's row. */
  lemma {:induction false} OneWriterRunsAreQuiet(actions: seq<Action>)
    requires forall i :: 0 <= i <= |actions| ==> OneWriterEach(Run(actions[..i]))
    ensures QuietRun(actions)
  {
    hide Run, Quiet, OneWriterEach, ThreadsOk, InsertedOk, TablesOk, ReturnedOk, CachesOk;
    if actions != [] {
      var n := |actions| - 1;
      forall i | 0 <= i <= n ensures OneWriterEach(Run(actions[..n][..i])) {
        assert actions[..n][..i] == actions[..i];
        assert OneWriterEach(Run(actions[..i]));
      }
      OneWriterRunsAreQuiet(actions[..n]);
      RunKeepsInv(actions[..n]);
      OneWriterIsQuiet(Run(actions[..n]), actions[n]);
      Extend(actions[..n], Run(actions[..n]), actions[n]);
      assert actions[..n] + [actions[n]] == actions;
    }
  }

  /** One more step of a run whose state is known; it stays quiet if the step is. */
  lemma Extend(actions: seq<Action>, s: State, a: Action)
    requires Run(actions) == s
    ensures Run(actions + [a]) == Step(s, a)
    ensures QuietRun(actions) && Quiet(s, a) ==> QuietRun(actions + [a])
  {
    hide Step, Quiet;
    var all := actions + [a];
    assert all[..|actions|] == actions;
    if QuietRun(actions) && Quiet(s, a) {
      forall i | 0 <= i < |all| ensures Quiet(Run(all[..i]), all[i]) {
        if i < |actions| {
          assert all[..i] == actions[..i];
          assert Quiet(Run(actions[..i]), actions[i]);
        }
      }
    }
  }

  ghost predicate Reachable(s: State) { exists actions :: Run(actions) == s }

  ghost predicate QuietlyReachable(s: State) { exists actions :: Run(actions) == s && QuietRun(actions) }

  lemma ReachNext(s: State, a: Action)
    ensures Reachable(s) ==> Reachable(Step(s, a))
    ensures QuietlyReachable(s) && Quiet(s, a) ==> QuietlyReachable(Step(s, a))
  {
    hide Step, Quiet, Run, QuietRun;
    if actions :| Run(actions) == s {
      Extend(actions, s, a);
    }
    if actions :| Run(actions) == s && QuietRun(actions) {
      Extend(actions, s, a);
    }
  }

  function Registered(r: Readiness): State {
    State({ReadinessRow(r)}, {}, 1, map[1 := EmptyCache.(readiness := map[r.runId := r])], map[], [ReadinessRow(r)])
  }

  lemma RegisteredIsReachable(r: Readiness)
    ensures QuietlyReachable(Registered(r)) && Reachable(Registered(r))
  {
    hide Run, QuietRun;
    assert Run([]) == Initial && QuietRun([]) by { EmptyRun(); }
    ReachNext(Initial, Launch(1));
    var s1 := Step(Initial, Launch(1));
    ReachNext(s1, Begin(0, 1, AddReadiness(r)));
    var s2 := Step(s1, Begin(0, 1, AddReadiness(r)));
    ReachNext(s2, Insert(0, true));
    var s3 := Step(s2, Insert(0, true));
    ReachNext(s3, Commit(0, Acknowledged));
    var s4 := Step(s3, Commit(0, Acknowledged));
    assert s4.threads == map[] && s4.caches == Registered(r).caches && s4 == Registered(r);
  }

  lemma EmptyRun()
    ensures Run([]) == Initial && QuietRun([])
  {}

  /** The consumption has been reported although its row was rolled back. */
  function Stranded(r: Readiness, other: Readiness, row: Write): State
    requires row.ConsumptionRow?
  {
    State({ReadinessRow(r)}, {}, 1,
          map[1 := Cache(map[r.runId := r, other.runId := other], map[row.generation := row.approval], map[])],
          map[2 := Thread(1, ReadinessRow(other), Failed)], [ReadinessRow(r), row])
  }

  lemma StrandedIsReachable(r: Readiness, other: Readiness, consume: Call)
    requires consume.Consume? && consume.evidence == r && Admitted(EmptyCache.(readiness := map[r.runId := r]), consume)
    requires other.runId != r.runId && other.generationId != r.generationId
    ensures Reachable(Stranded(r, other, RowOf(consume)))
  {
    hide Reachable, QuietlyReachable, QuietRun, Quiet, Run;
    RegisteredIsReachable(r);
    var s := Registered(r);
    ReachNext(s, Begin(1, 1, consume));
    var s1 := Step(s, Begin(1, 1, consume));
    ReachNext(s1, Insert(1, true));
    var s2 := Step(s1, Insert(1, true));
    assert s2.uncommitted == {RowOf(consume)};
    ReachNext(s2, Begin(2, 1, AddReadiness(other)));
    var s3 := Step(s2, Begin(2, 1, AddReadiness(other)));
    ReachNext(s3, Insert(2, false));
    var s4 := Step(s3, Insert(2, false));
    assert s4.uncommitted == {};
    ReachNext(s4, Commit(1, Acknowledged));
    var s5 := Step(s4, Commit(1, Acknowledged));
    assert s5.threads == Stranded(r, other, RowOf(consume)).threads;
    assert s5.caches == Stranded(r, other, RowOf(consume)).caches;
    assert s5.table == {ReadinessRow(r)} && s5.uncommitted == {};
    assert s5 == Stranded(r, other, RowOf(consume));
  }

  /**
   * A process that lets two threads share its connection can consume one generation twice: the failed write of
   * the second thread rolls the first one's row back between its insert and its commit, the first call returns
   * normally all the same, and another process, finding no row, consumes the generation again.
   */
  lemma SharedConnectionReusesReadiness(r: Readiness, other: Readiness, a: Approval, at: Instant)
    requires Admitted(EmptyCache.(readiness := map[r.runId := r]), Consume(r, a, r.control, at))
    requires other.runId != r.runId && other.generationId != r.generationId
    ensures exists actions: seq<Action> ::
              && |Run(actions).returned| == 3
              && Run(actions).returned[1] == Run(actions).returned[2] == ConsumptionRow(r.generationId, a.approvalId)
  {
    hide Reachable, QuietlyReachable, QuietRun, Quiet, Run;
    var consume := Consume(r, a, r.control, at);
    StrandedIsReachable(r, other, consume);
    var s := Stranded(r, other, RowOf(consume));
    ReachNext(s, Launch(2));
    var s1 := Step(s, Launch(2));
    ReachNext(s1, LoadRow(2, ReadinessRow(r)));
    var s2 := Step(s1, LoadRow(2, ReadinessRow(r)));
    assert s2.caches[2] == EmptyCache.(readiness := map[r.runId := r]);
    ReachNext(s2, Begin(3, 2, consume));
    var s3 := Step(s2, Begin(3, 2, consume));
    ReachNext(s3, Insert(3, true));
    var s4 := Step(s3, Insert(3, true));
    ReachNext(s4, Commit(3, Acknowledged));
    var s5 := Step(s4, Commit(3, Acknowledged));
    assert s5.returned == [ReadinessRow(r), RowOf(consume), RowOf(consume)];
    var actions := WitnessOf(s5);
  }

  lemma WitnessOf(s: State) returns (actions: seq<Action>)
    requires Reachable(s)
    ensures Run(actions) == s
  {
    var found :| Run(found) == s;
    actions := found;
  }

  // ----- results after consumption -----

  /** The generation's consumption has come back normally to some caller. */
  predicate Reported(s: State, g: Identifier) {
    exists i :: 0 <= i < |s.returned| && s.returned[i].ConsumptionRow? && s.returned[i].generation == g
  }

  /** What the coordinator does: it saves a result only for a generation whose consumption was reported. */
  predicate Ordered(s: State, a: Action) { a.Begin? && a.call.SaveResult? ==> Reported(s, a.call.generation) }

  predicate OrderedRun(actions: seq<Action>) {
    forall i :: 0 <= i < |actions| ==> Ordered(Run(actions[..i]), actions[i])
  }

  ghost predicate ResultsOk(s: State) {
    && (forall w :: w in s.table + s.uncommitted && w.ResultRow? ==> Reported(s, w.ofGeneration))
    && (forall t :: t in s.threads && s.threads[t].row.ResultRow? ==> Reported(s, s.threads[t].row.ofGeneration))
  }

  lemma ReportedStays(s: State, a: Action, g: Identifier)
    requires Reported(s, g)
    ensures Reported(Step(s, a), g)
  {
    var i :| 0 <= i < |s.returned| && s.returned[i].ConsumptionRow? && s.returned[i].generation == g;
    assert Step(s, a).returned[i] == s.returned[i];
  }

  /** Rows and threads of the next state come from this one, except the row a new call brings. */
  lemma RowsComeFromThreads(s: State, a: Action)
    ensures forall w :: w in Step(s, a).table + Step(s, a).uncommitted && w !in s.table + s.uncommitted ==>
              exists t :: t in s.threads && s.threads[t].row == w
    ensures forall t :: t in Step(s, a).threads ==>
              || (t in s.threads && s.threads[t].row == Step(s, a).threads[t].row)
              || (a.Begin? && Step(s, a).threads[t].row == RowOf(a.call))
  {
    hide Admitted, Put, Pop, InsertSucceeds;
    if a.Insert? && At(s, a.tid, Cached) {
      assert s.threads[a.tid].row == s.threads[a.tid].row;
    }
  }

  lemma StepResults(s: State, a: Action)
    requires ResultsOk(s) && Ordered(s, a)
    ensures ResultsOk(Step(s, a))
  {
    hide Step, Reported;
    RowsComeFromThreads(s, a);
    forall g | Reported(s, g) ensures Reported(Step(s, a), g) { ReportedStays(s, a, g); }
    forall w | w in Step(s, a).table + Step(s, a).uncommitted && w.ResultRow?
      ensures Reported(Step(s, a), w.ofGeneration)
    {
      if w !in s.table + s.uncommitted {
        var t :| t in s.threads && s.threads[t].row == w;
      }
    }
  }

  lemma {:induction false} RunResultsOk(actions: seq<Action>)
    requires OrderedRun(actions)
    ensures ResultsOk(Run(actions))
  {
    if actions != [] {
      hide Step, ResultsOk, Ordered;
      var n := |actions| - 1;
      forall i | 0 <= i < n ensures Ordered(Run(actions[..n][..i]), actions[..n][i]) {
        assert actions[..n][..i] == actions[..i];
      }
      RunResultsOk(actions[..n]);
      assert Ordered(Run(actions[..n]), actions[n]);
      StepResults(Run(actions[..n]), actions[n]);
    }
  }

  /** Under the coordinator's order every stored result has its generation's consumption in the shared table. */
  lemma ResultsFollowConsumption(actions: seq<Action>, run: Identifier, g: Identifier)
    requires QuietRun(actions) && OrderedRun(actions) && ResultRow(run, g) in Run(actions).table
    ensures exists p :: ConsumptionRow(g, p) in Run(actions).table
  {
    RunResultsOk(actions);
    RunKeepsInv(actions);
    var s := Run(actions);
    assert Reported(s, g);
    var i :| 0 <= i < |s.returned| && s.returned[i].ConsumptionRow? && s.returned[i].generation == g;
    assert ConsumptionRow(g, s.returned[i].approval) in s.table;
  }

  /**
   * The repository alone does not give that order: the save check looks at the cache, where a consumption stands
   * before its insert. When that insert fails, the result is stored for a generation nobody ever consumed.
   */
  lemma ResultWithoutConsumption(r: Readiness, a: Approval, at: Instant, run: Identifier)
    requires Admitted(EmptyCache.(readiness := map[r.runId := r]), Consume(r, a, r.control, at))
    ensures exists actions: seq<Action> ::
              && QuietRun(actions)
              && ResultRow(run, r.generationId) in Run(actions).table
              && forall p :: ConsumptionRow(r.generationId, p) !in Run(actions).table
  {
    hide Reachable, QuietlyReachable, QuietRun, Run;
    var consume, save := Consume(r, a, r.control, at), SaveResult(run, r.generationId);
    RegisteredIsReachable(r);
    var s := Registered(r);
    ReachNext(s, Begin(1, 1, consume));
    var s1 := Step(s, Begin(1, 1, consume));
    ReachNext(s1, Begin(2, 1, save));
    var s2 := Step(s1, Begin(2, 1, save));
    ReachNext(s2, Insert(1, false));
    var s3 := Step(s2, Insert(1, false));
    ReachNext(s3, Insert(2, true));
    var s4 := Step(s3, Insert(2, true));
    ReachNext(s4, Commit(2, Acknowledged));
    var s5 := Step(s4, Commit(2, Acknowledged));
    assert s5.table == {ReadinessRow(r), ResultRow(run, r.generationId)};
    assert QuietlyReachable(s5);
    QuietWitness(s5, ResultRow(run, r.generationId), r.generationId);
  }

  lemma QuietWitness(s: State, w: Write, g: Identifier)
    requires QuietlyReachable(s) && w in s.table && forall p :: ConsumptionRow(g, p) !in s.table
    ensures exists actions: seq<Action> ::
              QuietRun(actions) && w in Run(actions).table && forall p :: ConsumptionRow(g, p) !in Run(actions).table
  {
    hide Run, QuietRun;
    var actions :| Run(actions) == s && QuietRun(actions);
  }

  // ----- when a save is safe -----

  ghost predicate ConsumptionStored(s: State, g: Identifier) { exists p :: ConsumptionRow(g, p) in s.table }

  ghost predicate ResultStored(s: State, g: Identifier) { exists run :: ResultRow(run, g) in s.table }

  function After(s: State, actions: seq<Action>): State {
    if actions == [] then s else Step(After(s, actions[..|actions| - 1]), actions[|actions| - 1])
  }

  predicate QuietAfter(s: State, actions: seq<Action>) {
    forall i :: 0 <= i < |actions| ==> Quiet(After(s, actions[..i]), actions[i])
  }

  ghost predicate QuietlyLeadsTo(s: State, later: State) {
    exists actions :: QuietAfter(s, actions) && After(s, actions) == later
  }

  /** Whatever happens from here on, short of a lost row, a stored result has its consumption stored. */
  ghost predicate OrderHolds(s: State, g: Identifier) {
    forall later :: QuietlyLeadsTo(s, later) && ResultStored(later, g) ==> ConsumptionStored(later, g)
  }

  lemma LeadsOn(s: State, later: State, a: Action)
    requires QuietlyLeadsTo(s, later) && Quiet(later, a)
    ensures QuietlyLeadsTo(s, Step(later, a))
  {
    var actions :| QuietAfter(s, actions) && After(s, actions) == later;
    OneMoreQuiet(s, actions, a);
    hide Step, QuietAfter;
    assert (actions + [a])[..|actions|] == actions;
    assert After(s, actions + [a]) == Step(later, a);
  }

  lemma OneMoreQuiet(s: State, actions: seq<Action>, a: Action)
    requires QuietAfter(s, actions) && Quiet(After(s, actions), a)
    ensures QuietAfter(s, actions + [a])
  {
    hide Step, Quiet, After;
    var all := actions + [a];
    forall i | 0 <= i < |all| ensures Quiet(After(s, all[..i]), all[i]) {
      if i < |actions| {
        assert all[..i] == actions[..i];
        assert Quiet(After(s, actions[..i]), actions[i]);
      } else {
        assert all[..i] == actions;
      }
    }
  }

  lemma LeadsToItself(s: State)
    ensures QuietlyLeadsTo(s, s)
  {
    assert QuietAfter(s, []) && After(s, []) == s;
  }

  lemma {:induction false} RowsStay(s: State, actions: seq<Action>)
    ensures s.table <= After(s, actions).table
  {
    if actions != [] {
      RowsStay(s, actions[..|actions| - 1]);
      StepKeepsRows(After(s, actions[..|actions| - 1]), actions[|actions| - 1]);
    }
  }

  lemma StepKeepsRows(s: State, a: Action)
    ensures s.table <= Step(s, a).table
  {
    hide Admitted, Put, Pop, RowOf, InsertSucceeds;
  }

  lemma {:induction false} LongestRun(rows: set<Write>) returns (n: nat)
    ensures forall w :: w in rows && w.ResultRow? ==> |w.run| < n
    decreases rows
  {
    n := 0;
    if w :| w in rows {
      var m := LongestRun(rows - {w});
      n := m + if w.ResultRow? then |w.run| + 1 else 0;
      forall v | v in rows && v.ResultRow? ensures |v.run| < n { assert v == w || v in rows - {w}; }
    }
  }

  lemma UnusedRun(rows: set<Write>) returns (run: Identifier)
    ensures forall w :: w in rows && w.ResultRow? ==> w.run != run
  {
    var n := LongestRun(rows);
    run := seq(n, _ => 'r');
  }

  lemma {:induction false} UnusedThread(tids: set<nat>) returns (n: nat)
    ensures forall t :: t in tids ==> t < n
    decreases tids
  {
    n := 0;
    if t :| t in tids {
      var m := UnusedThread(tids - {t});
      n := m + t + 1;
      forall u | u in tids ensures u < n { assert u == t || u in tids - {t}; }
    }
  }

  const ENABLED := ControlEvent(Some(ControlDisabled), ControlEnabled, 0)

  function ReadinessFor(g: Identifier): Readiness { Readiness("run", g, 1, ENABLED, "", true) }

  function ConsumeFor(g: Identifier): Call {
    Consume(ReadinessFor(g), Approval("approval", ReadinessFor(g), ENABLED, 0, 1), ENABLED, 0)
  }

  /** A restarted process with a readiness and its consumption still waiting for their inserts. */
  lemma WaitingConsumption(s: State, g: Identifier, t: nat) returns (later: State)
    requires forall u :: u in s.threads ==> u < t
    ensures QuietlyLeadsTo(s, later) && later.table == s.table && later.uncommitted == {}
    ensures later.writer in later.caches && later.caches[later.writer].results == map[]
            && g in later.caches[later.writer].consumed
    ensures forall u :: u in later.threads ==> u < t + 2
  {
    hide QuietlyLeadsTo;
    var w := s.writer;
    LeadsToItself(s);
    LeadsOn(s, s, Kill(w));
    var s1 := Step(s, Kill(w));
    assert s1.uncommitted == {} && w !in s1.caches && s1.table == s.table;
    LeadsOn(s, s1, Launch(w));
    var s2 := Step(s1, Launch(w));
    assert s2.caches[w] == EmptyCache;
    var register := AddReadiness(ReadinessFor(g));
    LeadsOn(s, s2, Begin(t, w, register));
    var s3 := Step(s2, Begin(t, w, register));
    assert s3.caches[w] == EmptyCache.(readiness := map["run" := ReadinessFor(g)]);
    LeadsOn(s, s3, Begin(t + 1, w, ConsumeFor(g)));
    later := Step(s3, Begin(t + 1, w, ConsumeFor(g)));
    assert later.caches[w].consumed == map[g := "approval"];
  }

  /** A save by itself, with nothing failing, stores the result. */
  lemma SaveGoesThrough(s: State, tid: nat, pid: nat, run: Identifier, g: Identifier) returns (later: State)
    requires tid !in s.threads && pid in s.caches && Admitted(s.caches[pid], SaveResult(run, g)) && s.uncommitted == {}
    requires forall w :: w in s.table && w.ResultRow? ==> w.run != run
    ensures QuietlyLeadsTo(s, later) && later.table == s.table + {ResultRow(run, g)}
    ensures QuietlyLeadsTo(Step(s, Begin(tid, pid, SaveResult(run, g))), later)
  {
    hide QuietlyLeadsTo;
    var save := SaveResult(run, g);
    LeadsToItself(s);
    LeadsOn(s, s, Begin(tid, pid, save));
    var s1 := Step(s, Begin(tid, pid, save));
    LeadsToItself(s1);
    assert At(s1, tid, Cached) && s1.threads[tid] == Thread(pid, ResultRow(run, g), Cached);
    assert s1.table + s1.uncommitted == s.table;
    LeadsOn(s, s1, Insert(tid, true));
    LeadsOn(s1, s1, Insert(tid, true));
    var s2 := Step(s1, Insert(tid, true));
    assert s2.uncommitted == {ResultRow(run, g)} && s2.writer == pid && At(s2, tid, Inserted);
    LeadsOn(s, s2, Commit(tid, Acknowledged));
    LeadsOn(s1, s2, Commit(tid, Acknowledged));
    later := Step(s2, Commit(tid, Acknowledged));
  }

  lemma LeadsThrough(s: State, middle: State, later: State)
    requires QuietlyLeadsTo(s, middle) && QuietlyLeadsTo(middle, later)
    ensures QuietlyLeadsTo(s, later)
  {
    var more :| QuietAfter(middle, more) && After(middle, more) == later;
    LeadsThroughBy(s, middle, more);
  }

  lemma {:induction false} LeadsThroughBy(s: State, middle: State, more: seq<Action>)
    requires QuietlyLeadsTo(s, middle) && QuietAfter(middle, more)
    ensures QuietlyLeadsTo(s, After(middle, more))
    decreases |more|
  {
    hide QuietlyLeadsTo, Step, Quiet;
    if more != [] {
      var n := |more| - 1;
      forall i | 0 <= i < n ensures Quiet(After(middle, more[..n][..i]), more[..n][i]) {
        assert more[..n][..i] == more[..i];
        assert Quiet(After(middle, more[..i]), more[i]);
      }
      LeadsThroughBy(s, middle, more[..n]);
      assert Quiet(After(middle, more[..n]), more[n]);
      LeadsOn(s, After(middle, more[..n]), more[n]);
    }
  }

  /** From any state, order is certain exactly when the consumption is in the shared table already. */
  lemma OrderHoldsIff(s: State, g: Identifier)
    ensures OrderHolds(s, g) <==> ConsumptionStored(s, g)
  {
    if ConsumptionStored(s, g) {
      var p :| ConsumptionRow(g, p) in s.table;
      forall later | QuietlyLeadsTo(s, later) ensures ConsumptionStored(later, g) {
        var actions :| QuietAfter(s, actions) && After(s, actions) == later;
        RowsStay(s, actions);
        assert ConsumptionRow(g, p) in later.table;
      }
    } else {
      hide QuietlyLeadsTo, Step, Admitted;
      var t := UnusedThread(s.threads.Keys);
      var waiting := WaitingConsumption(s, g, t);
      var run := UnusedRun(s.table);
      AdmittedSave(waiting.caches[waiting.writer], run, g);
      var later := SaveGoesThrough(waiting, t + 2, waiting.writer, run, g);
      LeadsThrough(s, waiting, later);
      assert ResultRow(run, g) in later.table && ResultStored(later, g);
      assert forall p :: ConsumptionRow(g, p) !in later.table;
    }
  }

  lemma AdmittedSave(c: Cache, run: Identifier, g: Identifier)
    ensures Admitted(c, SaveResult(run, g)) <==> run !in c.results && g in c.consumed
  {}

  /** Calls under way proceed, processes start, load and die, but no further call is begun. */
  predicate NoNewCall(actions: seq<Action>) { forall i :: 0 <= i < |actions| ==> !actions[i].Begin? }

  ghost predicate Settles(s: State, later: State, quiet: bool) {
    exists actions :: NoNewCall(actions) && (quiet ==> QuietAfter(s, actions)) && After(s, actions) == later
  }

  /** However the calls under way end, this result is never stored without its consumption. */
  ghost predicate SaveSafe(s: State, run: Identifier, g: Identifier, quiet: bool) {
    forall later :: Settles(s, later, quiet) && ResultRow(run, g) in later.table ==> ConsumptionStored(later, g)
  }

  /** Another generation's result holds the run already, so this save will be refused by the table. */
  ghost predicate RunTaken(s: State, run: Identifier, g: Identifier) {
    exists h :: h != g && ResultRow(run, h) in s.table
  }

  lemma SettlesItself(s: State, quiet: bool)
    ensures Settles(s, s, quiet)
  {
    assert NoNewCall([]) && QuietAfter(s, []) && After(s, []) == s;
  }

  lemma SettlesOn(s: State, later: State, a: Action, quiet: bool)
    requires Settles(s, later, quiet) && !a.Begin? && (quiet ==> Quiet(later, a))
    ensures Settles(s, Step(later, a), quiet)
  {
    var actions :| NoNewCall(actions) && (quiet ==> QuietAfter(s, actions)) && After(s, actions) == later;
    if quiet { OneMoreQuiet(s, actions, a); }
    hide Step, QuietAfter;
    assert (actions + [a])[..|actions|] == actions;
    assert After(s, actions + [a]) == Step(later, a);
  }

  lemma {:induction false} TablesStayOk(s: State, actions: seq<Action>)
    requires TablesOk(s)
    ensures TablesOk(After(s, actions))
  {
    hide Step, TablesOk;
    if actions != [] {
      TablesStayOk(s, actions[..|actions| - 1]);
      StepTables(After(s, actions[..|actions| - 1]), actions[|actions| - 1]);
    }
  }

  /** A taken run stays taken, and the table never holds two results of one run. */
  lemma TakenRunRefuses(s: State, later: State, run: Identifier, g: Identifier, quiet: bool)
    requires TablesOk(s) && RunTaken(s, run, g) && Settles(s, later, quiet)
    ensures ResultRow(run, g) !in later.table
  {
    var h :| h != g && ResultRow(run, h) in s.table;
    var actions :| NoNewCall(actions) && (quiet ==> QuietAfter(s, actions)) && After(s, actions) == later;
    RowsStay(s, actions);
    TablesStayOk(s, actions);
    assert Clash(ResultRow(run, h), ResultRow(run, g)) && ResultRow(run, h) in later.table + later.uncommitted;
    assert ResultRow(run, g) in later.table ==> ResultRow(run, g) in later.table + later.uncommitted;
  }

  /**
   * Before a waiting save inserts, every open transaction can end without a new call: another process dies, or a
   * thread of the same process fails to commit. The latter is quiet when its row is the only open one.
   */
  lemma OpenRowsGo(s: State, tid: nat, quiet: bool) returns (later: State)
    requires ThreadsOk(s) && At(s, tid, Cached) && (quiet ==> |Open(s, s.threads[tid].pid)| <= 1)
    ensures Settles(s, later, quiet) && later.uncommitted == {} && later.table == s.table
    ensures At(later, tid, Cached) && later.threads[tid] == s.threads[tid]
  {
    hide Settles, Put, Pop, Admitted, InsertSucceeds;
    SettlesItself(s, quiet);
    var pid := s.threads[tid].pid;
    if s.uncommitted == {} {
      later := s;
    } else if s.writer != pid {
      SettlesOn(s, s, Kill(s.writer), quiet);
      later := Step(s, Kill(s.writer));
    } else {
      var w :| w in s.uncommitted;
      var t :| At(s, t, Inserted) && s.threads[t].pid == s.writer && s.threads[t].row == w;
      if quiet { OnlyRowIsQuiet(s, t, w); }
      SettlesOn(s, s, Commit(t, NotDone), quiet);
      later := Step(s, Commit(t, NotDone));
    }
  }

  lemma OnlyRowIsQuiet(s: State, t: nat, w: Write)
    requires ThreadsOk(s) && At(s, t, Inserted) && s.threads[t].row == w && w in s.uncommitted && |s.uncommitted| <= 1
    requires s.threads[t].pid == s.writer
    ensures Quiet(s, Commit(t, NotDone))
  {
    assert s.uncommitted == {w} by {
      forall v | v in s.uncommitted ensures v == w { if v != w { TwoRows(s.uncommitted, v, w); } }
    }
    forall u | u in s.threads && u != t && s.threads[u].stage == Inserted ensures s.threads[u].row != w {
      DifferentRows(s, u, t);
    }
  }

  lemma TwoRows(rows: set<Write>, v: Write, w: Write)
    requires v in rows && w in rows && v != w
    ensures 2 <= |rows|
  {
    assert |rows - {v}| == |rows| - 1 && w in rows - {v};
  }

  /** A waiting save whose run is unused goes through once no transaction is open. */
  lemma WaitingSaveGoesThrough(s: State, later: State, tid: nat, run: Identifier, g: Identifier, quiet: bool)
    returns (last: State)
    requires Settles(s, later, quiet) && later.uncommitted == {}
    requires At(later, tid, Cached) && later.threads[tid].row == ResultRow(run, g)
    requires forall w :: w in later.table && w.ResultRow? ==> w.run != run
    ensures Settles(s, last, quiet) && last.table == later.table + {ResultRow(run, g)}
  {
    hide Settles, Put, Pop, Admitted;
    assert later.table + later.uncommitted == later.table;
    SettlesOn(s, later, Insert(tid, true), quiet);
    var s1 := Step(later, Insert(tid, true));
    assert s1.uncommitted == {ResultRow(run, g)} && At(s1, tid, Inserted);
    SettlesOn(s, s1, Commit(tid, Acknowledged), quiet);
    last := Step(s1, Commit(tid, Acknowledged));
  }

  /**
   * What a caller can read before the call: an admitted save is safe, however the calls then under way end,
   * exactly when the consumption is in the shared table, not merely in the cache, or the run is taken. With at
   * most one row open on its own connection the same holds among the endings that lose no other thread's row.
   */
  lemma SaveSafeIff(s: State, tid: nat, pid: nat, run: Identifier, g: Identifier, quiet: bool)
    requires Inv(s) && tid !in s.threads && pid in s.caches && Admitted(s.caches[pid], SaveResult(run, g))
    requires quiet ==> |Open(s, pid)| <= 1
    ensures SaveSafe(Step(s, Begin(tid, pid, SaveResult(run, g))), run, g, quiet)
            <==> ConsumptionStored(s, g) || RunTaken(s, run, g)
  {
    hide Settles, CachesOk, InsertedOk, ReturnedOk;
    var begin := Begin(tid, pid, SaveResult(run, g));
    var s1 := Step(s, begin);
    StepThreads(s, begin) by { assert InsertedOk(s); }
    StepTables(s, begin);
    assert s1.table == s.table && s1.uncommitted == s.uncommitted && s1.writer == s.writer;
    assert At(s1, tid, Cached) && s1.threads[tid] == Thread(pid, ResultRow(run, g), Cached);
    hide Step, Admitted, ThreadsOk, TablesOk;
    if ConsumptionStored(s, g) || RunTaken(s, run, g) {
      forall later | Settles(s1, later, quiet) && ResultRow(run, g) in later.table ensures ConsumptionStored(later, g) {
        if RunTaken(s, run, g) {
          TakenRunRefuses(s1, later, run, g, quiet);
        } else {
          ConsumptionStays(s1, later, g, quiet);
        }
      }
    } else if ResultRow(run, g) in s.table {
      SettlesItself(s1, quiet);
    } else {
      var clear := OpenRowsGo(s1, tid, quiet);
      RunUnused(s, run, g);
      var last := WaitingSaveGoesThrough(s1, clear, tid, run, g, quiet);
      assert forall p :: ConsumptionRow(g, p) !in last.table;
    }
  }

  lemma RunUnused(s: State, run: Identifier, g: Identifier)
    requires !RunTaken(s, run, g) && ResultRow(run, g) !in s.table
    ensures forall w :: w in s.table && w.ResultRow? ==> w.run != run
  {
    forall w | w in s.table && w.ResultRow? ensures w != ResultRow(run, w.ofGeneration) {
      if w.ofGeneration != g { assert ResultRow(run, w.ofGeneration) !in s.table; }
    }
  }

  lemma ConsumptionStays(s: State, later: State, g: Identifier, quiet: bool)
    requires Settles(s, later, quiet) && ConsumptionStored(s, g)
    ensures ConsumptionStored(later, g)
  {
    var p :| ConsumptionRow(g, p) in s.table;
    var actions :| NoNewCall(actions) && (quiet ==> QuietAfter(s, actions)) && After(s, actions) == later;
    RowsStay(s, actions);
    assert ConsumptionRow(g, p) in later.table;
  }

  /**
   * The save itself is then the danger, without any failure: with no transaction open and the run unused, it goes
   * through alone and stores its result before the consumption it was admitted for.
   */
  lemma SaveOvertakesConsumption(s: State, tid: nat, pid: nat, run: Identifier, g: Identifier)
    requires tid !in s.threads && pid in s.caches && Admitted(s.caches[pid], SaveResult(run, g)) && s.uncommitted == {}
    requires (forall w :: w in s.table && w.ResultRow? ==> w.run != run) && !ConsumptionStored(s, g)
    ensures exists later ::
              && QuietlyLeadsTo(Step(s, Begin(tid, pid, SaveResult(run, g))), later)
              && later.table == s.table + {ResultRow(run, g)} && !ConsumptionStored(later, g)
  {
    hide QuietlyLeadsTo, Step, Admitted;
    var later := SaveGoesThrough(s, tid, pid, run, g);
    assert forall p :: ConsumptionRow(g, p) in later.table ==> ConsumptionRow(g, p) in s.table;
  }

  // ----- one call with nothing else going on -----

  /** What a call does by itself: None when it raises. */
  function Alone(table: set<Write>, c: Cache, call: Call, storageOk: bool): Option<(set<Write>, Cache)> {
    var row := RowOf(call);
    if Admitted(c, call) && storageOk && forall w :: w in table ==> !Clash(w, row)
    then Some((table + {row}, Put(c, row))) else None
  }

  /** A readiness is registered once: neither its run nor its generation may be known or stored. */
  lemma RegisteredIff(table: set<Write>, c: Cache, r: Readiness, storageOk: bool)
    ensures var alone := Alone(table, c, AddReadiness(r), storageOk);
            && (alone.Some? <==>
                  && storageOk && r.runId !in c.readiness
                  && (forall run :: run in c.readiness ==> c.readiness[run].generationId != r.generationId)
                  && (forall x :: ReadinessRow(x) in table ==>
                        x.runId != r.runId && x.generationId != r.generationId))
            && (alone.Some? ==>
                  && alone.value.0 == table + {ReadinessRow(r)}
                  && alone.value.1 == c.(readiness := c.readiness[r.runId := r]))
  {}

  /**
   * A readiness is consumed exactly when it is the registered one, unexpired and unused, its approval is effective,
   * names it and its enabled control event, which is still the current one, and has not been used itself.
   */
  lemma ConsumedIff(table: set<Write>, c: Cache, r: Readiness, a: Approval, control: ControlEvent, at: Instant,
                    storageOk: bool)
    ensures var alone := Alone(table, c, Consume(r, a, control, at), storageOk);
            && (alone.Some? <==>
                  && storageOk && r.runId in c.readiness && c.readiness[r.runId] == r && r.digestMatches
                  && at < r.expiresAt && a.effectiveFrom <= at < a.expiresAt
                  && a.readiness == r && a.control == r.control == control && control.state == ControlEnabled
                  && r.generationId !in c.consumed
                  && (forall g, p :: ConsumptionRow(g, p) in table ==> g != r.generationId && p != a.approvalId))
            && (alone.Some? ==>
                  && alone.value.0 == table + {ConsumptionRow(r.generationId, a.approvalId)}
                  && alone.value.1 == c.(consumed := c.consumed[r.generationId := a.approvalId]))
  {}

  /** A result is saved once per run, and only for a generation known to be consumed. */
  lemma SavedIff(table: set<Write>, c: Cache, run: Identifier, g: Identifier, storageOk: bool)
    ensures var alone := Alone(table, c, SaveResult(run, g), storageOk);
            && (alone.Some? <==>
                  && storageOk && run !in c.results && g in c.consumed
                  && (forall r, h :: ResultRow(r, h) in table ==> r != run))
            && (alone.Some? ==>
                  && alone.value.0 == table + {ResultRow(run, g)}
                  && alone.value.1 == c.(results := c.results[run := g]))
  {}

  /** By itself a call takes three steps, and one that raises leaves the whole state as it found it. */
  lemma CallAlone(s: State, tid: nat, pid: nat, call: Call, storageOk: bool)
    requires tid !in s.threads && pid in s.caches && s.uncommitted == {}
    ensures var alone := Alone(s.table, s.caches[pid], call, storageOk);
            var s1 := Step(s, Begin(tid, pid, call));
            var s2 := Step(s1, Insert(tid, storageOk));
            match alone
            case None => Step(s2, Undo(tid)) == s
            case Some((table, cache)) =>
              Step(s2, Commit(tid, Acknowledged))
              == s.(table := table, writer := pid, caches := s.caches[pid := cache],
                    returned := s.returned + [RowOf(call)])
  {
    hide Put, Pop, Clash;
    var c := s.caches[pid];
    if Admitted(c, call) {
      hide Admitted, RowOf;
      var s1 := Step(s, Begin(tid, pid, call));
      var s2 := Step(s1, Insert(tid, storageOk));
      PopUndoesPut(c, call);
      assert s1.table + s1.uncommitted == s.table;
      assert s2.threads - {tid} == s.threads;
      if Alone(s.table, c, call, storageOk).None? {
        assert s2.uncommitted == {};
        assert Step(s2, Undo(tid)).caches == s.caches;
      } else {
        assert s2.uncommitted == {RowOf(call)};
        assert Step(s2, Commit(tid, Acknowledged)).table == s.table + {RowOf(call)};
      }
    }
  }
}
