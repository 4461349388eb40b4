/**
 * The durable readiness repository in its own imperative form, and the two-phase coordinator that consumes one
 * readiness generation, runs the one-shot execution service, stores the result and closes execution control.
 */
module AcceptanceCoordination {
  import opened Prelude
  import opened RiskTypes
  import opened ExecutionTypes
  import opened ExecutionStore
  import opened ReadinessProtocol
  import P = ExecutionProtocol
  import S = ExecutionService

  /** The shared database; a row is refused when it clashes with a stored one or storage fails. */
  class Tables {
    var rows: set<Write>

    constructor ()
      ensures rows == {}
    {
      rows := {};
    }

    method Insert(row: Write, storageOk: bool) returns (ok: bool)
      modifies this
      ensures ok <==> storageOk && forall w :: w in old(rows) ==> !Clash(w, row)
      ensures rows == if ok then old(rows) + {row} else old(rows)
    {
      ok := storageOk;
      var rest := rows;
      while ok && rest != {}
        invariant rest <= rows == old(rows)
        invariant ok ==> storageOk && forall w :: w in rows - rest ==> !Clash(w, row)
        invariant !ok && storageOk ==> exists w :: w in rows && Clash(w, row)
        decreases ok, rest
      {
        var w :| w in rest;
        ok := !Clash(w, row);
        rest := rest - {w};
      }
      if ok {
        rows := rows + {row};
      }
    }
  }

  predicate Holds(c: Cache, w: Write) {
    match w
    case ReadinessRow(r) => r.runId in c.readiness && c.readiness[r.runId] == r
    case ConsumptionRow(g, p) => g in c.consumed && c.consumed[g] == p
    case ResultRow(run, g) => run in c.results && c.results[run] == g
  }

  /** The cache is exactly the given rows. */
  ghost predicate Mirrors(rows: set<Write>, c: Cache) {
    && (forall w :: w in rows ==> Holds(c, w))
    && (forall run :: run in c.readiness ==> c.readiness[run].runId == run && ReadinessRow(c.readiness[run]) in rows)
    && (forall g :: g in c.consumed ==> ConsumptionRow(g, c.consumed[g]) in rows)
    && (forall run :: run in c.results ==> ResultRow(run, c.results[run]) in rows)
  }

  lemma MirrorsOneMore(rows: set<Write>, c: Cache, w: Write)
    requires Mirrors(rows, c) && forall v :: v in rows ==> !Clash(v, w)
    ensures Mirrors(rows + {w}, Put(c, w))
  {}

  class AcceptanceRepository {
    const tables: Tables
    var readiness: map<Identifier, Readiness>
    var consumed: map<Identifier, Identifier>
    var results: map<Identifier, Identifier>

    function View(): Cache
      reads this
    {
      Cache(readiness, consumed, results)
    }

    /** Starts with an empty cache and loads every stored row into it. */
    constructor (tables: Tables)
      requires NoClashes(tables.rows)
      ensures this.tables == tables && Mirrors(tables.rows, View())
    {
      this.tables := tables;
      readiness, consumed, results := map[], map[], map[];
      new;
      var rest := tables.rows;
      while rest != {}
        invariant rest <= tables.rows
        invariant Mirrors(tables.rows - rest, View())
        decreases rest
      {
        var w :| w in rest;
        MirrorsOneMore(tables.rows - rest, View(), w);
        assert tables.rows - (rest - {w}) == tables.rows - rest + {w};
        match w {
          case ReadinessRow(r) => readiness := readiness[r.runId := r];
          case ConsumptionRow(g, p) => consumed := consumed[g := p];
          case ResultRow(run, g) => results := results[run := g];
        }
        rest := rest - {w};
      }
      assert tables.rows - rest == tables.rows;
    }

    method AddReadiness(item: Readiness, storageOk: bool) returns (ok: bool)
      modifies this, tables
      ensures var alone := Alone(old(tables.rows), old(View()), Call.AddReadiness(item), storageOk);
              && ok == alone.Some?
              && (tables.rows, View()) == if ok then alone.value else (old(tables.rows), old(View()))
    {
      var used := set run | run in readiness :: readiness[run].generationId;
      assert item.generationId in used <==>
               exists run :: run in readiness && readiness[run].generationId == item.generationId;
      if item.runId in readiness || item.generationId in used {
        return false;
      }
      readiness := readiness[item.runId := item];
      ok := tables.Insert(ReadinessRow(item), storageOk);
      if !ok {
        PopUndoesPut(old(View()), Call.AddReadiness(item));
        readiness := readiness - {item.runId};
      }
    }

    method ConsumeReadiness(evidence: Readiness, approval: Approval, control: ControlEvent, at: Instant,
                            storageOk: bool)
      returns (ok: bool)
      modifies this, tables
      ensures var alone := Alone(old(tables.rows), old(View()), Consume(evidence, approval, control, at), storageOk);
              && ok == alone.Some?
              && (tables.rows, View()) == if ok then alone.value else (old(tables.rows), old(View()))
    {
      if !(evidence.runId in readiness && readiness[evidence.runId] == evidence && evidence.digestMatches) {
        return false;
      }
      if evidence.generationId in consumed {
        return false;
      }
      if at >= evidence.expiresAt || !AppliesAt(approval, at) {
        return false;
      }
      if !(approval.readiness == evidence && approval.control == evidence.control && approval.control == control
           && control.state == ControlEnabled) {
        return false;
      }
      consumed := consumed[evidence.generationId := approval.approvalId];
      ok := tables.Insert(ConsumptionRow(evidence.generationId, approval.approvalId), storageOk);
      if !ok {
        PopUndoesPut(old(View()), Consume(evidence, approval, control, at));
        consumed := consumed - {evidence.generationId};
      }
    }

    method Save(run: Identifier, generation: Identifier, storageOk: bool) returns (ok: bool)
      modifies this, tables
      ensures var alone := Alone(old(tables.rows), old(View()), SaveResult(run, generation), storageOk);
              && ok == alone.Some?
              && (tables.rows, View()) == if ok then alone.value else (old(tables.rows), old(View()))
    {
      if run in results || generation !in consumed {
        return false;
      }
      results := results[run := generation];
      ok := tables.Insert(ResultRow(run, generation), storageOk);
      if !ok {
        PopUndoesPut(old(View()), SaveResult(run, generation));
        results := results - {run};
      }
    }
  }

  datatype Outcome =
    | NotConsumed            // refused before anything changed
    | ExecutionRaised        // consumed, then the execution service raised
    | ResultInvalid          // executed, but the audit or the result record could not be built
    | PersistenceRaised      // executed, but the result was not stored
    | Completed(record: Record)

  predicate Enabled(log: seq<ControlEvent>) { log != [] && log[|log| - 1].state == ControlEnabled }

  /** Closing control: from ENABLED to the given state, and otherwise no change. */
  function Closed(log: seq<ControlEvent>, state: Control, at: Instant): seq<ControlEvent> {
    if Enabled(log) then log + [ControlEvent(Some(ControlEnabled), state, at)] else log
  }

  function FinalControl(phase: Phase): Control {
    if phase == Confirmed || phase == Refused then ControlPaused else ControlHalted
  }

  /** What an operator's approval must be for the readiness to be consumed, and that neither was used before. */
  ghost predicate Consumable(rows: set<Write>, c: Cache, r: Readiness, a: Approval, control: ControlEvent, at: Instant)
  {
    && r.runId in c.readiness && c.readiness[r.runId] == r && r.digestMatches
    && at < r.expiresAt && a.effectiveFrom <= at < a.expiresAt
    && a.readiness == r && a.control == r.control == control && control.state == ControlEnabled
    && r.generationId !in c.consumed
    && forall g, p :: ConsumptionRow(g, p) in rows ==> g != r.generationId && p != a.approvalId
  }

  lemma ConsumptionNamesControl(rows: set<Write>, c: Cache, r: Readiness, a: Approval, control: ControlEvent,
                                at: Instant)
    ensures Alone(rows, c, Consume(r, a, control, at), true).Some? ==> a.control == control
    ensures r.generationId in c.consumed ==> Alone(rows, c, Consume(r, a, control, at), true).None?
    ensures Alone(rows, c, Consume(r, a, control, at), true).Some? <==> Consumable(rows, c, r, a, control, at)
    ensures Alone(rows, c, Consume(r, a, control, at), false).None?
    ensures Consumable(rows, c, r, a, control, at) ==> control.state == ControlEnabled && r.generationId !in c.consumed
  {
    ConsumedIff(rows, c, r, a, control, at, true);
  }

  lemma ResultIsFinished(pc: P.Pc, result: Option<Record>)
    ensures S.Finished(pc, result) && result.Some? ==> S.Finished(pc, S.ResultOf(pc))
  {}

  class Coordinator {
    const repository: ExecutionRepository
    const service: S.Service
    const acceptance: AcceptanceRepository

    constructor (service: S.Service, acceptance: AcceptanceRepository)
      ensures this.service == service && this.repository == service.repository && this.acceptance == acceptance
    {
      this.service := service;
      this.repository := service.repository;
      this.acceptance := acceptance;
    }

    method SetControl(state: Control, at: Instant)
      modifies repository`control
      ensures repository.control == Closed(old(repository.control), state, at)
    {
      if repository.control != [] && repository.control[|repository.control| - 1].state == ControlEnabled {
        var _ := repository.AppendControlEvent(ControlEvent(Some(ControlEnabled), state, at));
      }
    }

    /**
     * Consumes the readiness once and runs the execution service once. `reached` is where the service's own run
     * ended. Storage may fail at either insert, and the audit or the result record may not validate.
     */
    method ExecuteOnce(readiness: Readiness, approval: Approval, request: P.Input, world: S.World, consumedAt: Instant,
                       consumptionStored: bool, resultValid: bool, resultStored: bool, closeAt: Instant)
      returns (outcome: Outcome, ghost reached: P.Config, ghost trace: seq<P.Input>)
      requires service.repository == repository && request.BeginExecute?
      modifies acceptance, acceptance.tables, service`submitted, repository
      // Refused: nothing changed, and in particular a generation already consumed is always refused.
      ensures readiness.generationId in old(acceptance.consumed) ==> outcome == NotConsumed
      ensures outcome == NotConsumed ==>
                && acceptance.tables.rows == old(acceptance.tables.rows) && acceptance.View() == old(acceptance.View())
                && repository.Abs() == old(repository.Abs()) && service.submitted == old(service.submitted)
      // Not refused exactly when the registered readiness is consumable now; nothing else can stop the execution.
      ensures outcome != NotConsumed <==>
                && consumptionStored && old(repository.control) != []
                && Consumable(old(acceptance.tables.rows), old(acceptance.View()), readiness, approval,
                              old(repository.control[|repository.control| - 1]), consumedAt)
      // Otherwise the consumption was stored first, against the enabled control event that the approval names,
      // and no earlier row used that generation or that approval.
      ensures outcome != NotConsumed ==>
                && var row := ConsumptionRow(readiness.generationId, approval.approvalId);
                   && row in acceptance.tables.rows
                   && (forall w :: w in old(acceptance.tables.rows) ==> !Clash(w, row))
                   && old(Enabled(repository.control))
                   && approval.control == old(repository.control[|repository.control| - 1])
                   && acceptance.tables.rows - {row, ResultRow(readiness.runId, readiness.generationId)}
                      <= old(acceptance.tables.rows)
      // The service ran exactly once: everything it submitted and stored is one run of its protocol.
      ensures outcome != NotConsumed ==>
                && reached == S.RunThread(P.Config(old(repository.Abs()), old(service.submitted), P.Idle), trace)
                && S.AllAnswered(world, trace) && trace != [] && trace[0] == request
                && service.submitted == reached.submitted
                && repository.Abs() == reached.store.(control := repository.control)
                && S.Finished(reached.pc, if outcome.Completed? then Some(outcome.record)
                                          else if outcome == ExecutionRaised then None else S.ResultOf(reached.pc))
      // How execution control is left.
      ensures match outcome
              case NotConsumed => true
              case ResultInvalid => repository.control == reached.store.control
              case Completed(r) =>
                && repository.control == Closed(reached.store.control, FinalControl(r.phase), closeAt)
                && (Enabled(reached.store.control) ==>
                      repository.control[|repository.control| - 1].state
                      == if r.phase.Confirmed? || r.phase.Refused? then ControlPaused else ControlHalted)
              case _ => repository.control == Closed(reached.store.control, ControlHalted, closeAt)
      ensures outcome in {ExecutionRaised, PersistenceRaised} || outcome.Completed? ==> !Enabled(repository.control)
      ensures outcome.Completed? <==>
                var row := ResultRow(readiness.runId, readiness.generationId);
                row in acceptance.tables.rows && row !in old(acceptance.tables.rows)
    {
      hide Consumable, Admitted, P.Step, S.RunThread, S.AllAnswered, S.Finished, S.ResultOf, S.Executed,
           S.AtFreshQuote, P.Begin;
      reached, trace := P.Config(repository.Abs(), service.submitted, P.Idle), [];
      if repository.control != [] {
        ConsumptionNamesControl(acceptance.tables.rows, acceptance.View(), readiness, approval,
                                repository.control[|repository.control| - 1], consumedAt);
      }
      if readiness.generationId in acceptance.consumed {
        return NotConsumed, reached, trace;
      }
      if repository.control == [] || repository.control[|repository.control| - 1].state != ControlEnabled {
        return NotConsumed, reached, trace;
      }
      var control := repository.control[|repository.control| - 1];
      var consumed := acceptance.ConsumeReadiness(readiness, approval, control, consumedAt, consumptionStored);
      if !consumed {
        return NotConsumed, reached, trace;
      }
      var result;
      result, trace := service.Execute(request, world);
      reached := S.RunThread(reached, trace);
      if result.Some? { ResultIsFinished(reached.pc, result); }
      if result.None? {
        SetControl(ControlHalted, closeAt);
        return ExecutionRaised, reached, trace;
      }
      if !resultValid {
        return ResultInvalid, reached, trace;
      }
      var saved := acceptance.Save(readiness.runId, readiness.generationId, resultStored);
      if !saved {
        SetControl(ControlHalted, closeAt);
        return PersistenceRaised, reached, trace;
      }
      SetControl(FinalControl(result.value.phase), closeAt);
      outcome := Completed(result.value);
    }
  }
}
