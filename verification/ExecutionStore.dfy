/** Durable execution state: atomic claims, append-only lifecycle projections, and the control log. */
module ExecutionStore {
  import opened Prelude
  import opened RiskTypes
  import opened ExecutionTypes

  datatype Store = Store(
    records: map<Identifier, Record>,
    sources: map<Identifier, Identifier>,
    clients: map<Identifier, Identifier>,
    control: seq<ControlEvent>)

  function ControlState(log: seq<ControlEvent>): Control {
    if log == [] then ControlDisabled else log[|log| - 1].state
  }

  predicate CanClaim(s: Store, i: Intent) {
    i.intentId !in s.records && i.sourceDigest !in s.sources && i.clientTradeId !in s.clients
  }

  function ClaimRecord(i: Intent, preflight: Preflight, revalidation: Revalidation, owner: Identifier,
                       at: Instant): Record {
    Record(i, Claimed, Some(owner), preflight, revalidation, None, None, None, None,
           [Event(1, Created, i.createdAt, None), Event(2, Claimed, at, None)])
  }

  /** The store after a successful claim; None when the identity is taken or the record does not validate. */
  function Claim(s: Store, r: Record): Option<Store> {
    if CanClaim(s, r.intent) && ValidRecord(r) then
      Some(s.(records := s.records[r.intent.intentId := r],
              sources := s.sources[r.intent.sourceDigest := r.intent.intentId],
              clients := s.clients[r.intent.clientTradeId := r.intent.intentId]))
    else None
  }

  predicate ClaimIsOwned(s: Store, id: Identifier, owner: Identifier) {
    id in s.records && s.records[id].claimOwner == Some(owner) && s.records[id].phase == Claimed
  }

  /** A save may only append one event to the record already stored. */
  predicate CanSave(s: Store, r: Record) {
    && r.intent.intentId in s.records
    && var current := s.records[r.intent.intentId];
       && r.intent == current.intent && r.claimOwner == current.claimOwner
       && |r.events| == |current.events| + 1 && r.events[..|current.events|] == current.events
  }

  function Save(s: Store, r: Record): Option<Store> {
    if CanSave(s, r) then Some(s.(records := s.records[r.intent.intentId := r])) else None
  }

  function AppendControl(s: Store, e: ControlEvent): Option<Store> {
    if e.previous == (if s.control == [] then None else Some(ControlState(s.control)))
    then Some(s.(control := s.control + [e])) else None
  }

  /** What restart recovery does to one record; None when the receipt it must invent would not validate. */
  function RecoverRecord(r: Record, at: Instant): Option<Record> {
    match r.phase
    case Created | Claimed => Some(Extend(r, Refused, at, Some(ProcessRestart), None, None, None, None))
    case Dispatching | Submitted =>
      if r.submission.Some? then Some(Extend(r, Unknown, at, Some(DispatchResultUnknown), None, None, None, None))
      else if r.events == [] then None
      else
        var receipt := Receipt(Uncertain, r.events[|r.events| - 1].at, at);
        if ValidReceipt(receipt)
        then Some(Extend(r, Unknown, at, Some(DispatchResultUnknown), None, None, Some(receipt), None)) else None
    case _ => Some(r)
  }

  /** A claim needs three unused identities and a clock not behind the sealing; it stores the record under each. */
  lemma ClaimIff(s: Store, i: Intent, preflight: Preflight, revalidation: Revalidation, owner: Identifier, at: Instant)
    ensures var r := ClaimRecord(i, preflight, revalidation, owner, at);
            && r.intent == i && r.phase == Claimed && r.claimOwner == Some(owner) && r.preflight == preflight
            && r.revalidation == revalidation && r.submission.None? && r.reconciliation.None? && r.guard.None?
            && |r.events| == 2 && r.events[0].phase == Created && r.events[0].at == i.createdAt
            && r.events[1].phase == Claimed && r.events[1].at == at
            && (Claim(s, r).Some? <==>
                  && i.intentId !in s.records && i.sourceDigest !in s.sources && i.clientTradeId !in s.clients
                  && i.createdAt <= at)
            && (Claim(s, r).Some? ==>
                  Claim(s, r).value == Store(s.records[i.intentId := r], s.sources[i.sourceDigest := i.intentId],
                                             s.clients[i.clientTradeId := i.intentId], s.control))
  {}

  /** A save appends exactly one event to the stored record of the same intent and owner. */
  lemma SaveIff(s: Store, r: Record)
    ensures Save(s, r).Some? <==>
              && r.intent.intentId in s.records
              && var current := s.records[r.intent.intentId];
                 && r.intent == current.intent && r.claimOwner == current.claimOwner
                 && exists e :: r.events == current.events + [e]
    ensures Save(s, r).Some? ==> Save(s, r).value == s.(records := s.records[r.intent.intentId := r])
  {
    if CanSave(s, r) {
      var n := |s.records[r.intent.intentId].events|;
      assert r.events == r.events[..n] + [r.events[n]];
    }
  }

  /** Recovery refuses what was not dispatched, makes unknown what may have been, and leaves the rest alone. */
  lemma RecoveredAs(r: Record, at: Instant)
    requires ValidRecord(r)
    ensures var x, last := RecoverRecord(r, at), r.events[|r.events| - 1].at;
            match r.phase
            case Created | Claimed =>
              x == Some(r.(phase := Refused,
                           events := r.events + [Event(|r.events| + 1, Refused, at, Some(ProcessRestart))]))
            case Dispatching | Submitted =>
              && (x.Some? <==> r.submission.Some? || last <= at)
              && (x.Some? ==>
                    x.value == r.(phase := Unknown,
                                  submission := if r.submission.Some? then r.submission
                                                else Some(Receipt(Uncertain, last, at)),
                                  events := r.events
                                            + [Event(|r.events| + 1, Unknown, at, Some(DispatchResultUnknown))]))
            case _ => x == Some(r)
  {}

  predicate Incomplete(r: Record) { r.phase in {Created, Claimed, Dispatching, Submitted} }

  /** Recovery keeps the lifecycle exactly when its clock has not fallen behind the record's last event. */
  lemma RecoveryKeepsLifecycleIff(r: Record, at: Instant)
    requires ValidRecord(r) && Incomplete(r) && r.phase != Created
    ensures RecoverRecord(r, at).Some? && ValidRecord(RecoverRecord(r, at).value)
            <==> r.events[|r.events| - 1].at <= at
  {
    var target := if r.phase == Claimed then Refused else Unknown;
    var category := if r.phase == Claimed then ProcessRestart else DispatchResultUnknown;
    var receipt := if r.phase == Claimed || r.submission.Some? then None
                   else Some(Receipt(Uncertain, r.events[|r.events| - 1].at, at));
    ExtendValidIff(r, target, at, Some(category), None, None, receipt, None);
  }

  function RecoverAll(s: Store, at: Instant): Option<Store> {
    if forall id :: id in s.records ==> RecoverRecord(s.records[id], at).Some? then
      Some(s.(records := map id | id in s.records :: RecoverRecord(s.records[id], at).value))
    else None
  }

  class ExecutionRepository {
    var records: map<Identifier, Record>
    var sources: map<Identifier, Identifier>
    var clients: map<Identifier, Identifier>
    var control: seq<ControlEvent>

    function Abs(): Store
      reads this
    {
      Store(records, sources, clients, control)
    }

    constructor ()
      ensures Abs() == Store(map[], map[], map[], [])
    {
      records, sources, clients, control := map[], map[], map[], [];
    }

    method AppendControlEvent(e: ControlEvent) returns (ok: bool)
      modifies this`control
      ensures ok == AppendControl(old(Abs()), e).Some?
      ensures Abs() == if ok then AppendControl(old(Abs()), e).value else old(Abs())
    {
      var previous: Option<Control> := None;
      if control != [] {
        previous := Some(control[|control| - 1].state);
      }
      if e.previous != previous {
        return false;
      }
      control := control + [e];
      ok := true;
    }

    method ClaimExecution(i: Intent, preflight: Preflight, revalidation: Revalidation, owner: Identifier, at: Instant)
      returns (claimed: Option<Record>)
      modifies this`records, this`sources, this`clients
      ensures var r := ClaimRecord(i, preflight, revalidation, owner, at);
              && claimed == (if Claim(old(Abs()), r).Some? then Some(r) else None)
              && Abs() == (if claimed.Some? then Claim(old(Abs()), r).value else old(Abs()))
    {
      if i.intentId in records || i.sourceDigest in sources || i.clientTradeId in clients {
        return None;
      }
      var r := Record(i, Claimed, Some(owner), preflight, revalidation, None, None, None, None,
                      [Event(1, Created, i.createdAt, None), Event(2, Claimed, at, None)]);
      if !ValidRecord(r) {
        return None;
      }
      records := records[i.intentId := r];
      sources := sources[i.sourceDigest := i.intentId];
      clients := clients[i.clientTradeId := i.intentId];
      claimed := Some(r);
    }

    method SaveRecord(r: Record) returns (ok: bool)
      modifies this`records
      ensures ok == Save(old(Abs()), r).Some?
      ensures Abs() == if ok then Save(old(Abs()), r).value else old(Abs())
    {
      if r.intent.intentId !in records {
        return false;
      }
      var current := records[r.intent.intentId];
      if r.intent != current.intent || r.claimOwner != current.claimOwner {
        return false;
      }
      if |r.events| != |current.events| + 1 || r.events[..|r.events| - 1] != current.events {
        return false;
      }
      records := records[r.intent.intentId := r];
      ok := true;
    }

    /** Walks every record once, in any order; a record it cannot recover stops the walk. */
    method RecoverIncomplete(at: Instant) returns (ok: bool)
      modifies this`records
      ensures ok == RecoverAll(old(Abs()), at).Some?
      ensures ok ==> Abs() == RecoverAll(old(Abs()), at).value
      ensures records.Keys == old(records.Keys)
      ensures forall id :: id in records ==>
                records[id] == old(records[id]) || Some(records[id]) == RecoverRecord(old(records[id]), at)
    {
      ghost var before := records;
      var pending := records.Keys;
      while pending != {}
        invariant pending <= before.Keys == records.Keys
        invariant forall id :: id in pending ==> records[id] == before[id]
        invariant forall id :: id in before.Keys - pending ==> Some(records[id]) == RecoverRecord(before[id], at)
        decreases pending
      {
        var id :| id in pending;
        var recovered := RecoverRecord(records[id], at);
        if recovered.None? {
          return false;
        }
        records := records[id := recovered.value];
        pending := pending - {id};
      }
      ok := true;
    }
  }
}
