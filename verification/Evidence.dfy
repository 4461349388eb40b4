/**
 * Append-only qualification evidence: open, sealed, evaluated. Digests are taken to be injective, so a digest is
 * modelled by the content it is taken of: a revision holds its predecessor, a seal holds the sealed content.
 */
module QualificationEvidence {
  import opened Prelude
  import opened RiskTypes
  import opened Ordering

  datatype Claim = Claim(key: Identifier, closeAt: Instant)

  datatype Link = Link(cycleId: Identifier, snapshotId: Identifier, proposalId: Identifier)

  /** `intent` is the proposal link of a shadow intent with the digest of its proposal. */
  datatype Decision = Decision(recordId: Identifier, key: Identifier, intent: Option<(Link, Identifier)>,
                               body: Identifier)

  datatype Outcome = Outcome(
    outcomeId: Identifier,
    partitionId: Identifier,
    partitionKind: Identifier,
    cutoff: Instant,
    endedAt: Instant,
    link: Link,
    proposalDigest: Identifier)

  /** A pricing profile, an incident or a piece of safety evidence, by its identity. */
  datatype Artifact = Artifact(id: Identifier, body: Identifier)

  datatype Partition = Partition(partitionId: Identifier, kind: Identifier, evaluationStart: Instant,
                                 evaluationEnd: Instant)

  datatype Rows = Rows(
    claims: seq<Claim>,
    decisions: seq<Decision>,
    outcomes: seq<Outcome>,
    pricing: seq<Artifact>,
    incidents: seq<Artifact>,
    safety: seq<Artifact>)

  /** The sealed identity and evidence, without revision and lifecycle. */
  datatype Content = Content(identity: Identifier, partition: Partition, openedAt: Instant, rows: Rows)

  datatype Lifecycle = Open | Sealed | EvaluatedEvidence

  datatype Dataset = Dataset(
    identity: Identifier,
    partition: Partition,
    openedAt: Instant,
    lifecycle: Lifecycle,
    revision: int,
    previous: Option<Dataset>,
    sealedAt: Option<Instant>,
    evaluatedAt: Option<Instant>,
    sealedContent: Option<Content>,
    evaluation: Option<Identifier>,
    rows: Rows)

  datatype Error = NotOpen | NotSealed | DigestMismatch | Invalid

  datatype Result<+T> = Ok(value: T) | Err(error: Error)

  function ContentOf(d: Dataset): Content { Content(d.identity, d.partition, d.openedAt, d.rows) }

  // ----- the validator -----

  predicate LifecycleOk(d: Dataset) {
    && 1 <= d.revision
    && (match d.lifecycle
        case Open => d.sealedAt.None? && d.evaluatedAt.None? && d.sealedContent.None? && d.evaluation.None?
        case Sealed => d.sealedAt.Some? && d.sealedContent.Some? && d.evaluatedAt.None? && d.evaluation.None?
        case EvaluatedEvidence =>
          d.sealedAt.Some? && d.evaluatedAt.Some? && d.sealedContent.Some? && d.evaluation.Some?)
    && (d.sealedAt.Some? ==> d.openedAt <= d.sealedAt.value)
    && (d.evaluatedAt.Some? ==> d.sealedAt.Some? && d.sealedAt.value <= d.evaluatedAt.value)
  }

  predicate UniqueIdentities(r: Rows) {
    && (forall i, j :: 0 <= i < j < |r.claims| ==> r.claims[i].key != r.claims[j].key)
    && (forall i, j :: 0 <= i < j < |r.decisions| ==> r.decisions[i].recordId != r.decisions[j].recordId)
    && (forall i, j :: 0 <= i < j < |r.outcomes| ==> r.outcomes[i].outcomeId != r.outcomes[j].outcomeId)
    && (forall i, j :: 0 <= i < j < |r.pricing| ==> r.pricing[i].id != r.pricing[j].id)
    && (forall i, j :: 0 <= i < j < |r.incidents| ==> r.incidents[i].id != r.incidents[j].id)
    && (forall i, j :: 0 <= i < j < |r.safety| ==> r.safety[i].id != r.safety[j].id)
  }

  predicate MembershipOk(r: Rows, p: Partition) {
    && (forall c :: c in r.claims ==> p.evaluationStart <= c.closeAt < p.evaluationEnd)
    && (forall d :: d in r.decisions ==> exists c :: c in r.claims && c.key == d.key)
    && (forall o :: o in r.outcomes ==>
          && o.partitionId == p.partitionId && o.partitionKind == p.kind
          && p.evaluationStart <= o.cutoff && o.endedAt <= p.evaluationEnd)
  }

  /** The proposal digest a link is bound to: the last decision carrying the link wins. */
  function IntentFor(decisions: seq<Decision>, link: Link): Option<Identifier> {
    if decisions == [] then None
    else
      var last := decisions[|decisions| - 1];
      if last.intent.Some? && last.intent.value.0 == link then Some(last.intent.value.1)
      else IntentFor(decisions[..|decisions| - 1], link)
  }

  predicate LinkageOk(r: Rows) {
    forall o :: o in r.outcomes ==> IntentFor(r.decisions, o.link) == Some(o.proposalDigest)
  }

  predicate ValidDataset(d: Dataset) {
    LifecycleOk(d) && d.rows.safety != [] && UniqueIdentities(d.rows) && MembershipOk(d.rows, d.partition)
      && LinkageOk(d.rows)
  }

  function Validated(d: Dataset): Result<Dataset> { if ValidDataset(d) then Ok(d) else Err(Invalid) }

  // ----- transitions -----

  const ByClaim: (Claim, Claim) -> bool := (a: Claim, b: Claim) => StringLess(a.key, b.key)
  const ByDecision: (Decision, Decision) -> bool := (a: Decision, b: Decision) => StringLess(a.key, b.key)
  const ByOutcome: (Outcome, Outcome) -> bool := (a: Outcome, b: Outcome) => StringLess(a.outcomeId, b.outcomeId)
  const ByArtifact: (Artifact, Artifact) -> bool := (a: Artifact, b: Artifact) => StringLess(a.id, b.id)

  function Merge(r: Rows, batch: Rows): Rows {
    Rows(SortBy(r.claims + batch.claims, ByClaim),
         SortBy(r.decisions + batch.decisions, ByDecision),
         SortBy(r.outcomes + batch.outcomes, ByOutcome),
         SortBy(r.pricing + batch.pricing, ByArtifact),
         SortBy(r.incidents + batch.incidents, ByArtifact),
         SortBy(r.safety + batch.safety, ByArtifact))
  }

  function Append(d: Dataset, batch: Rows): Result<Dataset> {
    if d.lifecycle != Open then Err(NotOpen)
    else Validated(d.(revision := d.revision + 1, previous := Some(d), rows := Merge(d.rows, batch)))
  }

  function Seal(d: Dataset, at: Instant): Result<Dataset> {
    if d.lifecycle != Open then Err(NotOpen)
    else Validated(d.(lifecycle := Sealed, revision := d.revision + 1, previous := Some(d), sealedAt := Some(at),
                      sealedContent := Some(ContentOf(d))))
  }

  /** None when the sealed evidence is intact. */
  function Verify(d: Dataset): Option<Error> {
    if d.lifecycle == Open then Some(NotSealed)
    else if d.sealedContent != Some(ContentOf(d)) then Some(DigestMismatch)
    else None
  }

  function MarkEvaluated(d: Dataset, evaluation: Identifier, at: Instant): Result<Dataset> {
    if Verify(d).Some? then Err(Verify(d).value)
    else if d.lifecycle != Sealed then Err(NotSealed)
    else Validated(d.(lifecycle := EvaluatedEvidence, revision := d.revision + 1, previous := Some(d),
                      evaluatedAt := Some(at), evaluation := Some(evaluation)))
  }

  function AppendAll(d: Dataset, batches: seq<Rows>): Result<Dataset> {
    if batches == [] then Ok(d)
    else
      var before := AppendAll(d, batches[..|batches| - 1]);
      if before.Err? then before else Append(before.value, batches[|batches| - 1])
  }

  // ----- the order of appends does not matter -----

  datatype Bag = Bag(
    claims: multiset<Claim>,
    decisions: multiset<Decision>,
    outcomes: multiset<Outcome>,
    pricing: multiset<Artifact>,
    incidents: multiset<Artifact>,
    safety: multiset<Artifact>)

  function BagOf(r: Rows): Bag {
    Bag(multiset(r.claims), multiset(r.decisions), multiset(r.outcomes), multiset(r.pricing), multiset(r.incidents),
        multiset(r.safety))
  }

  function Plus(a: Bag, b: Bag): Bag {
    Bag(a.claims + b.claims, a.decisions + b.decisions, a.outcomes + b.outcomes, a.pricing + b.pricing,
        a.incidents + b.incidents, a.safety + b.safety)
  }

  function BagOfAll(d: Dataset, batches: seq<Rows>): Bag {
    if batches == [] then BagOf(d.rows) else Plus(BagOfAll(d, batches[..|batches| - 1]), BagOf(batches[|batches| - 1]))
  }

  lemma MergeKeepsRows(r: Rows, batch: Rows)
    ensures BagOf(Merge(r, batch)) == Plus(BagOf(r), BagOf(batch))
  {
    SortPermutes(r.claims + batch.claims, ByClaim);
    SortPermutes(r.decisions + batch.decisions, ByDecision);
    SortPermutes(r.outcomes + batch.outcomes, ByOutcome);
    SortPermutes(r.pricing + batch.pricing, ByArtifact);
    SortPermutes(r.incidents + batch.incidents, ByArtifact);
    SortPermutes(r.safety + batch.safety, ByArtifact);
  }

  /** After any appends the rows are exactly what was there and what was added. */
  lemma {:induction false} AppendsAccumulate(d: Dataset, batches: seq<Rows>)
    requires AppendAll(d, batches).Ok?
    ensures BagOf(AppendAll(d, batches).value.rows) == BagOfAll(d, batches)
  {
    hide Merge, BagOf, Plus, ValidDataset;
    if batches != [] {
      var n := |batches| - 1;
      AppendsAccumulate(d, batches[..n]);
      MergeKeepsRows(AppendAll(d, batches[..n]).value.rows, batches[n]);
    }
  }

  /** Appends change nothing but rows, revision and predecessor. */
  lemma {:induction false} AppendsKeepIdentity(d: Dataset, batches: seq<Rows>)
    requires AppendAll(d, batches).Ok?
    ensures var e := AppendAll(d, batches).value;
            e == d.(revision := d.revision + |batches|, previous := e.previous, rows := e.rows)
  {
    hide Merge, ValidDataset;
    if batches != [] { AppendsKeepIdentity(d, batches[..|batches| - 1]); }
  }

  lemma LastMerge(d: Dataset, batches: seq<Rows>) returns (r: Rows)
    requires batches != [] && AppendAll(d, batches).Ok?
    ensures AppendAll(d, batches).value.rows == Merge(r, batches[|batches| - 1])
  {
    hide Merge, ValidDataset;
    r := AppendAll(d, batches[..|batches| - 1]).value.rows;
  }

  lemma ValidatedIsValid(d: Dataset, batches: seq<Rows>)
    requires batches != [] && AppendAll(d, batches).Ok?
    ensures ValidDataset(AppendAll(d, batches).value)
  {
    hide Merge, ValidDataset;
  }

  // ----- what an append and a seal accept -----

  /** The last decision carrying a link binds it. */
  lemma {:induction false} IntentForIff(decisions: seq<Decision>, link: Link, digest: Identifier)
    ensures IntentFor(decisions, link) == Some(digest) <==> exists k: nat :: BindsLast(decisions, link, digest, k)
  {
    if decisions != [] {
      var n := |decisions| - 1;
      var before, last := decisions[..n], decisions[n];
      IntentForIff(before, link, digest);
      if last.intent.Some? && last.intent.value.0 == link {
        if last.intent.value.1 == digest { assert BindsLast(decisions, link, digest, n); }
        if k: nat :| BindsLast(decisions, link, digest, k) { assert k == n; }
      } else {
        if k: nat :| BindsLast(before, link, digest, k) { assert BindsLast(decisions, link, digest, k); }
        if k: nat :| BindsLast(decisions, link, digest, k) { assert BindsLast(before, link, digest, k); }
      }
    }
  }

  predicate BindsLast(decisions: seq<Decision>, link: Link, digest: Identifier, k: nat) {
    && k < |decisions| && decisions[k].intent == Some((link, digest))
    && forall j :: k < j < |decisions| && decisions[j].intent.Some? ==> decisions[j].intent.value.0 != link
  }

  const ClaimKey: Claim -> Identifier := (c: Claim) => c.key
  const RecordId: Decision -> Identifier := (d: Decision) => d.recordId
  const DecisionKey: Decision -> Identifier := (d: Decision) => d.key
  const OutcomeId: Outcome -> Identifier := (o: Outcome) => o.outcomeId
  const ArtifactId: Artifact -> Identifier := (a: Artifact) => a.id

  /** No two rows of one kind share an identity. */
  ghost predicate NoneTwice<T(!new)>(rows: seq<T>, id: T -> Identifier) {
    forall i, j :: 0 <= i < j < |rows| ==> id(rows[i]) != id(rows[j])
  }

  lemma NoneTwiceSorted<T(!new)>(rows: seq<T>, less: (T, T) -> bool, id: T -> Identifier)
    ensures NoneTwice(SortBy(rows, less), id) <==> NoneTwice(rows, id)
    ensures forall x :: x in SortBy(rows, less) <==> x in rows
    ensures |SortBy(rows, less)| == |rows|
  {
    SortPermutes(rows, less);
    SameElements(rows, SortBy(rows, less));
    if NoneTwice(rows, id) { NoneTwiceEither(rows, SortBy(rows, less), id); }
    if NoneTwice(SortBy(rows, less), id) { NoneTwiceEither(SortBy(rows, less), rows, id); }
  }

  lemma NoneTwiceEither<T(!new)>(s: seq<T>, t: seq<T>, id: T -> Identifier)
    requires multiset(s) == multiset(t) && NoneTwice(s, id)
    ensures NoneTwice(t, id)
  {
    var byId := (a: T, b: T) => StringLess(id(a), id(b));
    forall a: string, b: string ensures StringLess(a, b) || StringLess(b, a) || a == b
      ensures !(StringLess(a, b) && StringLess(b, a)) && !StringLess(a, a)
    {
      StringTrichotomy(a, b);
    }
    forall a: string, b: string, c: string | StringLess(a, b) && StringLess(b, c) ensures StringLess(a, c) {
      StringTransitive(a, b, c);
    }
    hide StringLess;
    SeparatedToo(s, t, byId);
  }

  /**
   * Rows fit a partition: claims close within it, every decision has a claim under its key, every outcome belongs to
   * it, and no identity repeats.
   */
  ghost predicate Fits(claims: seq<Claim>, decisions: seq<Decision>, outcomes: seq<Outcome>, pricing: seq<Artifact>,
                       incidents: seq<Artifact>, safety: seq<Artifact>, p: Partition)
  {
    && NoneTwice(claims, ClaimKey) && NoneTwice(decisions, RecordId)
    && NoneTwice(outcomes, OutcomeId)
    && NoneTwice(pricing, ArtifactId) && NoneTwice(incidents, ArtifactId)
    && NoneTwice(safety, ArtifactId) && safety != [] && Placed(claims, decisions, outcomes, p)
  }

  predicate Placed(claims: seq<Claim>, decisions: seq<Decision>, outcomes: seq<Outcome>, p: Partition) {
    && (forall c :: c in claims ==> p.evaluationStart <= c.closeAt < p.evaluationEnd)
    && (forall d :: d in decisions ==> exists c :: c in claims && c.key == d.key)
    && (forall o :: o in outcomes ==>
          && o.partitionId == p.partitionId && o.partitionKind == p.kind
          && p.evaluationStart <= o.cutoff && o.endedAt <= p.evaluationEnd)
  }

  lemma PlacedSame(c: seq<Claim>, c': seq<Claim>, d: seq<Decision>, d': seq<Decision>, o: seq<Outcome>,
                   o': seq<Outcome>, p: Partition)
    requires forall x :: x in c <==> x in c'
    requires forall x :: x in d <==> x in d'
    requires forall x :: x in o <==> x in o'
    ensures Placed(c, d, o, p) <==> Placed(c', d', o', p)
  {}

  /** In whatever order the rows came, the outcomes are bound by the decisions as they end up sorted. */
  ghost predicate Bound(outcomes: seq<Outcome>, sorted: seq<Decision>) {
    forall o :: o in outcomes ==> exists k: nat :: BindsLast(sorted, o.link, o.proposalDigest, k)
  }

  lemma RowsFit(r: Rows, p: Partition)
    ensures UniqueIdentities(r) && MembershipOk(r, p) && r.safety != []
            <==> Fits(r.claims, r.decisions, r.outcomes, r.pricing, r.incidents, r.safety, p)
  {}

  lemma SortedFits(r: Rows, x: Rows, p: Partition)
    ensures var m := Merge(r, x);
            Fits(m.claims, m.decisions, m.outcomes, m.pricing, m.incidents, m.safety, p)
            <==> Fits(r.claims + x.claims, r.decisions + x.decisions, r.outcomes + x.outcomes, r.pricing + x.pricing,
                      r.incidents + x.incidents, r.safety + x.safety, p)
  {
    NoneTwiceSorted(r.claims + x.claims, ByClaim, ClaimKey);
    NoneTwiceSorted(r.decisions + x.decisions, ByDecision, RecordId);
    NoneTwiceSorted(r.outcomes + x.outcomes, ByOutcome, OutcomeId);
    NoneTwiceSorted(r.pricing + x.pricing, ByArtifact, ArtifactId);
    NoneTwiceSorted(r.incidents + x.incidents, ByArtifact, ArtifactId);
    NoneTwiceSorted(r.safety + x.safety, ByArtifact, ArtifactId);
    hide NoneTwice, Placed, ByClaim, ByDecision, ByOutcome, ByArtifact;
    PlacedSame(r.claims + x.claims, SortBy(r.claims + x.claims, ByClaim), r.decisions + x.decisions,
               SortBy(r.decisions + x.decisions, ByDecision), r.outcomes + x.outcomes,
               SortBy(r.outcomes + x.outcomes, ByOutcome), p);
  }

  /** The keys never go down along the rows. */
  ghost predicate KeysAscend<T(!new)>(rows: seq<T>, key: T -> Identifier) {
    forall i, j :: 0 <= i < j < |rows| ==> !StringLess(key(rows[j]), key(rows[i]))
  }

  /**
   * An append is accepted exactly when the dataset is open, the rows it holds and the added ones together fit its
   * partition, and every outcome is bound. The rows are then those of before and the added ones, each kind sorted.
   */
  lemma AppendIff(d: Dataset, batch: Rows)
    requires d.lifecycle == Open ==> LifecycleOk(d)
    ensures var r := d.rows;
            Append(d, batch).Ok? <==>
              && d.lifecycle == Open
              && Fits(r.claims + batch.claims, r.decisions + batch.decisions, r.outcomes + batch.outcomes,
                      r.pricing + batch.pricing, r.incidents + batch.incidents, r.safety + batch.safety, d.partition)
              && Bound(r.outcomes + batch.outcomes, Merge(r, batch).decisions)
    ensures Append(d, batch).Ok? ==>
              var e := Append(d, batch).value;
              && e == d.(revision := d.revision + 1, previous := Some(d), rows := e.rows)
              && BagOf(e.rows) == Plus(BagOf(d.rows), BagOf(batch))
              && KeysAscend(e.rows.claims, ClaimKey)
              && KeysAscend(e.rows.decisions, DecisionKey)
              && KeysAscend(e.rows.outcomes, OutcomeId)
              && KeysAscend(e.rows.pricing, ArtifactId)
              && KeysAscend(e.rows.incidents, ArtifactId)
              && KeysAscend(e.rows.safety, ArtifactId)
    ensures d.lifecycle != Open ==> Append(d, batch) == Err(NotOpen)
  {
    var m := Merge(d.rows, batch);
    RowsFit(m, d.partition);
    SortedFits(d.rows, batch, d.partition);
    MergedBound(d.rows, batch);
    MergeKeepsRows(d.rows, batch);
    MergeAscends(d.rows, batch);
    hide Merge, Fits, Bound, UniqueIdentities, MembershipOk, LinkageOk, KeysAscend, BagOf, Plus;
    assert m.safety == [] ==> !Fits(m.claims, m.decisions, m.outcomes, m.pricing, m.incidents, m.safety, d.partition);
  }

  lemma MergedBound(r: Rows, x: Rows)
    ensures LinkageOk(Merge(r, x)) <==> Bound(r.outcomes + x.outcomes, Merge(r, x).decisions)
  {
    hide ByClaim, ByDecision, ByOutcome, ByArtifact;
    var m := Merge(r, x);
    SortPermutes(r.outcomes + x.outcomes, ByOutcome);
    SameElements(r.outcomes + x.outcomes, m.outcomes);
    hide Merge, IntentFor, BindsLast;
    forall o: Outcome
      ensures IntentFor(m.decisions, o.link) == Some(o.proposalDigest)
              <==> exists k: nat :: BindsLast(m.decisions, o.link, o.proposalDigest, k)
    {
      IntentForIff(m.decisions, o.link, o.proposalDigest);
    }
  }

  lemma MergeAscends(r: Rows, x: Rows)
    ensures var m := Merge(r, x);
            && KeysAscend(m.claims, ClaimKey) && KeysAscend(m.decisions, DecisionKey)
            && KeysAscend(m.outcomes, OutcomeId) && KeysAscend(m.pricing, ArtifactId)
            && KeysAscend(m.incidents, ArtifactId) && KeysAscend(m.safety, ArtifactId)
  {
    KeyOrders();
    hide StringLess, StrictOrder;
    SortAscending(r.claims + x.claims, ByClaim);
    SortAscending(r.decisions + x.decisions, ByDecision);
    SortAscending(r.outcomes + x.outcomes, ByOutcome);
    SortAscending(r.pricing + x.pricing, ByArtifact);
    SortAscending(r.incidents + x.incidents, ByArtifact);
    SortAscending(r.safety + x.safety, ByArtifact);
  }

  /** A valid open dataset is sealed unless the clock is behind its opening; the seal holds what it contains. */
  lemma SealIff(d: Dataset, at: Instant)
    requires ValidDataset(d)
    ensures Seal(d, at).Ok? <==> d.lifecycle == Open && d.openedAt <= at
    ensures Seal(d, at).Ok? ==>
              Seal(d, at).value
              == Dataset(d.identity, d.partition, d.openedAt, Sealed, d.revision + 1, Some(d), Some(at), None,
                         Some(Content(d.identity, d.partition, d.openedAt, d.rows)), None, d.rows)
    ensures d.lifecycle != Open ==> Seal(d, at) == Err(NotOpen)
  {
    hide UniqueIdentities, MembershipOk, LinkageOk;
  }

  predicate DistinctKeys(decisions: seq<Decision>) {
    forall i, j :: 0 <= i < j < |decisions| ==> decisions[i].key != decisions[j].key
  }

  lemma KeyOrders()
    ensures StrictOrder(ByClaim) && StrictOrder(ByDecision) && StrictOrder(ByOutcome) && StrictOrder(ByArtifact)
  {
    forall a: string, b: string ensures StringLess(a, b) || StringLess(b, a) || a == b
      ensures !(StringLess(a, b) && StringLess(b, a)) && !StringLess(a, a)
    {
      StringTrichotomy(a, b);
    }
    forall a: string, b: string, c: string | StringLess(a, b) && StringLess(b, c) ensures StringLess(a, c) {
      StringTransitive(a, b, c);
    }
    hide StringLess;
  }

  /** A merge result is already in sorted order, and sorting it again changes nothing that its rows do not force. */
  lemma SameRowsSameOrder(a: Rows, b: Rows, r: Rows, x: Rows, s: Rows, y: Rows)
    requires a == Merge(r, x) && b == Merge(s, y) && BagOf(a) == BagOf(b)
    requires UniqueIdentities(a) && DistinctKeys(a.decisions)
    ensures a == b
  {
    KeyOrders();
    DistinctAreSeparated(a);
    hide StringLess, UniqueIdentities, DistinctKeys;
    SortedGroup(r.claims + x.claims, s.claims + y.claims, a.claims, b.claims, ByClaim);
    SortedGroup(r.decisions + x.decisions, s.decisions + y.decisions, a.decisions, b.decisions, ByDecision);
    SortedGroup(r.outcomes + x.outcomes, s.outcomes + y.outcomes, a.outcomes, b.outcomes, ByOutcome);
    SortedGroup(r.pricing + x.pricing, s.pricing + y.pricing, a.pricing, b.pricing, ByArtifact);
    SortedGroup(r.incidents + x.incidents, s.incidents + y.incidents, a.incidents, b.incidents, ByArtifact);
    SortedGroup(r.safety + x.safety, s.safety + y.safety, a.safety, b.safety, ByArtifact);
  }

  /** Two sorted arrangements of the same rows agree once no two rows share a key. */
  lemma SortedGroup<T(!new)>(p: seq<T>, q: seq<T>, a: seq<T>, b: seq<T>, less: (T, T) -> bool)
    requires StrictOrder(less) && a == SortBy(p, less) && b == SortBy(q, less) && multiset(a) == multiset(b)
    requires forall i, j :: 0 <= i < j < |a| ==> less(a[i], a[j]) || less(a[j], a[i])
    ensures a == b
  {
    SortAscending(p, less);
    SortAscending(q, less);
    SeparatedToo(a, b, less);
    SameElements(a, b);
    forall i, j | 0 <= i < j < |a| ensures less(a[i], a[j]) { assert !less(a[j], a[i]); }
    forall i, j | 0 <= i < j < |b| ensures less(b[i], b[j]) { assert !less(b[j], b[i]); }
    StrictlyAscendingUnique(a, b, less);
  }

  lemma DistinctAreSeparated(r: Rows)
    requires UniqueIdentities(r) && DistinctKeys(r.decisions)
    ensures forall i, j :: 0 <= i < j < |r.claims| ==>
              ByClaim(r.claims[i], r.claims[j]) || ByClaim(r.claims[j], r.claims[i])
    ensures forall i, j :: 0 <= i < j < |r.decisions| ==>
              ByDecision(r.decisions[i], r.decisions[j]) || ByDecision(r.decisions[j], r.decisions[i])
    ensures forall i, j :: 0 <= i < j < |r.outcomes| ==>
              ByOutcome(r.outcomes[i], r.outcomes[j]) || ByOutcome(r.outcomes[j], r.outcomes[i])
    ensures ArtifactsSeparated(r.pricing) && ArtifactsSeparated(r.incidents) && ArtifactsSeparated(r.safety)
  {
    forall a: string, b: string ensures StringLess(a, b) || StringLess(b, a) || a == b { StringTrichotomy(a, b); }
    hide StringLess;
  }

  predicate ArtifactsSeparated(s: seq<Artifact>) {
    forall i, j :: 0 <= i < j < |s| ==> ByArtifact(s[i], s[j]) || ByArtifact(s[j], s[i])
  }

  /**
   * When no two decisions share a decision key, any order and any batching of the same valid appends gives the
   * same content, and therefore the same sealed digest.
   */
  lemma AppendOrderForgotten(d: Dataset, first: seq<Rows>, second: seq<Rows>, at: Instant)
    requires first != [] && second != [] && AppendAll(d, first).Ok? && AppendAll(d, second).Ok?
    requires BagOfAll(d, first) == BagOfAll(d, second)
    requires DistinctKeys(AppendAll(d, first).value.rows.decisions)
    ensures var a, b := AppendAll(d, first).value, AppendAll(d, second).value;
            && ContentOf(a) == ContentOf(b)
            && (Seal(a, at).Ok? && Seal(b, at).Ok? ==>
                Seal(a, at).value.sealedContent == Seal(b, at).value.sealedContent)
  {
    hide Merge, BagOf, BagOfAll, AppendAll, ByClaim, ByDecision, ByOutcome, ByArtifact;
    AppendsAccumulate(d, first);
    AppendsAccumulate(d, second);
    AppendsKeepIdentity(d, first);
    AppendsKeepIdentity(d, second);
    var a, b := AppendAll(d, first).value.rows, AppendAll(d, second).value.rows;
    var r := LastMerge(d, first);
    var s := LastMerge(d, second);
    ValidatedIsValid(d, first);
    SameRowsSameOrder(a, b, r, first[|first| - 1], s, second[|second| - 1]);
  }

  /**
   * Two decisions under one key are allowed, because decisions are told apart by record id; whatever the dataset
   * holds already, the order in which the two were appended then shows.
   */
  lemma SharedKeyShowsOrder(d: Dataset, a: Decision, b: Decision)
    requires a.key == b.key && a.recordId != b.recordId
    requires var one, two := Rows([], [a], [], [], [], []), Rows([], [b], [], [], [], []);
             AppendAll(d, [one, two]).Ok? && AppendAll(d, [two, one]).Ok?
    ensures var one, two := Rows([], [a], [], [], [], []), Rows([], [b], [], [], [], []);
            && BagOfAll(d, [one, two]) == BagOfAll(d, [two, one])
            && ContentOf(AppendAll(d, [one, two]).value) != ContentOf(AppendAll(d, [two, one]).value)
  {
    hide AppendAll, BagOfAll, SortBy, UniqueIdentities;
    var one, two := Rows([], [a], [], [], [], []), Rows([], [b], [], [], [], []);
    TwoAppends(d, one, two);
    TwoAppends(d, two, one);
    assert Plus(Plus(BagOf(d.rows), BagOf(one)), BagOf(two)) == Plus(Plus(BagOf(d.rows), BagOf(two)), BagOf(one));
    ValidatedIsValid(d, [one, two]);
    FirstComesFirst(d.rows, a, b);
    FirstComesFirst(d.rows, b, a);
    OneOrderOnly(AppendAll(d, [one, two]).value.rows, a, b);
  }

  /** The stable sort keeps the later decision behind the earlier one of the same key. */
  lemma FirstComesFirst(r: Rows, a: Decision, b: Decision)
    requires a.key == b.key
    ensures InFront(Merge(Merge(r, Rows([], [a], [], [], [], [])), Rows([], [b], [], [], [], [])).decisions, a, b)
  {
    KeyOrders();
    StringTrichotomy(a.key, b.key);
    hide StringLess;
    var first := SortBy(r.decisions + [a], ByDecision);
    SortPermutes(r.decisions + [a], ByDecision);
    assert (r.decisions + [a])[|r.decisions|] == a;
    SameElements(r.decisions + [a], first);
    SortedBehind(first, b, ByDecision, a);
  }

  lemma OneOrderOnly(r: Rows, a: Decision, b: Decision)
    requires UniqueIdentities(r) && InFront(r.decisions, a, b)
    ensures !InFront(r.decisions, b, a)
  {
    var i, j :| 0 <= i < j < |r.decisions| && r.decisions[i] == a && r.decisions[j] == b;
    forall m, n | 0 <= m < |r.decisions| && 0 <= n < |r.decisions| && r.decisions[m] == b && r.decisions[n] == a
      ensures n < m
    {
      assert m == j && n == i;
    }
  }

  /** An open dataset with one claim under the key and one piece of safety evidence. */
  function OneClaim(key: Identifier): Dataset {
    Dataset("run", Partition("p", "walk-forward", 0, 1), 0, Open, 1, None, None, None, None, None,
            Rows([Claim(key, 0)], [], [], [], [], [Artifact("safety", "passed")]))
  }

  /** Such a dataset accepts both decisions in either order, so the difference can really be observed. */
  lemma SharedKeyHappens(a: Decision, b: Decision, at: Instant)
    requires a.key == b.key && a.recordId != b.recordId && 0 <= at
    ensures var one, two := Rows([], [a], [], [], [], []), Rows([], [b], [], [], [], []);
            var d := OneClaim(a.key);
            && AppendAll(d, [one, two]).Ok? && AppendAll(d, [two, one]).Ok?
            && var x, y := Seal(AppendAll(d, [one, two]).value, at), Seal(AppendAll(d, [two, one]).value, at);
               && x.Ok? && y.Ok? && x.value.sealedContent != y.value.sealedContent
  {
    BothAccepted(a, b, at);
    BothAccepted(b, a, at);
    hide AppendAll, ValidDataset;
    SharedKeyShowsOrder(OneClaim(a.key), a, b);
  }

  lemma BothAccepted(a: Decision, b: Decision, at: Instant)
    requires a.key == b.key && a.recordId != b.recordId && 0 <= at
    ensures var both := AppendAll(OneClaim(a.key), [Rows([], [a], [], [], [], []), Rows([], [b], [], [], [], [])]);
            both.Ok? && both.value.lifecycle == Open && Seal(both.value, at).Ok?
  {
    hide Append, AppendAll, Seal, ValidDataset, UniqueIdentities, MembershipOk, LinkageOk, Merge;
    var d, one, two := OneClaim(a.key), Rows([], [a], [], [], [], []), Rows([], [b], [], [], [], []);
    var d1 := d.(revision := 2, previous := Some(d), rows := ClaimedRows(a.key, [a]));
    var d2 := d1.(revision := 3, previous := Some(d1), rows := ClaimedRows(a.key, [a, b]));
    assert d.rows == ClaimedRows(a.key, []);
    MergedInto(a.key, [], a, [a], b, a);
    ClaimedRowsValid(a.key, [a]);
    AppendAccepted(d, one, d1.rows);
    MergedInto(a.key, [a], b, [a, b], a, b);
    ClaimedRowsValid(a.key, [a, b]);
    AppendAccepted(d1, two, d2.rows);
    TwoStages(d, one, two);
    SealAccepted(d2, at);
  }

  lemma SealAccepted(d: Dataset, at: Instant)
    requires d.lifecycle == Open && LifecycleOk(d) && d.openedAt <= at
    requires d.rows.safety != [] && UniqueIdentities(d.rows) && MembershipOk(d.rows, d.partition) && LinkageOk(d.rows)
    ensures Seal(d, at).Ok?
  {
    hide UniqueIdentities, MembershipOk, LinkageOk;
  }

  lemma AppendAccepted(d: Dataset, batch: Rows, rows: Rows)
    requires d.lifecycle == Open && LifecycleOk(d) && rows == Merge(d.rows, batch)
    requires rows.safety != [] && UniqueIdentities(rows) && MembershipOk(rows, d.partition) && LinkageOk(rows)
    ensures Append(d, batch) == Ok(d.(revision := d.revision + 1, previous := Some(d), rows := rows))
  {
    hide UniqueIdentities, MembershipOk, LinkageOk, Merge;
  }

  function ClaimedRows(key: Identifier, decisions: seq<Decision>): Rows {
    OneClaim(key).rows.(decisions := decisions)
  }

  lemma MergedInto(key: Identifier, before: seq<Decision>, added: Decision, after: seq<Decision>, a: Decision,
                   b: Decision)
    requires (before == [] && after == [added]) || (before == [a] && added == b && after == [a, b] && a.key == b.key)
    ensures Merge(ClaimedRows(key, before), Rows([], [added], [], [], [], [])) == ClaimedRows(key, after)
  {
    var r := ClaimedRows(key, before);
    if before == [] {
      StableOnTies(added, added);
      assert before + [added] == [added];
    } else {
      StableOnTies(a, b);
    }
    SortOne(r.claims, ByClaim);
    SortOne(r.safety, ByArtifact);
    SortNone(ByOutcome);
    SortNone(ByArtifact);
    hide SortBy;
    assert r.claims + [] == r.claims && r.safety + [] == r.safety;
  }

  lemma ClaimedRowsValid(key: Identifier, decisions: seq<Decision>)
    requires forall d :: d in decisions ==> d.key == key
    requires forall i, j :: 0 <= i < j < |decisions| ==> decisions[i].recordId != decisions[j].recordId
    ensures var r := ClaimedRows(key, decisions);
            UniqueIdentities(r) && MembershipOk(r, OneClaim(key).partition) && LinkageOk(r)
  {
    var r := ClaimedRows(key, decisions);
    assert r.claims[0].key == key && r.claims[0] in r.claims;
  }

  lemma TwoStages(d: Dataset, one: Rows, two: Rows)
    ensures AppendAll(d, [one, two]) == (var e := Append(d, one); if e.Err? then e else Append(e.value, two))
  {
    hide Append;
    assert [one, two][..1] == [one] && [one][..0] == [];
    assert AppendAll(d, [one]) == Append(d, one);
  }

  lemma SortOne<T>(s: seq<T>, less: (T, T) -> bool)
    requires |s| == 1
    ensures SortBy(s, less) == s
  {
    assert s[..0] == [];
  }

  lemma SortNone<T>(less: (T, T) -> bool)
    ensures SortBy([], less) == []
  {}

  lemma StableOnTies(a: Decision, b: Decision)
    requires a.key == b.key
    ensures SortBy([a], ByDecision) == [a] && SortBy([a] + [b], ByDecision) == [a, b]
  {
    StringTrichotomy(a.key, b.key);
    hide StringLess;
    var one, two := [a], [a] + [b];
    assert one[..0] == [] && one[1..] == [];
    assert two[..1] == one && two[1] == b && |two| == 2;
    assert SortBy(one, ByDecision) == Insert(a, [], ByDecision) == one;
    assert Insert(b, one[1..], ByDecision) == [b];
    assert Insert(b, one, ByDecision) == [a] + [b];
    assert SortBy(two, ByDecision) == Insert(b, one, ByDecision);
  }

  lemma TwoAppends(d: Dataset, one: Rows, two: Rows)
    requires AppendAll(d, [one, two]).Ok?
    ensures AppendAll(d, [one, two]).value.rows == Merge(Merge(d.rows, one), two)
    ensures BagOfAll(d, [one, two]) == Plus(Plus(BagOf(d.rows), BagOf(one)), BagOf(two))
  {
    hide Merge, BagOf, Plus, ValidDataset;
    assert [one, two][..1] == [one] && [one][..0] == [];
    assert BagOfAll(d, [one]) == Plus(BagOfAll(d, [one][..0]), BagOf(one));
    assert BagOfAll(d, [one, two]) == Plus(BagOfAll(d, [one, two][..1]), BagOf(two));
    assert AppendAll(d, [one]) == Append(d, one);
    assert AppendAll(d, [one, two]) == Append(AppendAll(d, [one]).value, two);
  }

  // ----- the chain of revisions -----

  /** Every revision is one above its predecessor, down to the dataset the chain starts from. */
  predicate Unbroken(d: Dataset, root: Dataset)
    decreases d
  {
    d == root || (d.previous.Some? && d.revision == d.previous.value.revision + 1 && Unbroken(d.previous.value, root))
  }

  lemma {:induction false} ChainUnbroken(d: Dataset, batches: seq<Rows>)
    requires AppendAll(d, batches).Ok?
    ensures Unbroken(AppendAll(d, batches).value, d) && AppendAll(d, batches).value.revision == d.revision + |batches|
  {
    if batches != [] {
      hide Merge, ValidDataset;
      ChainUnbroken(d, batches[..|batches| - 1]);
    }
  }

  /** The whole life of a dataset: appended, sealed, evaluated. */
  function Lifetime(d: Dataset, batches: seq<Rows>, sealedAt: Instant, evaluation: Identifier,
                    evaluatedAt: Instant): Result<Dataset> {
    var appended := AppendAll(d, batches);
    if appended.Err? then appended
    else
      var sealed := Seal(appended.value, sealedAt);
      if sealed.Err? then sealed else MarkEvaluated(sealed.value, evaluation, evaluatedAt)
  }

  /**
   * A sealed digest still verifies after evaluation, the revisions rise by one without a gap, and from the seal on
   * nothing can be appended, sealed again or, once evaluated, evaluated again.
   */
  lemma SealHolds(d: Dataset, batches: seq<Rows>, sealedAt: Instant, evaluation: Identifier,
                  evaluatedAt: Instant, more: Rows)
    requires d.lifecycle == Open && AppendAll(d, batches).Ok? && Seal(AppendAll(d, batches).value, sealedAt).Ok?
    ensures var appended := AppendAll(d, batches).value;
            var sealed := Seal(appended, sealedAt).value;
            && Verify(sealed).None? && Append(sealed, more) == Err(NotOpen) && Seal(sealed, sealedAt) == Err(NotOpen)
            && Unbroken(sealed, d) && sealed.revision == d.revision + |batches| + 1
            && (MarkEvaluated(sealed, evaluation, evaluatedAt).Ok? <==> sealedAt <= evaluatedAt)
            && (sealedAt <= evaluatedAt ==>
                  var evaluated := MarkEvaluated(sealed, evaluation, evaluatedAt).value;
                  && Lifetime(d, batches, sealedAt, evaluation, evaluatedAt) == Ok(evaluated)
                  && Verify(evaluated).None? && evaluated.sealedContent == Some(ContentOf(appended))
                  && Unbroken(evaluated, d) && evaluated.revision == d.revision + |batches| + 2
                  && Append(evaluated, more) == Err(NotOpen) && Seal(evaluated, sealedAt) == Err(NotOpen)
                  && MarkEvaluated(evaluated, evaluation, evaluatedAt) == Err(NotSealed))
  {
    hide AppendAll, Merge, UniqueIdentities, MembershipOk, LinkageOk;
    ChainUnbroken(d, batches);
  }
}
