/** Historical datasets and the two views cut from them: what a decision may see, and what decides its outcome. */
module ReplayViews {
  import opened Prelude
  import opened RiskTypes
  import opened Ordering

  datatype Timeframe = M15 | H1 | H4

  /** Candle length in microseconds. */
  function Duration(t: Timeframe): int {
    match t
    case M15 => 900_000_000
    case H1 => 3_600_000_000
    case H4 => 14_400_000_000
  }

  function TimeframeName(t: Timeframe): string {
    match t
    case M15 => "M15"
    case H1 => "H1"
    case H4 => "H4"
  }

  datatype Candle = Candle(
    recordId: Identifier,
    symbol: Identifier,
    timeframe: Timeframe,
    openTime: Instant,
    open: real,
    high: real,
    low: real,
    close: real)

  function CloseTime(c: Candle): Instant { c.openTime + Duration(c.timeframe) }

  /** Candles close a quarter of an hour, an hour or four hours after they open. */
  lemma CandleCloses(c: Candle)
    ensures CloseTime(c) == c.openTime + 60_000_000 * match c.timeframe
                                                      case M15 => 15
                                                      case H1 => 60
                                                      case H4 => 240
  {}

  predicate ValidCandle(c: Candle) { c.low <= c.open <= c.high && c.low <= c.close <= c.high }

  datatype Observation = Observation(observationId: Identifier, symbol: Identifier, effectiveAt: Instant,
                                     body: Identifier)

  datatype Partition = Partition(
    partitionId: Identifier,
    kind: Identifier,
    contextStart: Instant,
    evaluationStart: Instant,
    evaluationEnd: Instant)

  predicate ValidPartition(p: Partition) { p.contextStart <= p.evaluationStart < p.evaluationEnd }

  datatype Dataset = Dataset(
    digest: Identifier,
    partitions: seq<Partition>,
    candles: seq<Candle>,
    observations: seq<Observation>)

  /** Canonical candle order: symbol, then timeframe name, then opening time. */
  predicate CandleLess(a: Candle, b: Candle) {
    StringLess(a.symbol, b.symbol)
    || (a.symbol == b.symbol
        && (StringLess(TimeframeName(a.timeframe), TimeframeName(b.timeframe))
            || (a.timeframe == b.timeframe && a.openTime < b.openTime)))
  }

  predicate ObservationLess(a: Observation, b: Observation) {
    StringLess(a.symbol, b.symbol) || (a.symbol == b.symbol && a.effectiveAt < b.effectiveAt)
  }

  const ByCandle: (Candle, Candle) -> bool := (a: Candle, b: Candle) => CandleLess(a, b)
  const ByObservation: (Observation, Observation) -> bool := (a: Observation, b: Observation) => ObservationLess(a, b)

  /** What the dataset constructor accepts: unique keys in canonical order. */
  ghost predicate ValidDataset(d: Dataset) {
    && StrictlyAscending(d.candles, ByCandle)
    && StrictlyAscending(d.observations, ByObservation)
    && (forall c :: c in d.candles ==> ValidCandle(c))
    && (forall i, j :: 0 <= i < j < |d.partitions| ==> d.partitions[i].partitionId != d.partitions[j].partitionId)
    && forall p :: p in d.partitions ==> ValidPartition(p)
  }

  function Filter<T>(s: seq<T>, keep: T -> bool): seq<T> {
    if s == [] then [] else
      Filter(s[..|s| - 1], keep) + if keep(s[|s| - 1]) then [s[|s| - 1]] else []
  }

  lemma {:induction false} FilterMember<T>(s: seq<T>, keep: T -> bool, x: T)
    ensures x in Filter(s, keep) <==> x in s && keep(x)
  {
    if s != [] {
      var n := |s| - 1;
      FilterMember(s[..n], keep, x);
      assert s == s[..n] + [s[n]];
    }
  }

  lemma {:induction false} FilterAscending<T(!new)>(s: seq<T>, keep: T -> bool, less: (T, T) -> bool)
    requires StrictlyAscending(s, less)
    ensures StrictlyAscending(Filter(s, keep), less)
  {
    if s != [] {
      var n := |s| - 1;
      var before := Filter(s[..n], keep);
      FilterAscending(s[..n], keep, less);
      forall i | 0 <= i < |before| ensures less(before[i], s[n]) {
        assert before[i] in before;
        FilterMember(s[..n], keep, before[i]);
        var k :| 0 <= k < n && s[..n][k] == before[i];
        assert s[k] == before[i];
      }
    }
  }

  /** Two ascending sequences with the same chosen elements have the same filtered subsequence. */
  lemma FilterSame<T(!new)>(s: seq<T>, t: seq<T>, keep: T -> bool, less: (T, T) -> bool)
    requires StrictOrder(less) && StrictlyAscending(s, less) && StrictlyAscending(t, less)
    requires forall x :: keep(x) ==> (x in s <==> x in t)
    ensures Filter(s, keep) == Filter(t, keep)
  {
    FilterAscending(s, keep, less);
    FilterAscending(t, keep, less);
    forall x ensures x in Filter(s, keep) <==> x in Filter(t, keep) {
      FilterMember(s, keep, x);
      FilterMember(t, keep, x);
    }
    StrictlyAscendingUnique(Filter(s, keep), Filter(t, keep), less);
  }

  lemma CandleOrder()
    ensures StrictOrder(ByCandle)
  {
    forall x: Candle ensures !ByCandle(x, x) { StringTrichotomy(x.symbol, x.symbol); NameOrder(); }
    forall x, y, z | ByCandle(x, y) && ByCandle(y, z) ensures ByCandle(x, z) {
      NameOrder();
      if StringLess(x.symbol, y.symbol) && StringLess(y.symbol, z.symbol) {
        StringTransitive(x.symbol, y.symbol, z.symbol);
      }
    }
    forall x, y, z | ByCandle(x, z) ensures ByCandle(x, y) || ByCandle(y, z) {
      NameOrder();
      StringTrichotomy(x.symbol, y.symbol);
      StringTrichotomy(y.symbol, z.symbol);
      if StringLess(y.symbol, x.symbol) && StringLess(x.symbol, z.symbol) {
        StringTransitive(y.symbol, x.symbol, z.symbol);
      }
    }
  }

  /** The names order the timeframes H1, H4, M15. */
  lemma NameOrder()
    ensures forall a, b :: StringLess(TimeframeName(a), TimeframeName(b)) <==>
              (a == H1 && b != H1) || (a == H4 && b == M15)
  {
    assert "H1"[1..] == "1" && "H4"[1..] == "4";
    assert StringLess("1", "4") && !StringLess("4", "1") && !StringLess("1", "1") && !StringLess("4", "4");
    assert "M15"[1..] == "15" && "15"[1..] == "5" && "5"[1..] == "";
    assert !StringLess("5", "5") && !StringLess("15", "15");
  }

  lemma ObservationOrder()
    ensures StrictOrder(ByObservation)
  {
    forall x: Observation ensures !ByObservation(x, x) { StringTrichotomy(x.symbol, x.symbol); }
    forall x, y, z | ByObservation(x, y) && ByObservation(y, z) ensures ByObservation(x, z) {
      if StringLess(x.symbol, y.symbol) && StringLess(y.symbol, z.symbol) {
        StringTransitive(x.symbol, y.symbol, z.symbol);
      }
    }
    forall x, y, z | ByObservation(x, z) ensures ByObservation(x, y) || ByObservation(y, z) {
      StringTrichotomy(x.symbol, y.symbol);
      StringTrichotomy(y.symbol, z.symbol);
      if StringLess(y.symbol, x.symbol) && StringLess(x.symbol, z.symbol) {
        StringTransitive(y.symbol, x.symbol, z.symbol);
      }
    }
  }

  // ----- the decision view -----

  datatype ReplayError =
    | InvalidDataset | MissingAsOfObservation | PartitionViolation | InvalidHorizon | InvalidOutcomeData
    | DecisionNotFrozen | InvalidProposal | FutureDataAccess

  datatype Result<+T> = Ok(value: T) | Err(error: ReplayError)

  function FindPartition(partitions: seq<Partition>, id: Identifier): Result<Partition> {
    if partitions == [] then Err(PartitionViolation)
    else if partitions[0].partitionId == id then Ok(partitions[0])
    else FindPartition(partitions[1..], id)
  }

  datatype DecisionView = DecisionView(dataset: Dataset, partition: Partition, cutoff: Instant)

  function DecisionViewOf(d: Dataset, partitionId: Identifier, cutoff: Instant): Result<DecisionView> {
    var found := FindPartition(d.partitions, partitionId);
    if found.Err? then Err(found.error)
    else if cutoff < found.value.evaluationStart || cutoff >= found.value.evaluationEnd then Err(PartitionViolation)
    else Ok(DecisionView(d, found.value, cutoff))
  }

  function Last<T>(s: seq<T>, count: nat): seq<T> { if |s| <= count then s else s[|s| - count..] }

  predicate DecisionCandle(v: DecisionView, symbol: Identifier, t: Timeframe, c: Candle) {
    c.symbol == symbol && c.timeframe == t && v.partition.contextStart <= c.openTime && CloseTime(c) <= v.cutoff
  }

  function CompletedCandles(v: DecisionView, symbol: Identifier, t: Timeframe, count: int): Result<seq<Candle>> {
    if count <= 0 || 5000 < count then Err(InvalidDataset)
    else Ok(Last(Filter(v.dataset.candles, (c: Candle) => DecisionCandle(v, symbol, t, c)), count))
  }

  predicate DecisionObservation(v: DecisionView, symbol: Identifier, o: Observation) {
    o.symbol == symbol && v.partition.contextStart <= o.effectiveAt <= v.cutoff
  }

  function SnapshotObservations(v: DecisionView, symbol: Identifier): Result<Observation> {
    var candidates := Filter(v.dataset.observations, (o: Observation) => DecisionObservation(v, symbol, o));
    if candidates == [] then Err(MissingAsOfObservation) else Ok(candidates[|candidates| - 1])
  }

  /** The two datasets hold the same partitions and the same records up to the cutoff; later records may differ. */
  ghost predicate AgreeUntil(d: Dataset, e: Dataset, cutoff: Instant) {
    && d.partitions == e.partitions
    && (forall c: Candle :: CloseTime(c) <= cutoff ==> (c in d.candles <==> c in e.candles))
    && (forall o: Observation :: o.effectiveAt <= cutoff ==> (o in d.observations <==> o in e.observations))
  }

  /** No look-ahead: records after the cutoff cannot change anything a decision sees. */
  lemma NoLookAhead(d: Dataset, e: Dataset, partitionId: Identifier, cutoff: Instant, symbol: Identifier,
                    t: Timeframe, count: int)
    requires ValidDataset(d) && ValidDataset(e) && AgreeUntil(d, e, cutoff)
    ensures DecisionViewOf(d, partitionId, cutoff).Ok? <==> DecisionViewOf(e, partitionId, cutoff).Ok?
    ensures DecisionViewOf(d, partitionId, cutoff).Ok? ==>
              var v, u := DecisionViewOf(d, partitionId, cutoff).value, DecisionViewOf(e, partitionId, cutoff).value;
              && CompletedCandles(v, symbol, t, count) == CompletedCandles(u, symbol, t, count)
              && SnapshotObservations(v, symbol) == SnapshotObservations(u, symbol)
  {
    if DecisionViewOf(d, partitionId, cutoff).Ok? {
      var v, u := DecisionViewOf(d, partitionId, cutoff).value, DecisionViewOf(e, partitionId, cutoff).value;
      CandleOrder();
      ObservationOrder();
      var keep := (c: Candle) => DecisionCandle(v, symbol, t, c);
      var keep' := (c: Candle) => DecisionCandle(u, symbol, t, c);
      FilterSame(d.candles, e.candles, keep, ByCandle);
      FilterCongruent(e.candles, keep, keep');
      var seen := (o: Observation) => DecisionObservation(v, symbol, o);
      var seen' := (o: Observation) => DecisionObservation(u, symbol, o);
      FilterSame(d.observations, e.observations, seen, ByObservation);
      FilterCongruent(e.observations, seen, seen');
    }
  }

  /** The partition of the given identity, open at the cutoff. */
  predicate OpenAt(p: Partition, partitionId: Identifier, cutoff: Instant) {
    p.partitionId == partitionId && p.evaluationStart <= cutoff < p.evaluationEnd
  }

  lemma {:induction false} FindPartitionIff(partitions: seq<Partition>, id: Identifier)
    ensures FindPartition(partitions, id).Ok? <==> exists p :: p in partitions && p.partitionId == id
    ensures FindPartition(partitions, id).Ok? ==>
              FindPartition(partitions, id).value in partitions
              && FindPartition(partitions, id).value.partitionId == id
    ensures FindPartition(partitions, id).Err? ==> FindPartition(partitions, id).error == PartitionViolation
  {
    if partitions != [] {
      FindPartitionIff(partitions[1..], id);
      assert partitions == [partitions[0]] + partitions[1..];
    }
  }

  /** A decision can be viewed exactly while a partition of that identity is open. */
  lemma DecisionViewIff(d: Dataset, partitionId: Identifier, cutoff: Instant)
    requires ValidDataset(d)
    ensures var r := DecisionViewOf(d, partitionId, cutoff);
            && (r.Ok? <==> exists p :: p in d.partitions && OpenAt(p, partitionId, cutoff))
            && (r.Ok? ==> r.value.dataset == d && r.value.cutoff == cutoff && r.value.partition in d.partitions
                          && OpenAt(r.value.partition, partitionId, cutoff))
            && (r.Err? ==> r.error == PartitionViolation)
  {
    FindPartitionIff(d.partitions, partitionId);
    forall p | p in d.partitions && p.partitionId == partitionId
      ensures p == FindPartition(d.partitions, partitionId).value
    {
      var q := FindPartition(d.partitions, partitionId).value;
      var i, j :| 0 <= i < |d.partitions| && 0 <= j < |d.partitions| && d.partitions[i] == p && d.partitions[j] == q;
    }
  }

  /** The candle belongs to the series, opened within the context and closed by the cutoff. */
  predicate Completed(v: DecisionView, symbol: Identifier, t: Timeframe, c: Candle) {
    && c in v.dataset.candles && c.symbol == symbol && c.timeframe == t
    && v.partition.contextStart <= c.openTime && CloseTime(c) <= v.cutoff
  }

  predicate InTimeOrder(s: seq<Candle>) { forall i, j :: 0 <= i < j < |s| ==> s[i].openTime < s[j].openTime }

  predicate AllAfter(s: seq<Candle>, c: Candle) { forall e :: e in s ==> c.openTime < e.openTime }

  predicate AllBefore(s: seq<Candle>, c: Candle) { forall e :: e in s ==> e.openTime < c.openTime }

  /**
   * A decision sees exactly the last `count` completed candles of a series, oldest first: whatever else is completed
   * is older than all of them.
   */
  lemma SeesLastCompleted(v: DecisionView, symbol: Identifier, t: Timeframe, count: int)
    requires ValidDataset(v.dataset)
    ensures CompletedCandles(v, symbol, t, count).Err? <==> count < 1 || 5000 < count
    ensures CompletedCandles(v, symbol, t, count).Err? ==>
              CompletedCandles(v, symbol, t, count).error == InvalidDataset
    ensures CompletedCandles(v, symbol, t, count).Ok? ==>
              var seen := CompletedCandles(v, symbol, t, count).value;
              && |seen| <= count && InTimeOrder(seen)
              && (forall c :: c in seen ==> Completed(v, symbol, t, c))
              && (forall c :: Completed(v, symbol, t, c) && c !in seen ==> |seen| == count && AllAfter(seen, c))
  {
    var all := CompletedSeries(v, symbol, t);
    hide CloseTime, Completed, Filter, DecisionCandle, ValidDataset, InTimeOrder, AllAfter;
    if 1 <= count <= 5000 { LastOfSeries(all, count); }
  }

  lemma CompletedSeries(v: DecisionView, symbol: Identifier, t: Timeframe) returns (all: seq<Candle>)
    requires ValidDataset(v.dataset)
    ensures all == Filter(v.dataset.candles, (c: Candle) => DecisionCandle(v, symbol, t, c))
    ensures InTimeOrder(all) && forall c :: c in all <==> Completed(v, symbol, t, c)
  {
    hide CandleLess, CloseTime, ByCandle;
    var keep := (c: Candle) => DecisionCandle(v, symbol, t, c);
    all := Filter(v.dataset.candles, keep);
    FilterAscending(v.dataset.candles, keep, ByCandle);
    forall c ensures c in all <==> Completed(v, symbol, t, c) { FilterMember(v.dataset.candles, keep, c); }
    OneSeriesInTimeOrder(all, symbol, t);
  }

  /** What the end of a time-ordered series leaves out comes before all it keeps. */
  lemma LastOfSeries(all: seq<Candle>, count: nat)
    requires InTimeOrder(all)
    ensures var seen := Last(all, count);
            && |seen| <= count && InTimeOrder(seen) && (forall c :: c in seen ==> c in all)
            && forall c :: c in all && c !in seen ==> |seen| == count && AllAfter(seen, c)
  {
    var seen := Last(all, count);
    forall i | 0 <= i < |all| && |all| - count <= i ensures all[i] in seen {
      assert all[i] == if count < |all| then seen[i - (|all| - count)] else seen[i];
    }
    forall c | c in all && c !in seen ensures |seen| == count && AllAfter(seen, c) {
      var i :| 0 <= i < |all| && all[i] == c;
    }
  }

  /** The snapshot is the latest observation of the symbol between the start of the context and the cutoff. */
  lemma SnapshotIsLatest(v: DecisionView, symbol: Identifier)
    requires ValidDataset(v.dataset)
    ensures var r := SnapshotObservations(v, symbol);
            && (r.Err? ==> r.error == MissingAsOfObservation)
            && (r.Ok? ==> r.value in v.dataset.observations && r.value.symbol == symbol
                          && v.partition.contextStart <= r.value.effectiveAt <= v.cutoff)
            && forall o :: o in v.dataset.observations && o.symbol == symbol
                           && v.partition.contextStart <= o.effectiveAt <= v.cutoff ==>
                 r.Ok? && o.effectiveAt <= r.value.effectiveAt
  {
    var keep := (o: Observation) => DecisionObservation(v, symbol, o);
    var all := Filter(v.dataset.observations, keep);
    FilterAscending(v.dataset.observations, keep, ByObservation);
    forall o ensures o in all <==> o in v.dataset.observations && DecisionObservation(v, symbol, o) {
      FilterMember(v.dataset.observations, keep, o);
    }
    forall o | o in all ensures o.effectiveAt <= all[|all| - 1].effectiveAt {
      var i :| 0 <= i < |all| && all[i] == o;
      assert all[|all| - 1] in all;
      if i < |all| - 1 {
        assert ByObservation(all[i], all[|all| - 1]);
        StringTrichotomy(symbol, symbol);
      }
    }
  }

  lemma {:induction false} FilterCongruent<T>(s: seq<T>, keep: T -> bool, keep': T -> bool)
    requires forall x :: x in s ==> keep(x) == keep'(x)
    ensures Filter(s, keep) == Filter(s, keep')
  {
    if s != [] { FilterCongruent(s[..|s| - 1], keep, keep'); }
  }

  // ----- the outcome view -----

  /** Exactly one finite bound, as the horizon constructor demands. */
  datatype Horizon = Horizon(maxBars: Option<nat>, maxElapsed: Option<int>)

  predicate ValidHorizon(h: Horizon) {
    && (h.maxBars.Some? <==> h.maxElapsed.None?)
    && (h.maxBars.Some? ==> 1 <= h.maxBars.value <= 10_000)
    && (h.maxElapsed.Some? ==> 0 < h.maxElapsed.value)
  }

  datatype OutcomeView = OutcomeView(
    datasetDigest: Identifier,
    partition: Partition,
    cutoff: Instant,
    timeframe: Timeframe,
    candles: seq<Candle>)

  predicate OutcomeCandle(p: Partition, cutoff: Instant, symbol: Identifier, t: Timeframe, c: Candle) {
    && c.symbol == symbol && c.timeframe == t
    && cutoff <= c.openTime && cutoff < CloseTime(c) && CloseTime(c) <= p.evaluationEnd
  }

  function OutcomeViewOf(d: Dataset, partitionId: Identifier, cutoff: Instant, symbol: Identifier,
                         t: Timeframe, h: Horizon)
    : Result<OutcomeView>
  {
    var found := FindPartition(d.partitions, partitionId);
    if found.Err? then Err(found.error)
    else
      var p := found.value;
      if cutoff < p.evaluationStart || cutoff >= p.evaluationEnd then Err(PartitionViolation)
      else
        var candidates := Filter(d.candles, (c: Candle) => OutcomeCandle(p, cutoff, symbol, t, c));
        if h.maxBars.None? && h.maxElapsed.None? then Err(InvalidHorizon)
        else
          var selected :=
            if h.maxBars.Some?
              then (if |candidates| <= h.maxBars.value then candidates else candidates[..h.maxBars.value])
            else
              var end := if cutoff + h.maxElapsed.value < p.evaluationEnd then cutoff + h.maxElapsed.value
                else p.evaluationEnd;
              Filter(candidates, (c: Candle) => CloseTime(c) <= end);
          if selected == [] then Err(InvalidOutcomeData)
          else Ok(OutcomeView(d.digest, p, cutoff, t, selected))
  }

  lemma {:induction false} LastMember<T>(s: seq<T>, count: nat, x: T)
    requires x in Last(s, count)
    ensures x in s
  {
    if count < |s| { assert s == s[..|s| - count] + Last(s, count); }
  }

  lemma {:induction false} FindPartitionIn(partitions: seq<Partition>, id: Identifier)
    ensures FindPartition(partitions, id).Ok? ==> FindPartition(partitions, id).value in partitions
    ensures FindPartition(partitions, id).Ok? ==> FindPartition(partitions, id).value.partitionId == id
  {
    if partitions != [] { FindPartitionIn(partitions[1..], id); }
  }

  /** Every candle of an outcome view is after the decision, inside the partition and inside the horizon. */
  lemma OutcomeCandlesBounded(d: Dataset, partitionId: Identifier, cutoff: Instant, symbol: Identifier,
                              t: Timeframe, h: Horizon)
    requires ValidDataset(d) && ValidHorizon(h) && OutcomeViewOf(d, partitionId, cutoff, symbol, t, h).Ok?
    ensures var v := OutcomeViewOf(d, partitionId, cutoff, symbol, t, h).value;
            && v.candles != [] && v.cutoff == cutoff && v.timeframe == t && v.datasetDigest == d.digest
            && v.partition.partitionId == partitionId
            && (forall c :: c in v.candles ==> c in d.candles && OutcomeCandle(v.partition, cutoff, symbol, t, c))
            && (forall i, j :: 0 <= i < j < |v.candles| ==> v.candles[i].openTime < v.candles[j].openTime)
            && (h.maxBars.Some? ==> |v.candles| <= h.maxBars.value)
            && (h.maxElapsed.Some? ==> forall c :: c in v.candles ==> CloseTime(c) <= cutoff + h.maxElapsed.value)
  {
    hide CloseTime, CandleLess, FindPartition, Filter;
    var v := OutcomeViewOf(d, partitionId, cutoff, symbol, t, h).value;
    FindPartitionIn(d.partitions, partitionId);
    var keep := (c: Candle) => OutcomeCandle(v.partition, cutoff, symbol, t, c);
    var candidates := Filter(d.candles, keep);
    FilterAscending(d.candles, keep, ByCandle);
    forall c | c in candidates ensures c in d.candles && OutcomeCandle(v.partition, cutoff, symbol, t, c) {
      FilterMember(d.candles, keep, c);
    }
    if h.maxBars.Some? {
      PrefixAscending(candidates, |v.candles|, ByCandle);
      assert v.candles == candidates[..|v.candles|];
    } else {
      var end := if cutoff + h.maxElapsed.value < v.partition.evaluationEnd then cutoff + h.maxElapsed.value
        else v.partition.evaluationEnd;
      var early := (c: Candle) => CloseTime(c) <= end;
      FilterAscending(candidates, early, ByCandle);
      forall c | c in v.candles ensures c in candidates && CloseTime(c) <= end { FilterMember(candidates, early, c); }
    }
    assert forall c :: c in v.candles ==> c in candidates;
    forall c | c in v.candles ensures c.symbol == symbol && c.timeframe == t { assert c in candidates; }
    OneSeriesInTimeOrder(v.candles, symbol, t);
  }

  /** The candle opens and closes between the decision and the end of the partition, and within the horizon. */
  predicate Measurable(d: Dataset, p: Partition, cutoff: Instant, symbol: Identifier, t: Timeframe, h: Horizon,
                       c: Candle) {
    && c in d.candles && c.symbol == symbol && c.timeframe == t
    && cutoff <= c.openTime && CloseTime(c) <= p.evaluationEnd
    && (h.maxElapsed.Some? ==> CloseTime(c) <= cutoff + h.maxElapsed.value)
  }

  /** Only measurable candles, and all of them unless the bars there may be are all earlier ones. */
  ghost predicate LeavesNothingOut(d: Dataset, p: Partition, cutoff: Instant, symbol: Identifier, t: Timeframe,
                                   h: Horizon, candles: seq<Candle>)
  {
    && (forall c :: c in candles ==> Measurable(d, p, cutoff, symbol, t, h, c))
    && forall c :: Measurable(d, p, cutoff, symbol, t, h, c) && c !in candles ==>
         h.maxBars.Some? && |candles| == h.maxBars.value && AllBefore(candles, c)
  }

  /**
   * An outcome view leaves nothing out, and there is no view exactly when no partition is open or nothing can be
   * measured.
   */
  lemma OutcomeViewComplete(d: Dataset, partitionId: Identifier, cutoff: Instant, symbol: Identifier, t: Timeframe,
                            h: Horizon, p: Partition)
    requires ValidDataset(d) && ValidHorizon(h) && p in d.partitions && p.partitionId == partitionId
    ensures var r := OutcomeViewOf(d, partitionId, cutoff, symbol, t, h);
            if !OpenAt(p, partitionId, cutoff) then r == Err(PartitionViolation)
            else if forall c :: !Measurable(d, p, cutoff, symbol, t, h, c) then r == Err(InvalidOutcomeData)
            else r.Ok? && r.value.partition == p && LeavesNothingOut(d, p, cutoff, symbol, t, h, r.value.candles)
  {
    ThePartition(d, partitionId, p);
    if OpenAt(p, partitionId, cutoff) {
      var all := MeasuredSeries(d, p, cutoff, symbol, t);
      var selected := Selected(all, p, cutoff, h);
      ViewOfSelected(d, partitionId, cutoff, symbol, t, h, p, all);
      if h.maxBars.Some? {
        BarsLeaveNothingOut(d, p, cutoff, symbol, t, h, all);
      } else {
        TimeLeavesNothingOut(d, p, cutoff, symbol, t, h, all);
      }
      hide OutcomeViewOf, FindPartition, Filter, Measurable, ValidDataset, InTimeOrder, LeavesNothingOut, Selected;
    }
  }

  /** The part of the measured series that lies inside the horizon. */
  function Selected(all: seq<Candle>, p: Partition, cutoff: Instant, h: Horizon): seq<Candle>
    requires ValidHorizon(h)
  {
    if h.maxBars.Some? then (if |all| <= h.maxBars.value then all else all[..h.maxBars.value])
    else
      var end := if cutoff + h.maxElapsed.value < p.evaluationEnd then cutoff + h.maxElapsed.value
        else p.evaluationEnd;
      Filter(all, (c: Candle) => CloseTime(c) <= end)
  }

  lemma ViewOfSelected(d: Dataset, partitionId: Identifier, cutoff: Instant, symbol: Identifier, t: Timeframe,
                       h: Horizon, p: Partition, all: seq<Candle>)
    requires ValidHorizon(h) && FindPartition(d.partitions, partitionId) == Ok(p) && OpenAt(p, partitionId, cutoff)
    requires all == Filter(d.candles, (c: Candle) => OutcomeCandle(p, cutoff, symbol, t, c))
    ensures OutcomeViewOf(d, partitionId, cutoff, symbol, t, h)
            == if Selected(all, p, cutoff, h) == [] then Err(InvalidOutcomeData)
               else Ok(OutcomeView(d.digest, p, cutoff, t, Selected(all, p, cutoff, h)))
  {
    hide Filter, FindPartition, CloseTime, OutcomeCandle;
  }

  lemma BarsLeaveNothingOut(d: Dataset, p: Partition, cutoff: Instant, symbol: Identifier, t: Timeframe, h: Horizon,
                            all: seq<Candle>)
    requires ValidHorizon(h) && h.maxBars.Some? && InTimeOrder(all)
    requires forall c :: c in all <==> Measurable(d, p, cutoff, symbol, t, Horizon(Some(1), None), c)
    ensures var selected := Selected(all, p, cutoff, h);
            && LeavesNothingOut(d, p, cutoff, symbol, t, h, selected)
            && (selected == [] <==> forall c :: !Measurable(d, p, cutoff, symbol, t, h, c))
  {
    hide Measurable, InTimeOrder, AllBefore;
    FirstBars(all, h.maxBars.value);
    forall c ensures c in all <==> Measurable(d, p, cutoff, symbol, t, h, c) {
      BarsDoNotBind(d, p, cutoff, symbol, t, h, c);
    }
    assert all != [] ==> all[0] in all;
  }

  lemma TimeLeavesNothingOut(d: Dataset, p: Partition, cutoff: Instant, symbol: Identifier, t: Timeframe, h: Horizon,
                             all: seq<Candle>)
    requires ValidHorizon(h) && h.maxElapsed.Some?
    requires forall c :: c in all <==> Measurable(d, p, cutoff, symbol, t, Horizon(Some(1), None), c)
    ensures var selected := Selected(all, p, cutoff, h);
            && LeavesNothingOut(d, p, cutoff, symbol, t, h, selected)
            && (selected == [] <==> forall c :: !Measurable(d, p, cutoff, symbol, t, h, c))
  {
    hide Measurable, AllBefore, CloseTime;
    var end := if cutoff + h.maxElapsed.value < p.evaluationEnd then cutoff + h.maxElapsed.value
      else p.evaluationEnd;
    var early := (c: Candle) => CloseTime(c) <= end;
    var some := Filter(all, early);
    forall c ensures c in some <==> Measurable(d, p, cutoff, symbol, t, h, c) {
      FilterMember(all, early, c);
      TimeBinds(d, p, cutoff, symbol, t, h, c);
    }
    assert some != [] ==> some[0] in some;
  }

  /** Without a time limit, and with one. */
  lemma BarsDoNotBind(d: Dataset, p: Partition, cutoff: Instant, symbol: Identifier, t: Timeframe, h: Horizon,
                      c: Candle)
    requires h.maxElapsed.None?
    ensures Measurable(d, p, cutoff, symbol, t, h, c)
            <==> Measurable(d, p, cutoff, symbol, t, Horizon(Some(1), None), c)
  {}

  lemma TimeBinds(d: Dataset, p: Partition, cutoff: Instant, symbol: Identifier, t: Timeframe, h: Horizon,
                  c: Candle)
    requires h.maxElapsed.Some?
    ensures var end := if cutoff + h.maxElapsed.value < p.evaluationEnd then cutoff + h.maxElapsed.value
              else p.evaluationEnd;
            Measurable(d, p, cutoff, symbol, t, h, c)
            <==> Measurable(d, p, cutoff, symbol, t, Horizon(Some(1), None), c) && CloseTime(c) <= end
  {}

  lemma MeasuredSeries(d: Dataset, p: Partition, cutoff: Instant, symbol: Identifier, t: Timeframe)
    returns (all: seq<Candle>)
    requires ValidDataset(d)
    ensures all == Filter(d.candles, (c: Candle) => OutcomeCandle(p, cutoff, symbol, t, c))
    ensures InTimeOrder(all)
    ensures forall c :: c in all <==> Measurable(d, p, cutoff, symbol, t, Horizon(Some(1), None), c)
  {
    hide CandleLess, ByCandle;
    var keep := (c: Candle) => OutcomeCandle(p, cutoff, symbol, t, c);
    all := Filter(d.candles, keep);
    FilterAscending(d.candles, keep, ByCandle);
    forall c ensures c in all <==> Measurable(d, p, cutoff, symbol, t, Horizon(Some(1), None), c) {
      FilterMember(d.candles, keep, c);
    }
    OneSeriesInTimeOrder(all, symbol, t);
  }

  lemma ThePartition(d: Dataset, partitionId: Identifier, p: Partition)
    requires ValidDataset(d) && p in d.partitions && p.partitionId == partitionId
    ensures FindPartition(d.partitions, partitionId) == Ok(p)
  {
    FindPartitionIff(d.partitions, partitionId);
    var q := FindPartition(d.partitions, partitionId).value;
    var i, j :| 0 <= i < |d.partitions| && 0 <= j < |d.partitions| && d.partitions[i] == p && d.partitions[j] == q;
  }

  lemma FirstBars(all: seq<Candle>, count: nat)
    requires InTimeOrder(all)
    ensures count < |all| ==>
              && (forall c :: c in all[..count] ==> c in all)
              && forall c :: c in all && c !in all[..count] ==> AllBefore(all[..count], c)
  {
    if count < |all| {
      forall i | 0 <= i < count ensures all[i] in all[..count] { assert all[..count][i] == all[i]; }
      forall c | c in all && c !in all[..count] ensures AllBefore(all[..count], c) {
        var i :| 0 <= i < |all| && all[i] == c;
      }
    }
  }

  lemma PrefixAscending<T(!new)>(s: seq<T>, n: nat, less: (T, T) -> bool)
    requires n <= |s| && StrictlyAscending(s, less)
    ensures StrictlyAscending(s[..n], less) && forall x :: x in s[..n] ==> x in s
  {}

  lemma OneSeriesInTimeOrder(s: seq<Candle>, symbol: Identifier, t: Timeframe)
    requires StrictlyAscending(s, ByCandle) && forall c :: c in s ==> c.symbol == symbol && c.timeframe == t
    ensures forall i, j :: 0 <= i < j < |s| ==> s[i].openTime < s[j].openTime
  {
    forall i, j | 0 <= i < j < |s| ensures s[i].openTime < s[j].openTime {
      assert s[i] in s && s[j] in s;
      SameSeriesOrder(s[i], s[j]);
    }
  }

  lemma SameSeriesOrder(a: Candle, b: Candle)
    requires ByCandle(a, b) && a.symbol == b.symbol && a.timeframe == b.timeframe
    ensures a.openTime < b.openTime
  {
    StringTrichotomy(a.symbol, b.symbol);
    NameOrder();
  }

  /** What decided and what is measured never overlap. */
  lemma DecisionAndOutcomeDisjoint(d: Dataset, partitionId: Identifier, cutoff: Instant, symbol: Identifier,
                                   t: Timeframe,
                                   h: Horizon, seen: Identifier, u: Timeframe, count: int, c: Candle)
    requires ValidDataset(d) && ValidHorizon(h) && OutcomeViewOf(d, partitionId, cutoff, symbol, t, h).Ok?
    requires DecisionViewOf(d, partitionId, cutoff).Ok?
    requires CompletedCandles(DecisionViewOf(d, partitionId, cutoff).value, seen, u, count).Ok?
    requires c in CompletedCandles(DecisionViewOf(d, partitionId, cutoff).value, seen, u, count).value
    ensures c !in OutcomeViewOf(d, partitionId, cutoff, symbol, t, h).value.candles
  {
    var v := DecisionViewOf(d, partitionId, cutoff).value;
    var keep := (x: Candle) => DecisionCandle(v, seen, u, x);
    LastMember(Filter(d.candles, keep), count, c);
    FilterMember(d.candles, keep, c);
    OutcomeCandlesBounded(d, partitionId, cutoff, symbol, t, h);
  }
}
