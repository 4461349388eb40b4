/** Aggregate R-based metrics over the outcomes of one replay partition. */
module PerformanceMetrics {
  import opened Prelude
  import opened RiskTypes
  import opened Ordering
  import opened ReplayViews
  import opened OutcomeEvaluation
  import M = Smoothing

  datatype Labelled = Labelled(
    outcomeId: Identifier,
    replayId: Identifier,
    datasetDigest: Identifier,
    partitionId: Identifier,
    partitionKind: Identifier,
    outcome: TradeOutcome)

  datatype ProfitFactor = Factor(value: real) | Unbounded | FactorUnavailable

  /** `contents` is what the outcome digest is taken of. */
  datatype Summary = Summary(
    replayId: Identifier,
    datasetDigest: Identifier,
    partitionId: Identifier,
    partitionKind: Identifier,
    outcomes: nat,
    resolved: nat,
    unresolved: nat,
    ambiguous: nat,
    wins: nat,
    losses: nat,
    winRate: Option<real>,
    cumulative: Option<real>,
    average: Option<real>,
    median: Option<real>,
    profitFactor: ProfitFactor,
    drawdown: Option<real>,
    averageBars: Option<real>,
    averageSeconds: Option<real>,
    averageMfe: real,
    averageMae: real,
    contents: seq<Labelled>,
    generatedAt: Instant)

  // ----- order -----

  predicate Before(a: Labelled, b: Labelled) {
    a.outcome.cutoff < b.outcome.cutoff
      || (a.outcome.cutoff == b.outcome.cutoff && StringLess(a.outcomeId, b.outcomeId))
  }

  const ByCutoff: (Labelled, Labelled) -> bool := (a: Labelled, b: Labelled) => Before(a, b)

  lemma CutoffOrder()
    ensures StrictOrder(ByCutoff)
  {
    forall x: Labelled ensures !ByCutoff(x, x) { StringTrichotomy(x.outcomeId, x.outcomeId); }
    forall x, y, z | ByCutoff(x, y) && ByCutoff(y, z) ensures ByCutoff(x, z) {
      if StringLess(x.outcomeId, y.outcomeId) && StringLess(y.outcomeId, z.outcomeId) {
        StringTransitive(x.outcomeId, y.outcomeId, z.outcomeId);
      }
    }
    forall x, y, z | ByCutoff(x, z) ensures ByCutoff(x, y) || ByCutoff(y, z) {
      StringTrichotomy(x.outcomeId, y.outcomeId);
      StringTrichotomy(y.outcomeId, z.outcomeId);
      if StringLess(y.outcomeId, x.outcomeId) && StringLess(x.outcomeId, z.outcomeId) {
        StringTransitive(y.outcomeId, x.outcomeId, z.outcomeId);
      }
    }
  }

  predicate DistinctIds(s: seq<Labelled>) { forall i, j :: 0 <= i < j < |s| ==> s[i].outcomeId != s[j].outcomeId }

  predicate SamePartition(a: Labelled, b: Labelled) {
    a.replayId == b.replayId && a.datasetDigest == b.datasetDigest && a.partitionId == b.partitionId
      && a.partitionKind == b.partitionKind
  }

  // ----- drawdown -----

  datatype Run = Run(running: real, peak: real, maximum: real)

  function RunOver(values: seq<real>): Run {
    if values == [] then Run(0.0, 0.0, 0.0)
    else
      var before := RunOver(values[..|values| - 1]);
      var running := before.running + values[|values| - 1];
      var peak := MaxReal(before.peak, running);
      Run(running, peak, MaxReal(before.maximum, peak - running))
  }

  /** The cumulative result after the first n outcomes. */
  function Level(values: seq<real>, n: nat): real
    requires n <= |values|
  {
    M.Sum(values[..n])
  }

  /** The greatest fall from any earlier level, the empty prefix included, to any later one. */
  ghost predicate IsMaxFall(d: real, values: seq<real>) {
    && (forall i: nat, j: nat :: i <= j <= |values| ==> Level(values, i) - Level(values, j) <= d)
    && exists i: nat, j: nat :: i <= j <= |values| && Level(values, i) - Level(values, j) == d
  }

  ghost predicate IsTop(peak: real, values: seq<real>) {
    && (forall i: nat :: i <= |values| ==> Level(values, i) <= peak)
    && exists i: nat :: i <= |values| && Level(values, i) == peak
  }

  lemma LevelOfPrefix(values: seq<real>, n: nat, i: nat)
    requires i <= n <= |values|
    ensures Level(values[..n], i) == Level(values, i)
  {
    assert values[..n][..i] == values[..i];
  }

  /** The single pass with a running peak computes the greatest fall over all pairs of prefixes. */
  lemma {:induction false} OnePassIsMaxFall(values: seq<real>)
    ensures RunOver(values).running == Level(values, |values|)
    ensures IsTop(RunOver(values).peak, values)
    ensures IsMaxFall(RunOver(values).maximum, values)
  {
    if values == [] {
      assert Level(values, 0) == 0.0;
    } else {
      var n := |values| - 1;
      var before, after := RunOver(values[..n]), RunOver(values);
      hide IsTop, IsMaxFall;
      OnePassIsMaxFall(values[..n]);
      M.SumOneMore(values, n);
      assert values[..n][..n] == values[..n];
      forall i: nat | i <= n ensures Level(values[..n], i) == Level(values, i) { LevelOfPrefix(values, n, i); }
      TopNext(values, n, before.peak);
      FallNext(values, n, before.maximum, after.peak);
    }
  }

  lemma TopNext(values: seq<real>, n: nat, peak: real)
    requires n + 1 == |values| && IsTop(peak, values[..n])
    requires forall i: nat :: i <= n ==> Level(values[..n], i) == Level(values, i)
    ensures IsTop(MaxReal(peak, Level(values, n + 1)), values)
  {
    hide Level;
    var k: nat :| k <= n && Level(values[..n], k) == peak;
    assert Level(values, k) == peak;
  }

  lemma FallNext(values: seq<real>, n: nat, maximum: real, peak: real)
    requires n + 1 == |values| && IsMaxFall(maximum, values[..n]) && IsTop(peak, values)
    requires forall i: nat :: i <= n ==> Level(values[..n], i) == Level(values, i)
    ensures IsMaxFall(MaxReal(maximum, peak - Level(values, n + 1)), values)
  {
    hide Level;
    var d := MaxReal(maximum, peak - Level(values, n + 1));
    forall i: nat, j: nat | i <= j <= n + 1 ensures Level(values, i) - Level(values, j) <= d {
      if j <= n { assert Level(values[..n], i) - Level(values[..n], j) <= maximum; }
    }
    if d == maximum {
      var i: nat, j: nat :| i <= j <= n && Level(values[..n], i) - Level(values[..n], j) == maximum;
      assert Level(values, i) - Level(values, j) == d;
    } else {
      var i: nat :| i <= n + 1 && Level(values, i) == peak;
      assert Level(values, i) - Level(values, n + 1) == d;
    }
  }

  method SequenceMaxDrawdown(values: seq<real>) returns (maximum: real)
    ensures maximum == RunOver(values).maximum
    ensures IsMaxFall(maximum, values) && 0.0 <= maximum
  {
    var running, peak := 0.0, 0.0;
    maximum := 0.0;
    for i := 0 to |values|
      invariant Run(running, peak, maximum) == RunOver(values[..i])
    {
      assert values[..i + 1][..i] == values[..i];
      running := running + values[i];
      peak := MaxReal(peak, running);
      maximum := MaxReal(maximum, peak - running);
    }
    assert values[..|values|] == values;
    OnePassIsMaxFall(values);
    assert Level(values, 0) - Level(values, 0) <= maximum;
  }

  // ----- median -----

  const ByValue: (real, real) -> bool := (a: real, b: real) => a < b

  function MedianOf(values: seq<real>): Option<real> {
    if values == [] then None
    else
      SortPermutes(values, ByValue);
      var ordered := SortBy(values, ByValue);
      var midpoint := |ordered| / 2;
      Some(if |ordered| % 2 == 1 then ordered[midpoint] else (ordered[midpoint - 1] + ordered[midpoint]) / 2.0)
  }

  /** Half of the sorted values lie on either side of the median. */
  lemma MedianHalves(values: seq<real>)
    requires values != []
    ensures var s := SortBy(values, ByValue);
            && multiset(s) == multiset(values) && |s| == |values|
            && (forall i :: 0 <= i < (|s| + 1) / 2 ==> s[i] <= MedianOf(values).value)
            && (forall i :: |s| / 2 <= i < |s| ==> MedianOf(values).value <= s[i])
            && (forall i, j :: 0 <= i < j < |s| ==> s[i] <= s[j])
            && (|s| % 2 == 1 ==> MedianOf(values).value == s[|s| / 2])
            && (|s| % 2 == 0 ==> 2.0 * MedianOf(values).value == s[|s| / 2 - 1] + s[|s| / 2])
  {
    SortPermutes(values, ByValue);
    SortedUp(values);
    var s := SortBy(values, ByValue);
    var median := MedianOf(values).value;
    assert median == if |s| % 2 == 1 then s[|s| / 2] else (s[|s| / 2 - 1] + s[|s| / 2]) / 2.0;
    hide SortBy, MedianOf;
    MiddleHalves(s, median);
  }

  lemma SortedUp(values: seq<real>)
    ensures var s := SortBy(values, ByValue); forall i, j :: 0 <= i < j < |s| ==> s[i] <= s[j]
  {
    SortAscending(values, ByValue);
    var s := SortBy(values, ByValue);
    forall i, j | 0 <= i < j < |s| ensures s[i] <= s[j] { assert !ByValue(s[j], s[i]); }
  }

  lemma MiddleHalves(s: seq<real>, median: real)
    requires s != [] && forall i, j :: 0 <= i < j < |s| ==> s[i] <= s[j]
    requires median == if |s| % 2 == 1 then s[|s| / 2] else (s[|s| / 2 - 1] + s[|s| / 2]) / 2.0
    ensures forall i :: 0 <= i < (|s| + 1) / 2 ==> s[i] <= median
    ensures forall i :: |s| / 2 <= i < |s| ==> median <= s[i]
  {
    var mid := |s| / 2;
    forall i | 0 <= i < (|s| + 1) / 2 ensures s[i] <= median {
      assert i == mid || s[i] <= s[mid];
      if |s| % 2 == 0 { assert i == mid - 1 || s[i] <= s[mid - 1]; }
    }
    forall i | mid <= i < |s| ensures median <= s[i] {
      assert i == mid || s[mid] <= s[i];
      if |s| % 2 == 0 { assert s[mid - 1] <= s[mid]; }
    }
  }

  // ----- counts and sums -----

  function Count(s: seq<Labelled>, status: TouchStatus): nat {
    if s == [] then 0 else Count(s[..|s| - 1], status) + if s[|s| - 1].outcome.status == status then 1 else 0
  }

  function Realized(s: seq<Labelled>): seq<real> {
    if s == [] then [] else
      Realized(s[..|s| - 1]) + if s[|s| - 1].outcome.realized.Some? then [s[|s| - 1].outcome.realized.value] else []
  }

  predicate Resolved(o: TradeOutcome) { o.status == TakeProfitReached || o.status == StopLossReached }

  function Seconds(o: TradeOutcome): real {
    if o.microsToResolution.Some? then o.microsToResolution.value as real / 1000000.0 else 0.0
  }

  /** Bars held by the resolved outcomes, together. */
  function HeldBars(s: seq<Labelled>): nat {
    if s == [] then 0
    else
      var o := s[|s| - 1].outcome;
      HeldBars(s[..|s| - 1]) + if Resolved(o) && o.barsToResolution.Some? then o.barsToResolution.value else 0
  }

  /** Seconds held by the resolved outcomes, together. */
  function HeldSeconds(s: seq<Labelled>): real {
    if s == [] then 0.0
    else
      var o := s[|s| - 1].outcome;
      HeldSeconds(s[..|s| - 1]) + if Resolved(o) then Seconds(o) else 0.0
  }

  function Mfes(s: seq<Labelled>): seq<real> { seq(|s|, i requires 0 <= i < |s| => s[i].outcome.mfeR) }

  function Maes(s: seq<Labelled>): seq<real> { seq(|s|, i requires 0 <= i < |s| => s[i].outcome.maeR) }

  function Latest(s: seq<Labelled>): Instant
    requires s != []
  {
    if |s| == 1 then s[0].outcome.endedAt
    else
      var before := Latest(s[..|s| - 1]);
      if before < s[|s| - 1].outcome.endedAt then s[|s| - 1].outcome.endedAt else before
  }

  const Positive: real -> bool := (v: real) => 0.0 < v
  const Negative: real -> bool := (v: real) => v < 0.0

  function FactorOf(grossWin: real, grossLoss: real): ProfitFactor {
    if 0.0 < grossLoss then Factor(grossWin / grossLoss)
    else if 0.0 < grossWin then Unbounded
    else FactorUnavailable
  }

  function SummaryOf(ordered: seq<Labelled>): Summary
    requires ordered != []
  {
    var first := ordered[0];
    var realized := Realized(ordered);
    var wins, losses := Count(ordered, TakeProfitReached), Count(ordered, StopLossReached);
    var total := M.Sum(realized);
    Summary(
      first.replayId, first.datasetDigest, first.partitionId, first.partitionKind,
      |ordered|, wins + losses, Count(ordered, UnresolvedHorizon), Count(ordered, AmbiguousIntrabar), wins, losses,
      if wins + losses == 0 then None else Some(wins as real / (wins + losses) as real),
      if realized == [] then None else Some(total),
      if realized == [] then None else Some(total / |realized| as real),
      MedianOf(realized),
      FactorOf(M.Sum(Filter(realized, Positive)), AbsReal(M.Sum(Filter(realized, Negative)))),
      if realized == [] then None else Some(RunOver(realized).maximum),
      if wins + losses == 0 then None else Some(HeldBars(ordered) as real / (wins + losses) as real),
      if wins + losses == 0 then None else Some(HeldSeconds(ordered) / (wins + losses) as real),
      M.Sum(Mfes(ordered)) / |ordered| as real,
      M.Sum(Maes(ordered)) / |ordered| as real,
      ordered,
      Latest(ordered))
  }

  /** The summary, or the error raised instead. */
  function Summarized(outcomes: seq<Labelled>): Result<Summary> {
    SortPermutes(outcomes, ByCutoff);
    var ordered := SortBy(outcomes, ByCutoff);
    if outcomes == [] then Err(InvalidOutcomeData)
    else if !DistinctIds(ordered) then Err(InvalidOutcomeData)
    else if exists i :: 0 <= i < |ordered| && !SamePartition(ordered[i], ordered[0]) then Err(PartitionViolation)
    else Ok(SummaryOf(ordered))
  }

  /** The order outcomes arrive in does not matter: not for the error, not for any metric, not for the digest. */
  lemma SummaryForgetsOrder(a: seq<Labelled>, b: seq<Labelled>)
    requires multiset(a) == multiset(b)
    ensures Summarized(a) == Summarized(b)
  {
    hide SummaryOf, SamePartition, StringLess, Before;
    SortPermutes(a, ByCutoff);
    SortPermutes(b, ByCutoff);
    SameSize(a, b);
    if DistinctIds(a) {
      CutoffOrder();
      SeparatedByIds(a);
      SortForgetsOrder(a, b, ByCutoff);
    } else {
      DuplicatesStay(a, SortBy(a, ByCutoff));
      DuplicatesStay(a, SortBy(b, ByCutoff));
    }
  }

  lemma SameSize<T>(a: seq<T>, b: seq<T>)
    requires multiset(a) == multiset(b)
    ensures |a| == |b|
  {
    assert |multiset(a)| == |a| && |multiset(b)| == |b|;
  }

  lemma SeparatedByIds(a: seq<Labelled>)
    requires DistinctIds(a)
    ensures forall i, j :: 0 <= i < j < |a| ==> ByCutoff(a[i], a[j]) || ByCutoff(a[j], a[i])
  {
    forall i, j | 0 <= i < j < |a| ensures ByCutoff(a[i], a[j]) || ByCutoff(a[j], a[i]) {
      StringTrichotomy(a[i].outcomeId, a[j].outcomeId);
      assert Before(a[i], a[j]) || Before(a[j], a[i]);
    }
  }

  /** A repeated identity is repeated in every arrangement of the same outcomes. */
  lemma DuplicatesStay(a: seq<Labelled>, b: seq<Labelled>)
    requires multiset(a) == multiset(b) && !DistinctIds(a)
    ensures !DistinctIds(b)
  {
    var i, j :| 0 <= i < j < |a| && a[i].outcomeId == a[j].outcomeId;
    SameElements(a, b);
    assert a[i] in b && a[j] in b;
    var k :| 0 <= k < |b| && b[k] == a[i];
    var m :| 0 <= m < |b| && b[m] == a[j];
    if k == m {
      TwiceInSequence(a, i, j);
      if DistinctIds(b) { OnceById(b, k); }
    }
  }

  lemma OnceById(b: seq<Labelled>, k: nat)
    requires DistinctIds(b) && k < |b|
    ensures multiset(b)[b[k]] == 1
  {
    assert b == b[..k] + [b[k]] + b[k + 1..];
    assert b[k] !in multiset(b[..k]) && b[k] !in multiset(b[k + 1..]);
  }

  function Ids(s: seq<Labelled>): set<Identifier> { set o | o in s :: o.outcomeId }

  lemma IdsOneMore(s: seq<Labelled>, o: Labelled)
    ensures Ids(s + [o]) == Ids(s) + {o.outcomeId}
    ensures DistinctIds(s + [o]) <==> DistinctIds(s) && o.outcomeId !in Ids(s)
  {
    var all := s + [o];
    assert all[|s|] == o && forall i :: 0 <= i < |s| ==> all[i] == s[i];
    forall i | 0 <= i < |s| ensures s[i].outcomeId in Ids(s) { assert s[i] in s; }
  }

  /** Identities are all different exactly when there are as many of them as outcomes. */
  lemma {:induction false} IdsCount(s: seq<Labelled>)
    ensures |Ids(s)| <= |s| && (|Ids(s)| == |s| <==> DistinctIds(s))
  {
    if s != [] {
      hide Ids, DistinctIds;
      var n := |s| - 1;
      IdsCount(s[..n]);
      IdsOneMore(s[..n], s[n]);
      assert s == s[..n] + [s[n]];
    }
  }

  /** What one pass over the outcomes adds up. */
  datatype Tally = Tally(
    wins: nat,
    losses: nat,
    unresolved: nat,
    ambiguous: nat,
    realized: seq<real>,
    bars: nat,
    seconds: real,
    mfe: real,
    mae: real)

  function TallyOf(s: seq<Labelled>): Tally {
    Tally(Count(s, TakeProfitReached), Count(s, StopLossReached), Count(s, UnresolvedHorizon),
          Count(s, AmbiguousIntrabar),
          Realized(s), HeldBars(s), HeldSeconds(s), M.Sum(Mfes(s)), M.Sum(Maes(s)))
  }

  lemma ExcursionsOneMore(s: seq<Labelled>)
    requires s != []
    ensures var n := |s| - 1;
            && M.Sum(Mfes(s)) == M.Sum(Mfes(s[..n])) + s[n].outcome.mfeR
            && M.Sum(Maes(s)) == M.Sum(Maes(s[..n])) + s[n].outcome.maeR
  {
    var n := |s| - 1;
    assert Mfes(s)[..n] == Mfes(s[..n]) && Maes(s)[..n] == Maes(s[..n]);
  }

  method TallyOutcomes(s: seq<Labelled>) returns (t: Tally)
    ensures t == TallyOf(s)
  {
    hide M.Sum, Mfes, Maes;
    t := Tally(0, 0, 0, 0, [], 0, 0.0, 0.0, 0.0);
    EmptyTally();
    for i := 0 to |s|
      invariant t == TallyOf(s[..i])
    {
      var o := s[i].outcome;
      ghost var upTo := s[..i + 1];
      assert upTo[..i] == s[..i] && upTo[i] == s[i] && |upTo| == i + 1;
      ExcursionsOneMore(upTo);
      match o.status {
        case TakeProfitReached => t := t.(wins := t.wins + 1);
        case StopLossReached => t := t.(losses := t.losses + 1);
        case UnresolvedHorizon => t := t.(unresolved := t.unresolved + 1);
        case AmbiguousIntrabar => t := t.(ambiguous := t.ambiguous + 1);
      }
      if o.realized.Some? {
        t := t.(realized := t.realized + [o.realized.value]);
      }
      if o.status == TakeProfitReached || o.status == StopLossReached {
        t := t.(bars := t.bars + (if o.barsToResolution.Some? then o.barsToResolution.value else 0),
                seconds := t.seconds + Seconds(o));
      }
      t := t.(mfe := t.mfe + o.mfeR, mae := t.mae + o.maeR);
    }
    assert s[..|s|] == s;
  }

  lemma EmptyTally()
    ensures TallyOf([]) == Tally(0, 0, 0, 0, [], 0, 0.0, 0.0, 0.0)
  {}

  /** The cumulative result, and what was won and lost of it. */
  method Gross(values: seq<real>) returns (total: real, won: real, lost: real)
    ensures total == M.Sum(values) && won == M.Sum(Filter(values, Positive)) && lost == M.Sum(Filter(values, Negative))
  {
    hide M.Sum, Filter;
    total, won, lost := 0.0, 0.0, 0.0;
    NothingWon();
    for i := 0 to |values|
      invariant total == M.Sum(values[..i])
      invariant won == M.Sum(Filter(values[..i], Positive)) && lost == M.Sum(Filter(values[..i], Negative))
    {
      var v := values[i];
      assert values[..i + 1] == values[..i] + [v];
      AppendOne(values[..i], v);
      total := total + v;
      if 0.0 < v { won := won + v; }
      if v < 0.0 { lost := lost + v; }
    }
    assert values[..|values|] == values;
  }

  lemma NothingWon()
    ensures M.Sum([]) == 0.0 && M.Sum(Filter([], Positive)) == 0.0 && M.Sum(Filter([], Negative)) == 0.0
  {}

  method LatestEnd(s: seq<Labelled>) returns (at: Instant)
    requires s != []
    ensures at == Latest(s) && (forall o :: o in s ==> o.outcome.endedAt <= at)
    ensures exists o :: o in s && o.outcome.endedAt == at
  {
    at := s[0].outcome.endedAt;
    for i := 1 to |s|
      invariant at == Latest(s[..i])
      invariant forall j :: 0 <= j < i ==> s[j].outcome.endedAt <= at
      invariant exists j :: 0 <= j < i && s[j].outcome.endedAt == at
    {
      assert s[..i + 1][..i] == s[..i];
      if at < s[i].outcome.endedAt { at := s[i].outcome.endedAt; }
    }
    assert s[..|s|] == s;
  }

  /**
   * The summary is computed from one sorted pass over the outcomes and single passes over their realized results;
   * errors are raised in the source's order.
   */
  method SummarizePerformance(outcomes: seq<Labelled>) returns (result: Result<Summary>)
    ensures result == Summarized(outcomes)
  {
    hide SummaryOf, Before, StringLess, DistinctIds, SamePartition, Ids;
    if outcomes == [] {
      return Err(InvalidOutcomeData);
    }
    SortPermutes(outcomes, ByCutoff);
    var ordered := SortBy(outcomes, ByCutoff);
    IdsCount(ordered);
    if |Ids(ordered)| != |ordered| {
      return Err(InvalidOutcomeData);
    }
    for i := 0 to |ordered|
      invariant forall j :: 0 <= j < i ==> SamePartition(ordered[j], ordered[0])
    {
      if !SamePartition(ordered[i], ordered[0]) {
        return Err(PartitionViolation);
      }
    }
    var summary := Summarize(ordered);
    result := Ok(summary);
  }

  method Summarize(ordered: seq<Labelled>) returns (summary: Summary)
    requires ordered != []
    ensures summary == SummaryOf(ordered)
  {
    hide M.Sum, Mfes, Maes, Count, Realized, HeldBars, HeldSeconds, Latest, Filter, RunOver, IsMaxFall, MedianOf;
    var t := TallyOutcomes(ordered);
    var total, won, lost := Gross(t.realized);
    var resolved := t.wins + t.losses;
    var drawdown := SequenceMaxDrawdown(t.realized);
    var at := LatestEnd(ordered);
    var first := ordered[0];
    summary := Summary(
      first.replayId, first.datasetDigest, first.partitionId, first.partitionKind,
      |ordered|, resolved, t.unresolved, t.ambiguous, t.wins, t.losses,
      if resolved == 0 then None else Some(t.wins as real / resolved as real),
      if t.realized == [] then None else Some(total),
      if t.realized == [] then None else Some(total / |t.realized| as real),
      MedianOf(t.realized),
      FactorOf(won, AbsReal(lost)),
      if t.realized == [] then None else Some(drawdown),
      if resolved == 0 then None else Some(t.bars as real / resolved as real),
      if resolved == 0 then None else Some(t.seconds / resolved as real),
      t.mfe / |ordered| as real,
      t.mae / |ordered| as real,
      ordered,
      at);
  }

  // ----- what the numbers mean -----

  lemma {:induction false} StatusesPartition(s: seq<Labelled>)
    ensures Count(s, TakeProfitReached) + Count(s, StopLossReached) + Count(s, AmbiguousIntrabar)
            + Count(s, UnresolvedHorizon) == |s|
  {
    if s != [] { StatusesPartition(s[..|s| - 1]); }
  }

  /** Among valid outcomes, exactly the resolved ones are realized: each win gains, each loss costs one unit. */
  lemma {:induction false} RealizedSplits(s: seq<Labelled>)
    requires forall i :: 0 <= i < |s| ==> ValidOutcome(s[i].outcome)
    ensures |Realized(s)| == Count(s, TakeProfitReached) + Count(s, StopLossReached)
    ensures |Filter(Realized(s), Positive)| == Count(s, TakeProfitReached)
    ensures |Filter(Realized(s), Negative)| == Count(s, StopLossReached)
    ensures M.Sum(Filter(Realized(s), Negative)) == -(Count(s, StopLossReached) as real)
    ensures M.Sum(Realized(s)) == M.Sum(Filter(Realized(s), Positive)) + M.Sum(Filter(Realized(s), Negative))
    ensures 0.0 <= M.Sum(Filter(Realized(s), Positive))
    ensures 0 < Count(s, TakeProfitReached) ==> 0.0 < M.Sum(Filter(Realized(s), Positive))
  {
    if s != [] {
      var n := |s| - 1;
      hide ValidOutcome, Filter, M.Sum, Count, Realized;
      RealizedSplits(s[..n]);
      var o := s[n].outcome;
      RealizedIff(o);
      OneMoreOutcome(s);
      if o.realized.Some? {
        RealizedValue(o);
        AppendOne(Realized(s[..n]), o.realized.value);
      }
    }
  }

  lemma OneMoreOutcome(s: seq<Labelled>)
    requires s != []
    ensures var n := |s| - 1; var o := s[n].outcome;
            && Count(s, TakeProfitReached) == Count(s[..n], TakeProfitReached)
               + (if o.status == TakeProfitReached then 1 else 0)
            && Count(s, StopLossReached) == Count(s[..n], StopLossReached)
               + (if o.status == StopLossReached then 1 else 0)
            && Realized(s) == if o.realized.Some? then Realized(s[..n]) + [o.realized.value] else Realized(s[..n])
  {}

  lemma RealizedIff(o: TradeOutcome)
    requires ValidOutcome(o)
    ensures o.realized.Some? <==> o.status == TakeProfitReached || o.status == StopLossReached
  {}

  lemma RealizedValue(o: TradeOutcome)
    requires ValidOutcome(o) && o.realized.Some?
    ensures o.status == TakeProfitReached ==> 0.0 < o.realized.value
    ensures o.status == StopLossReached ==> o.realized.value == -1.0
    ensures o.status == TakeProfitReached || o.status == StopLossReached
  {
    DivPositive(AbsReal(o.target - o.entry), o.riskUnit);
  }

  lemma AppendOne(values: seq<real>, x: real)
    ensures M.Sum(values + [x]) == M.Sum(values) + x
    ensures Filter(values + [x], Positive) == Filter(values, Positive) + if 0.0 < x then [x] else []
    ensures Filter(values + [x], Negative) == Filter(values, Negative) + if x < 0.0 then [x] else []
    ensures M.Sum(Filter(values + [x], Positive)) == M.Sum(Filter(values, Positive)) + if 0.0 < x then x else 0.0
    ensures M.Sum(Filter(values + [x], Negative)) == M.Sum(Filter(values, Negative)) + if x < 0.0 then x else 0.0
  {
    var all := values + [x];
    assert all[..|values|] == values && all[|values|] == x;
    var p, q := Filter(values, Positive), Filter(values, Negative);
    assert (p + [x])[..|p|] == p && (q + [x])[..|q|] == q;
    assert p + [] == p && q + [] == q;
  }

  /**
   * The summary of valid outcomes accounts for every one of them: the statuses partition the total, wins and
   * losses partition the resolved, the cumulative result is what was won less one unit per loss, and the profit
   * factor divides exactly those two.
   */
  lemma SummaryAccounts(outcomes: seq<Labelled>)
    requires Summarized(outcomes).Ok? && forall o :: o in outcomes ==> ValidOutcome(o.outcome)
    ensures var s := Summarized(outcomes).value;
            && s.outcomes == |outcomes| == s.resolved + s.unresolved + s.ambiguous && s.resolved == s.wins + s.losses
            && (s.cumulative.Some? <==> 0 < s.resolved)
            && (s.winRate.Some? ==> s.cumulative.Some? && 0.0 <= s.winRate.value <= 1.0)
            && (s.profitFactor.Factor? <==> 0 < s.losses)
            && (s.profitFactor.Unbounded? <==> s.losses == 0 && 0 < s.wins)
            && (s.profitFactor.Factor? ==>
                s.cumulative.Some? && s.cumulative.value == (s.profitFactor.value - 1.0) * s.losses as real)
            && (s.drawdown.Some? ==> IsMaxFall(s.drawdown.value, Realized(s.contents)))
            && (s.averageBars.Some? <==> 0 < s.resolved) && (s.averageSeconds.Some? <==> 0 < s.resolved)
            && (0 < s.resolved ==> 1.0 <= s.averageBars.value && 0.0 <= s.averageSeconds.value)
            && multiset(s.contents) == multiset(outcomes)
            && (forall i, j :: 0 <= i < j < |s.contents| ==> !Before(s.contents[j], s.contents[i]))
            && Measures(s)
  {
    hide Summarized, ValidOutcome, IsMaxFall, SummaryOf, Realized, SortBy, Measures, SamePartition, Before;
    SummarizedShape(outcomes);
    SortPermutes(outcomes, ByCutoff);
    CutoffOrder();
    SortAscending(outcomes, ByCutoff);
    var ordered := SortBy(outcomes, ByCutoff);
    SameElements(ordered, outcomes);
    forall i | 0 <= i < |ordered| ensures ValidOutcome(ordered[i].outcome) { assert ordered[i] in outcomes; }
    CountsOf(ordered);
    MoneyOf(ordered);
    HoldingOf(ordered);
    SummaryMeasures(ordered);
    hide ByCutoff;
  }

  /** Every resolved outcome was held for at least one bar. */
  lemma {:induction false} HeldEnough(s: seq<Labelled>)
    requires forall i :: 0 <= i < |s| ==> ValidOutcome(s[i].outcome)
    ensures Count(s, TakeProfitReached) + Count(s, StopLossReached) <= HeldBars(s) && 0.0 <= HeldSeconds(s)
  {
    if s != [] {
      HeldEnough(s[..|s| - 1]);
      var o := s[|s| - 1].outcome;
      assert ValidOutcome(o);
    }
  }

  lemma HoldingOf(ordered: seq<Labelled>)
    requires ordered != [] && forall i :: 0 <= i < |ordered| ==> ValidOutcome(ordered[i].outcome)
    ensures var s := SummaryOf(ordered);
            && (s.averageBars.Some? <==> 0 < s.resolved) && (s.averageSeconds.Some? <==> 0 < s.resolved)
            && (0 < s.resolved ==> 1.0 <= s.averageBars.value && 0.0 <= s.averageSeconds.value)
  {
    hide M.Sum, Mfes, Maes, MedianOf, Latest, Filter, RunOver, ValidOutcome, Count, Realized, FactorOf, HeldBars,
         HeldSeconds;
    HeldEnough(ordered);
    var resolved := Count(ordered, TakeProfitReached) + Count(ordered, StopLossReached);
    if 0 < resolved {
      AtLeastOneEach(HeldBars(ordered), resolved);
      DivPositive(HeldSeconds(ordered), resolved as real);
    }
  }

  // ----- the same numbers, measured on the outcomes themselves -----

  /** One number for each outcome. */
  function Each(s: seq<Labelled>, f: TradeOutcome -> real): seq<real> {
    seq(|s|, i requires 0 <= i < |s| => f(s[i].outcome))
  }

  lemma EachOneMore(s: seq<Labelled>, f: TradeOutcome -> real)
    requires s != []
    ensures M.Sum(Each(s, f)) == M.Sum(Each(s[..|s| - 1], f)) + f(s[|s| - 1].outcome)
  {
    assert Each(s, f)[..|s| - 1] == Each(s[..|s| - 1], f);
  }

  const Realization: TradeOutcome -> real := (o: TradeOutcome) => if o.realized.Some? then o.realized.value else 0.0
  const Bars: TradeOutcome -> real := (o: TradeOutcome) =>
    if o.realized.Some? && o.barsToResolution.Some? then o.barsToResolution.value as real else 0.0
  const Micros: TradeOutcome -> real := (o: TradeOutcome) =>
    if o.realized.Some? && o.microsToResolution.Some? then o.microsToResolution.value as real else 0.0

  lemma {:induction false} RealizedTotal(s: seq<Labelled>)
    ensures M.Sum(Realized(s)) == M.Sum(Each(s, Realization))
  {
    if s != [] {
      hide M.Sum, Each;
      var n := |s| - 1;
      RealizedTotal(s[..n]);
      EachOneMore(s, Realization);
      OneMoreOutcome(s);
      if s[n].outcome.realized.Some? { AppendOne(Realized(s[..n]), s[n].outcome.realized.value); }
    } else {
      assert Each(s, Realization) == [];
    }
  }

  lemma {:induction false} HeldTotals(s: seq<Labelled>)
    requires forall i :: 0 <= i < |s| ==> ValidOutcome(s[i].outcome)
    ensures HeldBars(s) as real == M.Sum(Each(s, Bars))
    ensures HeldSeconds(s) * 1000000.0 == M.Sum(Each(s, Micros))
  {
    if s != [] {
      hide ValidOutcome, M.Sum, Each;
      var n := |s| - 1;
      HeldTotals(s[..n]);
      RealizedIff(s[n].outcome);
      EachOneMore(s, Bars);
      EachOneMore(s, Micros);
    } else {
      assert Each(s, Bars) == [] && Each(s, Micros) == [];
    }
  }

  lemma {:induction false} CountIs(s: seq<Labelled>, status: TouchStatus)
    ensures Count(s, status) == |set i | 0 <= i < |s| && s[i].outcome.status == status|
  {
    if s != [] {
      CountIs(s[..|s| - 1], status);
      WhereOneMore(s, status);
    }
  }

  function Where(s: seq<Labelled>, status: TouchStatus): set<int> {
    set i | 0 <= i < |s| && s[i].outcome.status == status
  }

  lemma WhereOneMore(s: seq<Labelled>, status: TouchStatus)
    requires s != []
    ensures var n := |s| - 1;
            && n !in Where(s[..n], status)
            && Where(s, status) == Where(s[..n], status) + if s[n].outcome.status == status then {n} else {}
  {
    var n := |s| - 1;
    forall i ensures i in Where(s, status)
              <==> i in Where(s[..n], status) || (i == n && s[n].outcome.status == status)
    {
      if 0 <= i < n { assert s[..n][i] == s[i]; }
    }
  }

  lemma {:induction false} LatestIs(s: seq<Labelled>)
    requires s != []
    ensures forall i :: 0 <= i < |s| ==> s[i].outcome.endedAt <= Latest(s)
    ensures exists i :: 0 <= i < |s| && s[i].outcome.endedAt == Latest(s)
  {
    if |s| > 1 {
      var n := |s| - 1;
      LatestIs(s[..n]);
      var k :| 0 <= k < n && s[..n][k].outcome.endedAt == Latest(s[..n]);
      assert s[k] == s[..n][k];
      var m := if Latest(s[..n]) < s[n].outcome.endedAt then n else k;
      assert s[m].outcome.endedAt == Latest(s);
    } else {
      assert s[0].outcome.endedAt == Latest(s);
    }
  }

  lemma ExcursionsOf(s: seq<Labelled>)
    ensures Mfes(s) == Each(s, (o: TradeOutcome) => o.mfeR) && Maes(s) == Each(s, (o: TradeOutcome) => o.maeR)
  {}

  /** Every number of a summary, measured on the outcomes themselves. */
  ghost predicate Measures(s: Summary) { Counts(s) && Amounts(s) }

  ghost predicate Counts(s: Summary) {
    var all, n := s.contents, |s.contents|;
    && n == s.outcomes && 0 < n
    && s.wins == (|set i | 0 <= i < n && all[i].outcome.status == TakeProfitReached|)
    && s.losses == (|set i | 0 <= i < n && all[i].outcome.status == StopLossReached|)
    && s.ambiguous == (|set i | 0 <= i < n && all[i].outcome.status == AmbiguousIntrabar|)
    && s.unresolved == (|set i | 0 <= i < n && all[i].outcome.status == UnresolvedHorizon|)
    && (forall i :: 0 <= i < n ==> all[i].outcome.endedAt <= s.generatedAt)
    && (exists i :: 0 <= i < n && all[i].outcome.endedAt == s.generatedAt)
    && forall i :: 0 <= i < n ==>
         && all[i].replayId == s.replayId && all[i].datasetDigest == s.datasetDigest
         && all[i].partitionId == s.partitionId && all[i].partitionKind == s.partitionKind
  }

  ghost predicate Amounts(s: Summary) {
    var all, n := s.contents, |s.contents|;
    && s.averageMfe * n as real == M.Sum(Each(all, (o: TradeOutcome) => o.mfeR))
    && s.averageMae * n as real == M.Sum(Each(all, (o: TradeOutcome) => o.maeR))
    && s.median == MedianOf(Realized(all))
    && if s.resolved == 0 then
         && s.winRate.None? && s.cumulative.None? && s.average.None? && s.drawdown.None?
         && s.averageBars.None? && s.averageSeconds.None?
       else
         && s.winRate.Some? && s.winRate.value * s.resolved as real == s.wins as real
         && s.cumulative.Some? && s.cumulative.value == M.Sum(Each(all, Realization))
         && s.average.Some? && s.average.value * s.resolved as real == s.cumulative.value
         && s.drawdown.Some? && IsMaxFall(s.drawdown.value, Realized(all))
         && s.averageBars.Some? && s.averageBars.value * s.resolved as real == M.Sum(Each(all, Bars))
         && s.averageSeconds.Some?
         && s.averageSeconds.value * s.resolved as real * 1000000.0 == M.Sum(Each(all, Micros))
  }

  lemma SummaryMeasures(ordered: seq<Labelled>)
    requires ordered != [] && forall i :: 0 <= i < |ordered| ==> ValidOutcome(ordered[i].outcome)
    requires forall i :: 0 <= i < |ordered| ==> SamePartition(ordered[i], ordered[0])
    ensures Measures(SummaryOf(ordered))
  {
    SummaryCounts(ordered);
    SummaryAmounts(ordered);
    hide SummaryOf, Counts, Amounts;
  }

  lemma SummaryCounts(ordered: seq<Labelled>)
    requires ordered != [] && forall i :: 0 <= i < |ordered| ==> SamePartition(ordered[i], ordered[0])
    ensures Counts(SummaryOf(ordered))
  {
    hide M.Sum, Each, MedianOf, Latest, Filter, RunOver, Count, Realized, FactorOf, HeldBars, HeldSeconds, Mfes, Maes;
    CountIs(ordered, TakeProfitReached);
    CountIs(ordered, StopLossReached);
    CountIs(ordered, AmbiguousIntrabar);
    CountIs(ordered, UnresolvedHorizon);
    LatestIs(ordered);
  }

  lemma SummaryAmounts(ordered: seq<Labelled>)
    requires ordered != [] && forall i :: 0 <= i < |ordered| ==> ValidOutcome(ordered[i].outcome)
    ensures Amounts(SummaryOf(ordered))
  {
    hide ValidOutcome, M.Sum, Each, MedianOf, Latest, Filter, RunOver, IsMaxFall, Count, Realized, FactorOf, HeldBars,
         HeldSeconds, Mfes, Maes;
    RealizedTotal(ordered);
    HeldTotals(ordered);
    ExcursionsOf(ordered);
    RealizedSplits(ordered);
    OnePassIsMaxFall(Realized(ordered));
    var resolved := Count(ordered, TakeProfitReached) + Count(ordered, StopLossReached);
    DivMul(M.Sum(Mfes(ordered)), |ordered| as real);
    DivMul(M.Sum(Maes(ordered)), |ordered| as real);
    assert |Realized(ordered)| == 0 <==> Realized(ordered) == [];
    if 0 < resolved {
      var n := resolved as real;
      DivMul(Count(ordered, TakeProfitReached) as real, n);
      DivMul(M.Sum(Realized(ordered)), n);
      DivMul(HeldBars(ordered) as real, n);
      DivMul(HeldSeconds(ordered), n);
    }
  }

  lemma AtLeastOneEach(total: nat, count: nat)
    requires 0 < count <= total
    ensures 1.0 <= total as real / count as real
  {
    DivLe(count as real, total as real, count as real);
    DivOfMul(1.0, count as real);
  }

  lemma SummarizedShape(outcomes: seq<Labelled>)
    requires Summarized(outcomes).Ok?
    ensures SortBy(outcomes, ByCutoff) != [] && Summarized(outcomes).value == SummaryOf(SortBy(outcomes, ByCutoff))
    ensures var ordered := SortBy(outcomes, ByCutoff);
            forall i :: 0 <= i < |ordered| ==> SamePartition(ordered[i], ordered[0])
  {
    hide SummaryOf;
    SortPermutes(outcomes, ByCutoff);
  }

  /** Summarizing fails exactly without outcomes, with a repeated identity, or across partitions. */
  lemma SummarizedIff(outcomes: seq<Labelled>)
    ensures var repeated := exists i, j :: 0 <= i < j < |outcomes| && outcomes[i].outcomeId == outcomes[j].outcomeId;
            var mixed := exists a, b :: a in outcomes && b in outcomes && !SamePartition(a, b);
            Summarized(outcomes)
            == if outcomes == [] || repeated then Err(InvalidOutcomeData)
               else if mixed then Err(PartitionViolation) else Ok(SummaryOf(SortBy(outcomes, ByCutoff)))
  {
    SortPermutes(outcomes, ByCutoff);
    var ordered := SortBy(outcomes, ByCutoff);
    SameElements(outcomes, ordered);
    hide SummaryOf, SortBy;
    if !DistinctIds(outcomes) { DuplicatesStay(outcomes, ordered); }
    if !DistinctIds(ordered) { DuplicatesStay(ordered, outcomes); }
    MixedIff(outcomes, ordered);
  }

  lemma MixedIff(a: seq<Labelled>, b: seq<Labelled>)
    requires forall x :: x in a <==> x in b
    ensures b != [] ==>
              ((exists i :: 0 <= i < |b| && !SamePartition(b[i], b[0]))
               <==> exists x, y :: x in a && y in a && !SamePartition(x, y))
  {
    if b != [] && exists x, y :: x in a && y in a && !SamePartition(x, y) {
      var x, y :| x in a && y in a && !SamePartition(x, y);
      var i :| 0 <= i < |b| && b[i] == x;
      var j :| 0 <= j < |b| && b[j] == y;
      assert !SamePartition(b[i], b[0]) || !SamePartition(b[j], b[0]);
    }
    if i :| 0 <= i < |b| && !SamePartition(b[i], b[0]) { assert b[i] in a && b[0] in a; }
  }

  lemma CountsOf(ordered: seq<Labelled>)
    requires ordered != []
    ensures var s := SummaryOf(ordered);
            && s.outcomes == |ordered| == s.resolved + s.unresolved + s.ambiguous && s.resolved == s.wins + s.losses
            && s.contents == ordered
            && (s.winRate.Some? <==> 0 < s.resolved)
            && (s.winRate.Some? ==> 0.0 <= s.winRate.value <= 1.0)
            && (s.drawdown.Some? ==> IsMaxFall(s.drawdown.value, Realized(s.contents)))
  {
    hide IsMaxFall, M.Sum, FactorOf, Mfes, Maes, MedianOf, Latest, Filter, RunOver;
    StatusesPartition(ordered);
    OnePassIsMaxFall(Realized(ordered));
    var wins, losses := Count(ordered, TakeProfitReached), Count(ordered, StopLossReached);
    if 0 < wins + losses { Fraction(wins as real, (wins + losses) as real); }
  }

  lemma MoneyOf(ordered: seq<Labelled>)
    requires ordered != [] && forall i :: 0 <= i < |ordered| ==> ValidOutcome(ordered[i].outcome)
    ensures var s := SummaryOf(ordered);
            && (s.cumulative.Some? <==> 0 < s.resolved)
            && (s.profitFactor.Factor? <==> 0 < s.losses)
            && (s.profitFactor.Unbounded? <==> s.losses == 0 && 0 < s.wins)
            && (s.profitFactor.Factor? ==>
                s.cumulative.Some? && s.cumulative.value == (s.profitFactor.value - 1.0) * s.losses as real)
  {
    hide M.Sum, Mfes, Maes, MedianOf, Latest, Filter, RunOver, ValidOutcome, Count, Realized;
    RealizedSplits(ordered);
    var losses := Count(ordered, StopLossReached);
    var won, lost := M.Sum(Filter(Realized(ordered), Positive)), M.Sum(Filter(Realized(ordered), Negative));
    assert AbsReal(lost) == losses as real;
    if 0 < losses { FactorProduct(won, losses as real); }
  }

  lemma FactorProduct(won: real, lost: real)
    requires 0.0 < lost
    ensures won - lost == (won / lost - 1.0) * lost
  {
    DivMul(won, lost);
  }

  lemma Fraction(part: real, whole: real)
    requires 0.0 <= part <= whole && 0.0 < whole
    ensures 0.0 <= part / whole <= 1.0
  {
    DivPositive(part, whole);
    DivLe(part, 1.0 * whole, whole);
    DivOfMul(1.0, whole);
  }
}
