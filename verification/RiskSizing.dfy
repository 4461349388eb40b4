/** Stop-risk position sizing on the broker's volume grid, in exact arithmetic. */
module RiskSizing {
  import opened Prelude
  import opened RiskTypes

  datatype SizingOutcome =
    | Sized(result: Option<Sizing>, reasons: seq<Reason>)
    | SchemaError // a sizing record outside every try block failed validation

  predicate CoherentInputs(equity: real, riskPercent: real, stopDistance: real, info: SymbolInfo) {
    && 0.0 < equity && 0.0 < riskPercent && 0.0 < stopDistance
    && 0.0 < info.tickSize && 0.0 < info.tickValue && 0.0 < info.contractSize
    && 0.0 < info.volumeMin <= info.volumeMax && 0.0 < info.volumeStep
  }

  /** The fields every sizing record shares, whatever its status. */
  function Base(equity: real, riskPercent: real, stopDistance: real, info: SymbolInfo): Sizing
    requires CoherentInputs(equity, riskPercent, stopDistance, info)
  {
    PositiveBase(equity, riskPercent, stopDistance, info);
    var allowed := equity * riskPercent / 100.0;
    var ticks := stopDistance / info.tickSize;
    var loss := ticks * info.tickValue;
    Sizing(SizeRejected, riskPercent, allowed, stopDistance, info.tickSize, info.tickValue,
           info.contractSize, ticks, loss, allowed / loss, info.volumeMin, info.volumeMax,
           info.volumeStep, loss * info.volumeMin, None, None)
  }

  /** The index of the grid point the sizer floors to. */
  function Increments(base: Sizing): int
    requires base.volumeStep != 0.0
  {
    ((MinReal(base.rawVolume, base.volumeMax) - base.volumeMin) / base.volumeStep).Floor
  }

  /** Grid points counted from the broker minimum. */
  function GridPoint(base: Sizing, k: int): real {
    base.volumeMin + k as real * base.volumeStep
  }

  function WithVolume(base: Sizing, volume: real): Sizing {
    base.(status := SizeApproved, selectedVolume := Some(volume), estimatedRisk := Some(base.lossPerLot * volume))
  }

  /** The branch taken once the shared fields are known. */
  function SizeFrom(base: Sizing): SizingOutcome
    requires base.volumeStep != 0.0
  {
    if base.allowedRisk < base.minimumVolumeRisk then
      if ValidSizing(base) then Sized(Some(base), [MinimumVolumeExceedsRisk]) else SchemaError
    else
      var approved := WithVolume(base, GridPoint(base, Increments(base)));
      if ValidSizing(approved) then Sized(Some(approved), [])
      else if ValidSizing(base) then Sized(Some(base), [PositionSizeInvariantFailed])
      else SchemaError
  }

  function Calculate(equity: real, riskPercent: real, stopDistance: real, info: SymbolInfo): SizingOutcome {
    if CoherentInputs(equity, riskPercent, stopDistance, info)
    then SizeFrom(Base(equity, riskPercent, stopDistance, info))
    else Sized(None, [InvalidBrokerRiskMetadata])
  }

  lemma PositiveBase(equity: real, riskPercent: real, stopDistance: real, info: SymbolInfo)
    requires CoherentInputs(equity, riskPercent, stopDistance, info)
    ensures 0.0 < equity * riskPercent / 100.0
    ensures 0.0 < stopDistance / info.tickSize
    ensures 0.0 < stopDistance / info.tickSize * info.tickValue
  {
    DivPositive(stopDistance, info.tickSize);
  }

  lemma BaseFields(equity: real, riskPercent: real, stopDistance: real, info: SymbolInfo)
    requires CoherentInputs(equity, riskPercent, stopDistance, info)
    ensures var base := Base(equity, riskPercent, stopDistance, info);
            && base.allowedRisk == equity * riskPercent / 100.0 && base.stopDistance == stopDistance
            && base.tickSize == info.tickSize && base.tickValue == info.tickValue && base.volumeStep != 0.0
            && base.riskPercent == riskPercent && base.volumeStep == info.volumeStep
            && base.volumeMin == info.volumeMin && base.volumeMax == info.volumeMax
    ensures Base(equity, riskPercent, stopDistance, info).lossPerLot == stopDistance / info.tickSize * info.tickValue
    ensures 0.0 < equity && 0.0 < riskPercent && 0.0 < info.volumeStep && 0.0 < info.tickSize
  {}

  lemma VolumeKeepsFields(base: Sizing, volume: real)
    ensures var s := WithVolume(base, volume);
            && s.allowedRisk == base.allowedRisk && s.stopDistance == base.stopDistance
            && s.tickSize == base.tickSize && s.tickValue == base.tickValue && s.status.SizeApproved?
  {}

  lemma BaseValid(equity: real, riskPercent: real, stopDistance: real, info: SymbolInfo)
    requires CoherentInputs(equity, riskPercent, stopDistance, info)
    ensures riskPercent <= 1.0 <==> ValidSizing(Base(equity, riskPercent, stopDistance, info))
  {
    PositiveBase(equity, riskPercent, stopDistance, info);
    var base := Base(equity, riskPercent, stopDistance, info);
    DivPositive(base.allowedRisk, base.lossPerLot);
  }

  /** A volume the account may hold: inside the broker maximum and inside the allowed risk. */
  predicate Affordable(base: Sizing, volume: real) {
    volume <= base.volumeMax && base.lossPerLot * volume <= base.allowedRisk
  }

  lemma WithinBudgetIsBelowRaw(allowed: real, loss: real, volume: real)
    requires 0.0 < loss
    ensures loss * volume <= allowed <==> volume <= allowed / loss
  {
    var raw := allowed / loss;
    assert raw * loss == allowed;
    if volume <= raw { MulLe(volume, raw, loss); }
  }

  /** Flooring onto a grid stays below the cap and leaves no room for one more step. */
  lemma FloorIsLargest(room: real, step: real, k: int)
    requires 0.0 < step
    ensures (room / step).Floor as real * step <= room
    ensures k as real * step <= room ==> k <= (room / step).Floor
  {
    DivMul(room, step);
    FloorOfQuotient(room / step, step, k);
  }

  lemma FloorOfQuotient(q: real, step: real, k: int)
    requires 0.0 < step
    ensures q.Floor as real * step <= q * step
    ensures k as real * step <= q * step ==> k <= q.Floor
  {
    MulLe(q.Floor as real, q, step);
    if k as real * step <= q * step {
      CancelLe(k as real, q, step);
    }
  }

  lemma GridPointOnGrid(base: Sizing, k: int)
    requires 0.0 < base.volumeStep
    ensures OnGrid(GridPoint(base, k) - base.volumeMin, base.volumeStep)
  {
    var kr := k as real;
    DivOfMul(kr, base.volumeStep);
    assert GridPoint(base, k) - base.volumeMin == kr * base.volumeStep;
    assert (kr * base.volumeStep) / base.volumeStep == kr;
  }

  lemma GridPointMonotone(base: Sizing, j: int, k: int)
    requires j <= k && 0.0 < base.volumeStep
    ensures GridPoint(base, j) <= GridPoint(base, k)
  {
    MulLe(j as real, k as real, base.volumeStep);
  }

  /** The selected grid point is affordable, no larger one is, and it is not below the minimum. */
  lemma SelectedIsLargest(base: Sizing, k: int)
    requires 0.0 < base.volumeStep && 0.0 < base.lossPerLot && base.rawVolume == base.allowedRisk / base.lossPerLot
    requires Affordable(base, base.volumeMin)
    ensures 0 <= Increments(base)
    ensures base.volumeMin <= GridPoint(base, Increments(base))
    ensures Affordable(base, GridPoint(base, Increments(base)))
    ensures Affordable(base, GridPoint(base, k)) ==> k <= Increments(base)
  {
    hide Affordable;
    var room, n := MinReal(base.rawVolume, base.volumeMax) - base.volumeMin, Increments(base);
    AffordableIsBelowCap(base, base.volumeMin);
    FloorIsLargest(room, base.volumeStep, 0);
    GridPointMonotone(base, 0, n);
    AffordableIsBelowCap(base, GridPoint(base, n));
    AffordableIsBelowCap(base, GridPoint(base, k));
    FloorIsLargest(room, base.volumeStep, k);
  }

  lemma AffordableIsBelowCap(base: Sizing, volume: real)
    requires 0.0 < base.lossPerLot && base.rawVolume == base.allowedRisk / base.lossPerLot
    ensures Affordable(base, volume) <==> volume <= MinReal(base.rawVolume, base.volumeMax)
  {
    WithinBudgetIsBelowRaw(base.allowedRisk, base.lossPerLot, volume);
  }

  lemma SelectedIsValid(base: Sizing)
    requires ValidSizing(base) && base.status.SizeRejected? && Affordable(base, base.volumeMin)
    ensures ValidSizing(WithVolume(base, GridPoint(base, Increments(base))))
  {
    SelectedIsLargest(base, 0);
    var n := Increments(base);
    GridPointOnGrid(base, n);
    assert 0.0 < base.lossPerLot * GridPoint(base, n);
  }

  lemma SizeFromValidBase(base: Sizing)
    requires ValidSizing(base) && base.status.SizeRejected?
    ensures Affordable(base, base.volumeMin) ==>
              SizeFrom(base) == Sized(Some(WithVolume(base, GridPoint(base, Increments(base)))), [])
    ensures !Affordable(base, base.volumeMin) ==> SizeFrom(base) == Sized(Some(base), [MinimumVolumeExceedsRisk])
  {
    if Affordable(base, base.volumeMin) {
      SelectedIsValid(base);
    }
  }

  /** The largest affordable grid point, or a rejection that says not even the minimum is affordable. */
  predicate MaximalOutcome(base: Sizing, outcome: SizingOutcome)
    requires base.volumeStep != 0.0
  {
    if Affordable(base, base.volumeMin) then
      && outcome.Sized? && outcome.reasons == [] && outcome.result.Some?
      && ValidSizing(outcome.result.value)
      && var n := Increments(base);
         && outcome.result.value == WithVolume(base, GridPoint(base, n))
         && 0 <= n && Affordable(base, GridPoint(base, n))
    else
      outcome == Sized(Some(base), [MinimumVolumeExceedsRisk])
  }

  /**
   * The sizer approves exactly when the broker minimum is affordable, and then it selects the
   * largest affordable grid point; its defensive invariant-failed branch is never taken.
   */
  lemma SizingIsMaximal(equity: real, riskPercent: real, stopDistance: real, info: SymbolInfo, k: int)
    requires CoherentInputs(equity, riskPercent, stopDistance, info) && riskPercent <= 1.0
    ensures ValidSizing(Base(equity, riskPercent, stopDistance, info))
    ensures MaximalOutcome(Base(equity, riskPercent, stopDistance, info),
                           Calculate(equity, riskPercent, stopDistance, info))
    ensures var base := Base(equity, riskPercent, stopDistance, info);
            Affordable(base, GridPoint(base, k)) && Affordable(base, base.volumeMin) ==> k <= Increments(base)
  {
    BaseValid(equity, riskPercent, stopDistance, info);
    MaximalFromBase(Base(equity, riskPercent, stopDistance, info), k);
  }

  lemma MaximalFromBase(base: Sizing, k: int)
    requires ValidSizing(base) && base.status.SizeRejected?
    ensures MaximalOutcome(base, SizeFrom(base))
    ensures Affordable(base, GridPoint(base, k)) && Affordable(base, base.volumeMin) ==> k <= Increments(base)
  {
    SizeFromValidBase(base);
    if Affordable(base, base.volumeMin) {
      SelectedIsLargest(base, k);
      SelectedIsValid(base);
    }
  }

  /** Building a sizing record fails outright exactly for a percentage above the schema limit. */
  lemma SizerRaisesIff(equity: real, riskPercent: real, stopDistance: real, info: SymbolInfo)
    ensures Calculate(equity, riskPercent, stopDistance, info).SchemaError?
            <==> CoherentInputs(equity, riskPercent, stopDistance, info) && 1.0 < riskPercent
  {
    if CoherentInputs(equity, riskPercent, stopDistance, info) {
      BaseValid(equity, riskPercent, stopDistance, info);
      if riskPercent <= 1.0 {
        SizeFromValidBase(Base(equity, riskPercent, stopDistance, info));
      }
    }
  }

  lemma AllowedRiskMonotone(e1: real, p1: real, e2: real, p2: real)
    requires 0.0 < e1 <= e2 && 0.0 < p1 <= p2
    ensures e1 * p1 / 100.0 <= e2 * p2 / 100.0
  {
    MulLe(e1, e2, p1);
    MulLe(p1, p2, e2);
    assert p1 * e2 == e2 * p1;
  }

  /** Two sizings that differ only in how much may be lost select volumes in the same order. */
  lemma MoreRiskMoreVolume(b1: Sizing, b2: Sizing)
    requires ValidSizing(b1) && ValidSizing(b2)
    requires b1.lossPerLot == b2.lossPerLot && b1.volumeMin == b2.volumeMin
    requires b1.volumeMax == b2.volumeMax && b1.volumeStep == b2.volumeStep
    requires b1.allowedRisk <= b2.allowedRisk && Affordable(b1, b1.volumeMin)
    ensures Affordable(b2, b2.volumeMin)
    ensures GridPoint(b1, Increments(b1)) <= GridPoint(b2, Increments(b2))
  {
    BasisForSelection(b1);
    BasisForSelection(b2);
    SameGridPoint(b1, b2, Increments(b1));
    AffordableGrows(b1, b2, b1.volumeMin);
    hide ValidSizing, Increments, GridPoint, Affordable;
    SelectedIsLargest(b1, 0);
    SameGridPointAffordable(b1, b2, Increments(b1));
    SelectedIsLargest(b2, Increments(b1));
    GridPointMonotone(b2, Increments(b1), Increments(b2));
  }

  lemma SameGridPoint(b1: Sizing, b2: Sizing, k: int)
    requires b1.volumeMin == b2.volumeMin && b1.volumeStep == b2.volumeStep
    ensures GridPoint(b1, k) == GridPoint(b2, k)
  {}

  lemma AffordableGrows(b1: Sizing, b2: Sizing, volume: real)
    requires b1.lossPerLot == b2.lossPerLot && b1.volumeMax == b2.volumeMax && b1.allowedRisk <= b2.allowedRisk
    requires Affordable(b1, volume)
    ensures Affordable(b2, volume)
  {}

  lemma SameGridPointAffordable(b1: Sizing, b2: Sizing, k: int)
    requires b1.lossPerLot == b2.lossPerLot && b1.volumeMax == b2.volumeMax && b1.allowedRisk <= b2.allowedRisk
    requires b1.volumeMin == b2.volumeMin && b1.volumeStep == b2.volumeStep
    requires Affordable(b1, GridPoint(b1, k))
    ensures Affordable(b2, GridPoint(b2, k))
  {
    SameGridPoint(b1, b2, k);
    AffordableGrows(b1, b2, GridPoint(b1, k));
  }

  lemma BasisForSelection(base: Sizing)
    requires ValidSizing(base)
    ensures 0.0 < base.volumeStep && 0.0 < base.lossPerLot && base.rawVolume == base.allowedRisk / base.lossPerLot
  {}

  /** More equity and a larger permitted percentage never shrink the selected volume. */
  lemma SizingMonotone(e1: real, p1: real, e2: real, p2: real, stopDistance: real, info: SymbolInfo)
    requires e1 <= e2 && p1 <= p2 <= 1.0
    requires Calculate(e1, p1, stopDistance, info).Sized?
    requires Calculate(e1, p1, stopDistance, info).reasons == []
    ensures var o1 := Calculate(e1, p1, stopDistance, info);
            var o2 := Calculate(e2, p2, stopDistance, info);
            && o1.result.Some? && o1.result.value.selectedVolume.Some?
            && o2.Sized? && o2.reasons == [] && o2.result.Some? && o2.result.value.selectedVolume.Some?
            && o1.result.value.selectedVolume.value <= o2.result.value.selectedVolume.value
  {
    BaseValid(e1, p1, stopDistance, info);
    BaseValid(e2, p2, stopDistance, info);
    AllowedRiskMonotone(e1, p1, e2, p2);
    MonotoneFromBases(Base(e1, p1, stopDistance, info), Base(e2, p2, stopDistance, info));
  }

  lemma MonotoneFromBases(b1: Sizing, b2: Sizing)
    requires ValidSizing(b1) && ValidSizing(b2) && b1.status.SizeRejected? && b2.status.SizeRejected?
    requires b1.lossPerLot == b2.lossPerLot && b1.volumeMin == b2.volumeMin
    requires b1.volumeMax == b2.volumeMax && b1.volumeStep == b2.volumeStep
    requires b1.allowedRisk <= b2.allowedRisk && SizeFrom(b1).Sized? && SizeFrom(b1).reasons == []
    ensures SizeFrom(b1) == Sized(Some(WithVolume(b1, GridPoint(b1, Increments(b1)))), [])
    ensures SizeFrom(b2) == Sized(Some(WithVolume(b2, GridPoint(b2, Increments(b2)))), [])
    ensures GridPoint(b1, Increments(b1)) <= GridPoint(b2, Increments(b2))
  {
    SizeFromValidBase(b1);
    SizeFromValidBase(b2);
    MoreRiskMoreVolume(b1, b2);
  }
}
