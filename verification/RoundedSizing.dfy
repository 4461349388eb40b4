/**
 * The same sizer when every arithmetic operation rounds, by any rounding function of bounded
 * relative error: the final check keeps each approval safe, and the branch that exact arithmetic
 * never takes becomes necessary.
 */
module RoundedSizing {
  import opened Prelude
  import opened RiskTypes
  import opened RiskSizing

  type Rounding = real -> real

  /** A rounding whose relative error is at most `e`. */
  ghost predicate Rounds(round: Rounding, e: real) {
    && 0.0 <= e < 1.0
    && forall x: real :: AbsReal(round(x) - x) <= e * AbsReal(x)
  }

  function Times(round: Rounding, a: real, b: real): real { round(a * b) }

  function Over(round: Rounding, a: real, b: real): real
    requires b != 0.0
  { round(a / b) }

  lemma MulPositive(a: real, b: real)
    requires 0.0 < a && 0.0 < b
    ensures 0.0 < a * b
  {}

  lemma ErrorKeepsSign(x: real, y: real, e: real)
    requires 0.0 <= e < 1.0 && 0.0 < x && AbsReal(y - x) <= e * AbsReal(x)
    ensures (1.0 - e) * x <= y <= (1.0 + e) * x
    ensures 0.0 < y
  {
    MulPositive(1.0 - e, x);
  }

  /** A rounded product of positive factors stays within its error, so it stays positive. */
  lemma TimesBounds(round: Rounding, e: real, a: real, b: real)
    requires Rounds(round, e) && 0.0 < a && 0.0 < b
    ensures 0.0 <= e < 1.0
    ensures (1.0 - e) * (a * b) <= Times(round, a, b) <= (1.0 + e) * (a * b)
    ensures 0.0 < Times(round, a, b)
  {
    var x := a * b;
    MulPositive(a, b);
    ErrorKeepsSign(x, round(x), e);
  }

  lemma OverBounds(round: Rounding, e: real, a: real, b: real)
    requires Rounds(round, e) && 0.0 < a && 0.0 < b
    ensures 0.0 <= e < 1.0
    ensures (1.0 - e) * (a / b) <= Over(round, a, b) <= (1.0 + e) * (a / b)
    ensures 0.0 < Over(round, a, b)
  {
    var x := a / b;
    DivPositive(a, b);
    ErrorKeepsSign(x, round(x), e);
  }

  /** The shared fields, each operation rounded; a rounding keeps signs, so the divisions are total. */
  ghost function RoundedBase(round: Rounding, e: real, equity: real, riskPercent: real,
                             stopDistance: real, info: SymbolInfo): (base: Sizing)
    requires Rounds(round, e) && CoherentInputs(equity, riskPercent, stopDistance, info)
    ensures 0.0 < base.allowedRisk && 0.0 < base.ticksToStop && 0.0 < base.lossPerLot
  {
    TimesBounds(round, e, equity, riskPercent);
    OverBounds(round, e, Times(round, equity, riskPercent), 100.0);
    OverBounds(round, e, stopDistance, info.tickSize);
    var ticks := Over(round, stopDistance, info.tickSize);
    TimesBounds(round, e, ticks, info.tickValue);
    var loss := Times(round, ticks, info.tickValue);
    var allowed := Over(round, Times(round, equity, riskPercent), 100.0);
    Sizing(SizeRejected, riskPercent, allowed, stopDistance, info.tickSize, info.tickValue,
           info.contractSize, ticks, loss, Over(round, allowed, loss), info.volumeMin, info.volumeMax,
           info.volumeStep, Times(round, loss, info.volumeMin), None, None)
  }

  /** The sizing schema as the validator recomputes it, with the same rounding. */
  predicate ValidRounded(round: Rounding, s: Sizing) {
    && SizingFieldsInRange(s)
    && s.volumeMin <= s.volumeMax
    && s.ticksToStop == Over(round, s.stopDistance, s.tickSize)
    && s.lossPerLot == Times(round, s.ticksToStop, s.tickValue)
    && s.rawVolume == Over(round, s.allowedRisk, s.lossPerLot)
    && s.minimumVolumeRisk == Times(round, s.lossPerLot, s.volumeMin)
    && match s.status {
         case SizeRejected => s.selectedVolume.None? && s.estimatedRisk.None?
         case SizeApproved =>
           && s.selectedVolume.Some? && s.estimatedRisk.Some?
           && s.volumeMin <= s.selectedVolume.value <= s.volumeMax
           && OnGrid(round(s.selectedVolume.value - s.volumeMin), s.volumeStep)
           && s.estimatedRisk.value == Times(round, s.lossPerLot, s.selectedVolume.value)
           && s.estimatedRisk.value <= s.allowedRisk
       }
  }

  /** The volume the rounded flooring selects. */
  function RoundedVolume(round: Rounding, base: Sizing): real
    requires base.volumeStep != 0.0
  {
    var room := round(MinReal(base.rawVolume, base.volumeMax) - base.volumeMin);
    var increments := Over(round, room, base.volumeStep).Floor;
    round(base.volumeMin + Times(round, increments as real, base.volumeStep))
  }

  function RoundedApproval(round: Rounding, base: Sizing): Sizing
    requires base.volumeStep != 0.0
  {
    var volume := RoundedVolume(round, base);
    base.(status := SizeApproved, selectedVolume := Some(volume),
          estimatedRisk := Some(Times(round, base.lossPerLot, volume)))
  }

  function RoundedSizeFrom(round: Rounding, base: Sizing): SizingOutcome
    requires base.volumeStep != 0.0
  {
    if base.allowedRisk < base.minimumVolumeRisk then
      if ValidRounded(round, base) then Sized(Some(base), [MinimumVolumeExceedsRisk]) else SchemaError
    else if ValidRounded(round, RoundedApproval(round, base)) then
      Sized(Some(RoundedApproval(round, base)), [])
    else if ValidRounded(round, base) then Sized(Some(base), [PositionSizeInvariantFailed])
    else SchemaError
  }

  ghost function RoundedCalculate(round: Rounding, e: real, equity: real, riskPercent: real,
                                  stopDistance: real, info: SymbolInfo): SizingOutcome
    requires Rounds(round, e)
  {
    if CoherentInputs(equity, riskPercent, stopDistance, info)
    then RoundedSizeFrom(round, RoundedBase(round, e, equity, riskPercent, stopDistance, info))
    else Sized(None, [InvalidBrokerRiskMetadata])
  }

  lemma RoundedBaseValid(round: Rounding, e: real, equity: real, riskPercent: real,
                         stopDistance: real, info: SymbolInfo)
    requires Rounds(round, e) && CoherentInputs(equity, riskPercent, stopDistance, info)
    ensures riskPercent <= 1.0
            <==> ValidRounded(round, RoundedBase(round, e, equity, riskPercent, stopDistance, info))
  {
    hide Rounds, Times, Over;
    var base := RoundedBase(round, e, equity, riskPercent, stopDistance, info);
    OverBounds(round, e, base.allowedRisk, base.lossPerLot);
    TimesBounds(round, e, base.lossPerLot, base.volumeMin);
  }

  /** Rounding never makes the sizer raise where exact arithmetic does not. */
  lemma RoundedSizerRaisesIff(round: Rounding, e: real, equity: real, riskPercent: real,
                              stopDistance: real, info: SymbolInfo)
    requires Rounds(round, e)
    ensures RoundedCalculate(round, e, equity, riskPercent, stopDistance, info).SchemaError?
            <==> CoherentInputs(equity, riskPercent, stopDistance, info) && 1.0 < riskPercent
  {
    hide Rounds, Times, Over, RoundedVolume;
    if CoherentInputs(equity, riskPercent, stopDistance, info) {
      RoundedBaseValid(round, e, equity, riskPercent, stopDistance, info);
    }
  }

  lemma ScaleDown(d: real, low: real, high: real, factor: real)
    requires 0.0 < d && 0.0 < factor && low <= high
    ensures d * (low * factor) <= d * (high * factor)
  {
    MulLe(low, high, factor);
    MulLe(low * factor, high * factor, d);
  }

  lemma ThreeDown(e: real, exactTicks: real, ticks: real, tickValue: real, loss: real, volume: real,
                  estimated: real)
    requires 0.0 <= e < 1.0 && 0.0 < tickValue && 0.0 < volume
    requires (1.0 - e) * exactTicks <= ticks
    requires (1.0 - e) * (ticks * tickValue) <= loss
    requires (1.0 - e) * (loss * volume) <= estimated
    ensures (1.0 - e) * (1.0 - e) * (1.0 - e) * (exactTicks * tickValue * volume) <= estimated
  {
    var d := 1.0 - e;
    ScaleDown(d, d * exactTicks, ticks, tickValue);
    ScaleDown(d, d * (d * exactTicks * tickValue), loss, volume);
    assert d * d * d * (exactTicks * tickValue * volume) == d * (d * (d * exactTicks * tickValue) * volume);
  }

  lemma TwoUp(e: real, product: real, rounded: real, allowed: real)
    requires 0.0 <= e && rounded <= (1.0 + e) * product && allowed <= (1.0 + e) * (rounded / 100.0)
    ensures allowed <= (1.0 + e) * (1.0 + e) * (product / 100.0)
  {
    MulLe(rounded, (1.0 + e) * product, (1.0 + e) / 100.0);
    assert rounded * ((1.0 + e) / 100.0) == (1.0 + e) * (rounded / 100.0);
    assert (1.0 + e) * product * ((1.0 + e) / 100.0) == (1.0 + e) * (1.0 + e) * (product / 100.0);
  }

  /** The exact loss at the stop, up to three roundings down. */
  function LeastLoss(e: real, stopDistance: real, tickSize: real, tickValue: real, volume: real): real
    requires tickSize != 0.0
  {
    (1.0 - e) * (1.0 - e) * (1.0 - e) * (stopDistance / tickSize * tickValue * volume)
  }

  /** The exact permitted risk, up to two roundings up. */
  function MostAllowed(e: real, equity: real, riskPercent: real): real {
    (1.0 + e) * (1.0 + e) * (equity * riskPercent / 100.0)
  }

  lemma RoundedFields(round: Rounding, s: Sizing)
    requires ValidRounded(round, s) && s.status.SizeApproved?
    ensures 0.0 < s.stopDistance && 0.0 < s.tickSize && 0.0 < s.ticksToStop && 0.0 < s.tickValue && 0.0 < s.lossPerLot
    ensures s.selectedVolume.Some? && 0.0 < s.selectedVolume.value && s.estimatedRisk.Some?
    ensures s.ticksToStop == Over(round, s.stopDistance, s.tickSize)
    ensures s.lossPerLot == Times(round, s.ticksToStop, s.tickValue)
    ensures s.estimatedRisk.value == Times(round, s.lossPerLot, s.selectedVolume.value) <= s.allowedRisk
  {
    hide Times, Over, OnGrid;
  }

  lemma LossFromCheck(round: Rounding, e: real, s: Sizing)
    requires Rounds(round, e) && ValidRounded(round, s) && s.status.SizeApproved?
    ensures LeastLoss(e, s.stopDistance, s.tickSize, s.tickValue, s.selectedVolume.value) <= s.allowedRisk
  {
    RoundedFields(round, s);
    hide Rounds, Times, Over, ValidRounded;
    OverBounds(round, e, s.stopDistance, s.tickSize);
    TimesBounds(round, e, s.ticksToStop, s.tickValue);
    TimesBounds(round, e, s.lossPerLot, s.selectedVolume.value);
    ThreeDown(e, s.stopDistance / s.tickSize, s.ticksToStop, s.tickValue, s.lossPerLot, s.selectedVolume.value,
              s.estimatedRisk.value);
  }

  lemma AllowedFromInputs(round: Rounding, e: real, equity: real, riskPercent: real,
                          stopDistance: real, info: SymbolInfo)
    requires Rounds(round, e) && CoherentInputs(equity, riskPercent, stopDistance, info)
    ensures RoundedBase(round, e, equity, riskPercent, stopDistance, info).allowedRisk
            <= MostAllowed(e, equity, riskPercent)
  {
    hide Rounds, Times, Over;
    TimesBounds(round, e, equity, riskPercent);
    var product := Times(round, equity, riskPercent);
    OverBounds(round, e, product, 100.0);
    TwoUp(e, equity * riskPercent, product, Over(round, product, 100.0));
  }

  /** An approved outcome carries a record that passed the final check on the fields of the inputs. */
  lemma ApprovedRecord(round: Rounding, e: real, equity: real, riskPercent: real,
                       stopDistance: real, info: SymbolInfo) returns (s: Sizing)
    requires Rounds(round, e)
    requires RoundedCalculate(round, e, equity, riskPercent, stopDistance, info).Sized?
    requires RoundedCalculate(round, e, equity, riskPercent, stopDistance, info).reasons == []
    ensures CoherentInputs(equity, riskPercent, stopDistance, info)
    ensures RoundedCalculate(round, e, equity, riskPercent, stopDistance, info) == Sized(Some(s), [])
    ensures ValidRounded(round, s) && s.status.SizeApproved?
    ensures s.stopDistance == stopDistance && s.tickSize == info.tickSize && s.tickValue == info.tickValue
    ensures s.volumeMin == info.volumeMin && s.volumeMax == info.volumeMax
    ensures s.allowedRisk == RoundedBase(round, e, equity, riskPercent, stopDistance, info).allowedRisk
  {
    hide Rounds, Times, Over, RoundedVolume;
    s := RoundedCalculate(round, e, equity, riskPercent, stopDistance, info).result.value;
  }

  lemma VolumeInBounds(round: Rounding, s: Sizing)
    requires ValidRounded(round, s) && s.status.SizeApproved?
    ensures 0.0 < s.tickSize && s.selectedVolume.Some?
    ensures s.volumeMin <= s.selectedVolume.value <= s.volumeMax
  {}

  /**
   * An approval under any rounding: the volume is within the broker's bounds, and the exact loss
   * at the stop exceeds the exact permitted risk by no more than five roundings can hide.
   */
  lemma ApprovedDespiteRounding(round: Rounding, e: real, equity: real, riskPercent: real,
                                stopDistance: real, info: SymbolInfo)
    requires Rounds(round, e)
    requires RoundedCalculate(round, e, equity, riskPercent, stopDistance, info).Sized?
    requires RoundedCalculate(round, e, equity, riskPercent, stopDistance, info).reasons == []
    ensures 0.0 < info.tickSize
    ensures var outcome := RoundedCalculate(round, e, equity, riskPercent, stopDistance, info);
            && outcome.result.Some? && outcome.result.value.selectedVolume.Some?
            && var volume := outcome.result.value.selectedVolume.value;
               && info.volumeMin <= volume <= info.volumeMax
               && LeastLoss(e, stopDistance, info.tickSize, info.tickValue, volume)
                  <= MostAllowed(e, equity, riskPercent)
  {
    hide *;
    var s := ApprovedRecord(round, e, equity, riskPercent, stopDistance, info);
    AllowedFromInputs(round, e, equity, riskPercent, stopDistance, info);
    VolumeInBounds(round, s);
    LossFromCheck(round, e, s);
  }

  /** Without rounding error this is the exact sizer. */
  lemma ExactWithoutRounding(round: Rounding, equity: real, riskPercent: real, stopDistance: real,
                             info: SymbolInfo)
    requires Rounds(round, 0.0)
    ensures RoundedCalculate(round, 0.0, equity, riskPercent, stopDistance, info)
            == Calculate(equity, riskPercent, stopDistance, info)
  {
    NoError(round);
    if CoherentInputs(equity, riskPercent, stopDistance, info) {
      hide Rounds;
      var base := RoundedBase(round, 0.0, equity, riskPercent, stopDistance, info);
      assert base == Base(equity, riskPercent, stopDistance, info);
      SameWithoutRounding(round, base);
    }
  }

  lemma NoError(round: Rounding)
    requires Rounds(round, 0.0)
    ensures forall x: real :: round(x) == x
  {
    forall x: real ensures round(x) == x {
      assert AbsReal(round(x) - x) <= 0.0 * AbsReal(x);
    }
  }

  lemma SameVolumeWithoutRounding(round: Rounding, base: Sizing)
    requires (forall x: real :: round(x) == x) && base.volumeStep != 0.0
    ensures RoundedVolume(round, base) == GridPoint(base, Increments(base))
  {
    var room := MinReal(base.rawVolume, base.volumeMax) - base.volumeMin;
    assert Over(round, round(room), base.volumeStep) == room / base.volumeStep;
    var steps := Increments(base) as real;
    assert Times(round, steps, base.volumeStep) == steps * base.volumeStep;
  }

  lemma SameApprovalWithoutRounding(round: Rounding, base: Sizing, volume: real)
    requires (forall x: real :: round(x) == x) && base.volumeStep != 0.0
    requires volume == RoundedVolume(round, base)
    ensures RoundedApproval(round, base) == WithVolume(base, volume)
  {
    hide RoundedVolume;
    ProductIsNamed(round, base.lossPerLot, volume);
    var rounded, exact := RoundedApproval(round, base), WithVolume(base, volume);
    assert rounded.estimatedRisk.value == exact.estimatedRisk.value;
  }

  lemma ProductIsNamed(round: Rounding, a: real, b: real)
    requires forall x: real :: round(x) == x
    ensures Times(round, a, b) == a * b
  {}

  lemma SameWithoutRounding(round: Rounding, base: Sizing)
    requires (forall x: real :: round(x) == x) && base.volumeStep != 0.0
    ensures RoundedSizeFrom(round, base) == SizeFrom(base)
  {
    var approved := WithVolume(base, GridPoint(base, Increments(base)));
    SameVolumeWithoutRounding(round, base);
    SameApprovalWithoutRounding(round, base, GridPoint(base, Increments(base)));
    hide RoundedApproval, WithVolume, GridPoint, Increments, ValidSizing, ValidRounded;
    SameCheckWithoutRounding(round, base);
    SameCheckWithoutRounding(round, approved);
  }

  lemma SameCheckWithoutRounding(round: Rounding, s: Sizing)
    requires forall x: real :: round(x) == x
    ensures ValidRounded(round, s) <==> ValidSizing(s)
  {}

  /** A rounding that lifts one quotient over a grid point. */
  function Lift(x: real): real { if x == 1.5 then 2.0 else x }

  /** The invariant-failed branch, dead in exact arithmetic, is what refuses a volume rounded too high. */
  lemma FinalCheckNeeded(info: SymbolInfo)
    requires info.tickSize == 1.0 && info.tickValue == 1.0 && 0.0 < info.contractSize
    requires info.volumeMin == 1.0 && info.volumeMax == 10.0 && info.volumeStep == 1.0
    ensures Rounds(Lift, 0.5)
    ensures var outcome := RoundedCalculate(Lift, 0.5, 300.0, 1.0, 2.0, info);
            outcome.Sized? && outcome.reasons == [PositionSizeInvariantFailed]
    ensures Calculate(300.0, 1.0, 2.0, info).Sized? && Calculate(300.0, 1.0, 2.0, info).reasons == []
  {
    RoundedBaseValid(Lift, 0.5, 300.0, 1.0, 2.0, info);
    var base := RoundedBase(Lift, 0.5, 300.0, 1.0, 2.0, info);
    assert base.lossPerLot == 2.0 && base.allowedRisk == 3.0 && base.rawVolume == 2.0;
    assert RoundedVolume(Lift, base) == 2.0;
    SizingIsMaximal(300.0, 1.0, 2.0, info, 0);
  }
}
