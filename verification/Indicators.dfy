/** The rolling indicators: loops over a price series, proved against the recurrences and what those mean. */
module Indicators {
  import opened Prelude
  import opened Smoothing

  datatype Candle = Candle(open: real, high: real, low: real, close: real)

  predicate ValidCandle(c: Candle) { c.low <= c.open <= c.high && c.low <= c.close <= c.high }

  predicate ValidCandles(cs: seq<Candle>) { forall i :: 0 <= i < |cs| ==> ValidCandle(cs[i]) }

  /** A full series, or the exception raised instead. */
  datatype Indicator = Series(values: seq<Option<real>>) | PeriodNotPositive | SmoothingUnavailable

  // ----- relative strength -----

  function Gain(values: seq<real>, i: nat): real
    requires i + 1 < |values|
  {
    MaxReal(values[i + 1] - values[i], 0.0)
  }

  function Loss(values: seq<real>, i: nat): real
    requires i + 1 < |values|
  {
    MaxReal(-(values[i + 1] - values[i]), 0.0)
  }

  function Gains(values: seq<real>): seq<real>
    requires values != []
  {
    seq(|values| - 1, i requires 0 <= i < |values| - 1 => Gain(values, i))
  }

  function Losses(values: seq<real>): seq<real>
    requires values != []
  {
    seq(|values| - 1, i requires 0 <= i < |values| - 1 => Loss(values, i))
  }

  function RsiOf(averageGain: real, averageLoss: real): real
    requires 0.0 <= averageGain && 0.0 <= averageLoss
  {
    if averageLoss == 0.0 then (if averageGain == 0.0 then 50.0 else 100.0)
    else
      StrengthDefined(averageGain, averageLoss);
      100.0 - 100.0 / (1.0 + averageGain / averageLoss)
  }

  lemma StrengthDefined(gain: real, loss: real)
    requires 0.0 <= gain && 0.0 < loss
    ensures 1.0 <= 1.0 + gain / loss
  {
    DivPositive(gain, loss);
  }

  /** Relative strength in the form without the intermediate quotient. */
  lemma RsiOfShare(gain: real, loss: real)
    requires 0.0 <= gain && 0.0 <= loss && 0.0 < gain + loss
    ensures RsiOf(gain, loss) == 100.0 * gain / (gain + loss)
  {
    var total := gain + loss;
    if loss == 0.0 {
      DivOfMul(100.0, gain);
    } else {
      StrengthDefined(gain, loss);
      var ratio := 1.0 + gain / loss;
      DivMul(gain, loss);
      assert ratio * loss == total;
      var share := 100.0 / ratio;
      DivMul(100.0, ratio);
      assert share * total == 100.0 * loss by { ShareProduct(share, ratio, loss, total); }
      ShareDifference(share, gain, loss, total);
    }
  }

  lemma ShareProduct(share: real, ratio: real, loss: real, total: real)
    requires share * ratio == 100.0 && ratio * loss == total
    ensures share * total == 100.0 * loss
  {
    assert share * (ratio * loss) == (share * ratio) * loss;
  }

  lemma QuotientIs(x: real, n: real, q: real)
    requires n != 0.0 && q * n == x
    ensures x / n == q
  {
    DivOfMul(q, n);
  }

  lemma ShareDifference(share: real, gain: real, loss: real, total: real)
    requires total == gain + loss && 0.0 < total && share * total == 100.0 * loss
    ensures 100.0 - share == 100.0 * gain / total
  {
    assert (100.0 - share) * total == 100.0 * gain;
    QuotientIs(100.0 * gain, total, 100.0 - share);
  }

  lemma RsiOfInRange(gain: real, loss: real)
    requires 0.0 <= gain && 0.0 <= loss
    ensures 0.0 <= RsiOf(gain, loss) <= 100.0
    ensures RsiOf(gain, loss) + RsiOf(loss, gain) == 100.0
  {
    if 0.0 < gain + loss {
      var total := gain + loss;
      RsiOfShare(gain, loss);
      RsiOfShare(loss, gain);
      DivPositive(100.0 * gain, total);
      DivPositive(100.0 * loss, total);
      assert 100.0 * gain + 100.0 * loss == 100.0 * total;
      SplitQuotientTwo(100.0 * gain, 100.0 * loss, total);
      DivOfMul(100.0, total);
    }
  }

  lemma AveragesNonNegative(values: seq<real>, period: int, i: int)
    requires 0 < period <= i < |values|
    ensures 0.0 <= Wilder(Gains(values), period, i - 1) && 0.0 <= Wilder(Losses(values), period, i - 1)
  {
    var g, l := Gains(values), Losses(values);
    var top := Upper(g[..i]);
    WilderWithin(g, period, i - 1, 0.0, top);
    var deep := Upper(l[..i]);
    WilderWithin(l, period, i - 1, 0.0, deep);
  }

  /** Some upper bound of a series. */
  lemma {:induction false} Upper(xs: seq<real>) returns (hi: real)
    ensures forall k :: 0 <= k < |xs| ==> xs[k] <= hi
  {
    if xs == [] { hi := 0.0; } else {
      var rest := Upper(xs[..|xs| - 1]);
      hi := MaxReal(rest, xs[|xs| - 1]);
    }
  }

  function Rsi(values: seq<real>, period: int, i: int): real
    requires 0 < period <= i < |values|
  {
    AveragesNonNegative(values, period, i);
    RsiOf(Wilder(Gains(values), period, i - 1), Wilder(Losses(values), period, i - 1))
  }

  /** RSI is a percentage, and the RSI of the negated series is its complement. */
  lemma RsiComplement(values: seq<real>, period: int, i: int)
    requires 0 < period <= i < |values|
    ensures 0.0 <= Rsi(values, period, i) <= 100.0
    ensures Rsi(Affine(values, -1.0, 0.0), period, i) == 100.0 - Rsi(values, period, i)
  {
    hide RsiOf, Wilder;
    var mirrored := Affine(values, -1.0, 0.0);
    assert Gains(mirrored) == Losses(values);
    assert Losses(mirrored) == Gains(values);
    AveragesNonNegative(values, period, i);
    RsiOfInRange(Wilder(Gains(values), period, i - 1), Wilder(Losses(values), period, i - 1));
  }

  lemma ScaledChange(a: real, x: real, y: real, b: real)
    requires 0.0 < a
    ensures (a * y + b) - (a * x + b) == a * (y - x)
    ensures MaxReal(a * (y - x), 0.0) == a * MaxReal(y - x, 0.0) + 0.0
    ensures MaxReal(-(a * (y - x)), 0.0) == a * MaxReal(-(y - x), 0.0) + 0.0
  {
    if 0.0 <= y - x { MulLe(0.0, y - x, a); } else { MulLe(y - x, 0.0, a); }
  }

  lemma RsiOfScaled(gain: real, loss: real, a: real, gain': real, loss': real)
    requires 0.0 <= gain && 0.0 <= loss && 0.0 < a && gain' == a * gain && loss' == a * loss
    ensures 0.0 <= gain' && 0.0 <= loss' && RsiOf(gain', loss') == RsiOf(gain, loss)
  {
    MulLe(0.0, gain, a);
    MulLe(0.0, loss, a);
    if 0.0 < gain + loss {
      var total := gain + loss;
      ProductPositive(a, total);
      assert gain' + loss' == a * total;
      RsiOfShare(gain, loss);
      RsiOfShare(gain', loss');
      CommonFactor(a, 100.0 * gain, total, 100.0 * gain', gain' + loss');
    } else {
      assert gain == 0.0 && loss == 0.0;
    }
  }

  lemma ProductPositive(a: real, b: real)
    requires 0.0 < a && 0.0 < b
    ensures 0.0 < a * b
  {}

  lemma CommonFactor(a: real, x: real, y: real, x': real, y': real)
    requires a != 0.0 && y != 0.0 && y' != 0.0 && x' == a * x && y' == a * y
    ensures x' / y' == x / y
  {
    var q := x / y;
    DivMul(x, y);
    assert q * y' == x' by { assert q * (a * y) == a * (q * y); }
    QuotientIs(x', y', q);
  }

  /** RSI ignores where the price scale starts and how it is measured. */
  lemma RsiScaleFree(values: seq<real>, period: int, i: int, a: real, b: real)
    requires 0 < period <= i < |values| && 0.0 < a
    ensures Rsi(Affine(values, a, b), period, i) == Rsi(values, period, i)
  {
    hide RsiOf, Wilder;
    var moved := Affine(values, a, b);
    forall k | 0 <= k < |values| - 1
      ensures Gains(moved)[k] == Affine(Gains(values), a, 0.0)[k]
              && Losses(moved)[k] == Affine(Losses(values), a, 0.0)[k]
    {
      ScaledChange(a, values[k], values[k + 1], b);
    }
    assert Gains(moved) == Affine(Gains(values), a, 0.0) && Losses(moved) == Affine(Losses(values), a, 0.0);
    WilderScaled(Gains(values), period, i - 1, a);
    WilderScaled(Losses(values), period, i - 1, a);
    AveragesNonNegative(values, period, i);
    RsiOfScaled(Wilder(Gains(values), period, i - 1), Wilder(Losses(values), period, i - 1), a,
                Wilder(Gains(moved), period, i - 1), Wilder(Losses(moved), period, i - 1));
  }

  /** No look-ahead in RSI. */
  lemma RsiCausal(values: seq<real>, other: seq<real>, period: int, i: int)
    requires 0 < period <= i < |values| && i < |other| && values[..i + 1] == other[..i + 1]
    ensures Rsi(values, period, i) == Rsi(other, period, i)
  {
    hide RsiOf, Wilder;
    forall k | 0 <= k <= i ensures values[k] == other[k] {
      assert values[..i + 1][k] == other[..i + 1][k];
    }
    assert Gains(values)[..i] == Gains(other)[..i] && Losses(values)[..i] == Losses(other)[..i];
    WilderCausal(Gains(values), Gains(other), period, i - 1);
    WilderCausal(Losses(values), Losses(other), period, i - 1);
  }

  // ----- ranges and directional movement -----

  function TrueRange(c: Candle, previousClose: real): real {
    MaxReal(MaxReal(c.high - c.low, AbsReal(c.high - previousClose)), AbsReal(c.low - previousClose))
  }

  function UpMove(cs: seq<Candle>, i: nat): real
    requires i + 1 < |cs|
  {
    cs[i + 1].high - cs[i].high
  }

  function DownMove(cs: seq<Candle>, i: nat): real
    requires i + 1 < |cs|
  {
    cs[i].low - cs[i + 1].low
  }

  function TrueRanges(cs: seq<Candle>): seq<real>
    requires cs != []
  {
    seq(|cs| - 1, i requires 0 <= i < |cs| - 1 => TrueRange(cs[i + 1], cs[i].close))
  }

  function PlusMoves(cs: seq<Candle>): seq<real>
    requires cs != []
  {
    seq(|cs| - 1, i requires 0 <= i < |cs| - 1 =>
      if UpMove(cs, i) > DownMove(cs, i) && UpMove(cs, i) > 0.0 then UpMove(cs, i) else 0.0)
  }

  function MinusMoves(cs: seq<Candle>): seq<real>
    requires cs != []
  {
    seq(|cs| - 1, i requires 0 <= i < |cs| - 1 =>
      if DownMove(cs, i) > UpMove(cs, i) && DownMove(cs, i) > 0.0 then DownMove(cs, i) else 0.0)
  }

  function Atr(cs: seq<Candle>, period: int, i: int): real
    requires 0 < period <= i < |cs|
  {
    Wilder(TrueRanges(cs), period, i - 1)
  }

  function DirectionalIndex(range: real, plus: real, minus: real): real {
    if range == 0.0 then 0.0
    else
      var plusDi, minusDi := 100.0 * plus / range, 100.0 * minus / range;
      if plusDi + minusDi == 0.0 then 0.0 else 100.0 * AbsReal(plusDi - minusDi) / (plusDi + minusDi)
  }

  function Dx(cs: seq<Candle>, period: int, t: int): real
    requires 0 < period <= t + 1 < |cs|
  {
    DirectionalIndex(Smoothed(TrueRanges(cs), period, t), Smoothed(PlusMoves(cs), period, t),
                     Smoothed(MinusMoves(cs), period, t))
  }

  /** The first n directional indices, the earliest at transition period - 1. */
  function DxSeries(cs: seq<Candle>, period: int, n: nat): seq<real>
    requires 0 < period && (n == 0 || period + n <= |cs|)
  {
    seq(n, j requires 0 <= j < n => Dx(cs, period, period - 1 + j))
  }

  function Adx(cs: seq<Candle>, period: int, i: int): real
    requires 0 < period && 2 * period - 1 <= i < |cs|
  {
    Wilder(DxSeries(cs, period, i - period + 1), period, i - period)
  }

  /** In one transition at most one directional movement counts, and it fits inside the true range. */
  lemma MovesWithinRange(cs: seq<Candle>, k: nat)
    requires ValidCandles(cs) && k + 1 < |cs|
    ensures 0.0 <= PlusMoves(cs)[k] && 0.0 <= MinusMoves(cs)[k]
    ensures PlusMoves(cs)[k] + MinusMoves(cs)[k] <= TrueRanges(cs)[k]
    ensures PlusMoves(cs)[k] == 0.0 || MinusMoves(cs)[k] == 0.0
  {
    assert ValidCandle(cs[k]) && ValidCandle(cs[k + 1]);
  }

  /** Each smoothed directional sum lies between zero and the smoothed true range, and so does their total. */
  lemma DirectionalSumsBounded(cs: seq<Candle>, period: int, t: int)
    requires ValidCandles(cs) && 0 < period <= t + 1 < |cs|
    ensures 0.0 <= Smoothed(PlusMoves(cs), period, t) && 0.0 <= Smoothed(MinusMoves(cs), period, t)
    ensures Smoothed(PlusMoves(cs), period, t) + Smoothed(MinusMoves(cs), period, t)
            <= Smoothed(TrueRanges(cs), period, t)
  {
    forall k: nat | k <= t
      ensures 0.0 <= PlusMoves(cs)[k] && 0.0 <= MinusMoves(cs)[k]
              && PlusMoves(cs)[k] + MinusMoves(cs)[k] <= TrueRanges(cs)[k]
    {
      MovesWithinRange(cs, k);
    }
    SmoothedDominated(PlusMoves(cs), MinusMoves(cs), TrueRanges(cs), period, t);
  }

  lemma DirectionalIndexCancels(range: real, plus: real, minus: real)
    requires 0.0 <= plus && 0.0 <= minus && plus + minus <= range
    ensures DirectionalIndex(range, plus, minus)
         == if plus + minus == 0.0 then 0.0 else 100.0 * AbsReal(plus - minus) / (plus + minus)
    ensures 0.0 <= DirectionalIndex(range, plus, minus) <= 100.0
  {
    if range == 0.0 {
      assert plus == 0.0 && minus == 0.0;
    } else {
      var p, m, total := 100.0 * plus / range, 100.0 * minus / range, plus + minus;
      var unit := 100.0 / range;
      DivPositive(100.0, range);
      ProductOverRange(plus, range);
      ProductOverRange(minus, range);
      assert p == unit * plus && m == unit * minus;
      assert p + m == unit * total;
      if total == 0.0 {
        assert p + m == 0.0;
      } else {
        ProductPositive(unit, total);
        assert p - m == unit * (plus - minus);
        AbsScaled(unit, plus - minus);
        CommonFactor(unit, 100.0 * AbsReal(plus - minus), total, 100.0 * AbsReal(p - m), p + m);
        DivPositive(100.0 * AbsReal(plus - minus), total);
        DivLe(100.0 * AbsReal(plus - minus), 100.0 * total, total);
        DivOfMul(100.0, total);
      }
    }
  }

  lemma Regroup(unit: real, x: real, range: real, whole: real)
    requires unit * range == whole
    ensures unit * x * range == whole * x
  {
    assert unit * x * range == (unit * range) * x;
  }

  lemma ProductOverRange(x: real, range: real)
    requires range != 0.0
    ensures 100.0 * x / range == 100.0 / range * x
  {
    var unit := 100.0 / range;
    DivMul(100.0, range);
    Regroup(unit, x, range, 100.0);
    QuotientIs(100.0 * x, range, unit * x);
  }

  lemma AbsScaled(a: real, x: real)
    requires 0.0 <= a
    ensures AbsReal(a * x) == a * AbsReal(x)
  {
    if x < 0.0 {
      MulLe(x, 0.0, a);
      assert a * -x == -(a * x);
    } else {
      MulLe(0.0, x, a);
    }
  }

  /** DX does not depend on the true range at all, and every DX and ADX value is a percentage. */
  lemma DxCancelsRange(cs: seq<Candle>, period: int, t: int)
    requires ValidCandles(cs) && 0 < period <= t + 1 < |cs|
    ensures var plus, minus := Smoothed(PlusMoves(cs), period, t), Smoothed(MinusMoves(cs), period, t);
            Dx(cs, period, t) == if plus + minus == 0.0 then 0.0 else 100.0 * AbsReal(plus - minus) / (plus + minus)
    ensures 0.0 <= Dx(cs, period, t) <= 100.0
  {
    hide DirectionalIndex, Smoothed;
    DirectionalSumsBounded(cs, period, t);
    DirectionalIndexCancels(Smoothed(TrueRanges(cs), period, t), Smoothed(PlusMoves(cs), period, t),
                            Smoothed(MinusMoves(cs), period, t));
  }

  lemma AdxInRange(cs: seq<Candle>, period: int, i: int)
    requires ValidCandles(cs) && 0 < period && 2 * period - 1 <= i < |cs|
    ensures 0.0 <= Adx(cs, period, i) <= 100.0
  {
    hide Dx, Wilder;
    var dx := DxSeries(cs, period, i - period + 1);
    forall k | 0 <= k < |dx| ensures 0.0 <= dx[k] <= 100.0 { DxCancelsRange(cs, period, period - 1 + k); }
    assert dx[..i - period + 1] == dx;
    WilderWithin(dx, period, i - period, 0.0, 100.0);
  }

  /** ATR is never negative and is the smoothed true range of ADX divided by the period. */
  lemma AtrNonNegative(cs: seq<Candle>, period: int, i: int)
    requires 0 < period <= i < |cs|
    ensures 0.0 <= Atr(cs, period, i)
    ensures Smoothed(TrueRanges(cs), period, i - 1) == period as real * Atr(cs, period, i)
  {
    hide Wilder, Smoothed, TrueRange;
    var ranges := TrueRanges(cs);
    var hi := Upper(ranges[..i]);
    forall k: nat | k < i ensures 0.0 <= ranges[..i][k] <= hi { RangeNonNegative(cs, k); }
    WilderWithin(ranges, period, i - 1, 0.0, hi);
    SmoothedIsScaledWilder(ranges, period, i - 1);
  }

  lemma RangeNonNegative(cs: seq<Candle>, k: nat)
    requires k + 1 < |cs|
    ensures 0.0 <= TrueRange(cs[k + 1], cs[k].close)
  {}

  // ----- symmetry and causality -----

  function Mirrored(cs: seq<Candle>): seq<Candle> {
    seq(|cs|, i requires 0 <= i < |cs| => Candle(-cs[i].open, -cs[i].low, -cs[i].high, -cs[i].close))
  }

  lemma DirectionalIndexSwaps(range: real, plus: real, minus: real)
    ensures DirectionalIndex(range, plus, minus) == DirectionalIndex(range, minus, plus)
  {}

  /** Turning the chart upside down keeps every range, and with it ATR, DX and ADX. */
  lemma MirrorKeepsStrength(cs: seq<Candle>, period: int, i: int)
    requires 0 < period <= i < |cs|
    ensures Atr(Mirrored(cs), period, i) == Atr(cs, period, i)
    ensures Dx(Mirrored(cs), period, i - 1) == Dx(cs, period, i - 1)
    ensures 2 * period - 1 <= i ==> Adx(Mirrored(cs), period, i) == Adx(cs, period, i)
  {
    hide DirectionalIndex, Smoothed, Wilder;
    var m := Mirrored(cs);
    assert TrueRanges(m) == TrueRanges(cs);
    assert PlusMoves(m) == MinusMoves(cs);
    assert MinusMoves(m) == PlusMoves(cs);
    forall t | period <= t + 1 < |cs| ensures Dx(m, period, t) == Dx(cs, period, t) {
      DirectionalIndexSwaps(Smoothed(TrueRanges(cs), period, t), Smoothed(PlusMoves(cs), period, t),
                            Smoothed(MinusMoves(cs), period, t));
    }
    if 2 * period - 1 <= i {
      assert DxSeries(m, period, i - period + 1) == DxSeries(cs, period, i - period + 1);
    }
  }

  lemma SamePrefix(cs: seq<Candle>, other: seq<Candle>, i: nat)
    requires i < |cs| && i < |other| && cs[..i + 1] == other[..i + 1]
    ensures TrueRanges(cs)[..i] == TrueRanges(other)[..i]
    ensures PlusMoves(cs)[..i] == PlusMoves(other)[..i] && MinusMoves(cs)[..i] == MinusMoves(other)[..i]
  {
    forall k | 0 <= k <= i ensures cs[k] == other[k] {
      assert cs[..i + 1][k] == other[..i + 1][k];
    }
  }

  lemma DxCausal(cs: seq<Candle>, other: seq<Candle>, period: int, t: int)
    requires 0 < period <= t + 1 < |cs| && t + 1 < |other| && cs[..t + 2] == other[..t + 2]
    ensures Dx(cs, period, t) == Dx(other, period, t)
  {
    hide DirectionalIndex, Smoothed;
    SamePrefix(cs, other, t + 1);
    SmoothedCausal(TrueRanges(cs), TrueRanges(other), period, t);
    SmoothedCausal(PlusMoves(cs), PlusMoves(other), period, t);
    SmoothedCausal(MinusMoves(cs), MinusMoves(other), period, t);
  }

  /** No look-ahead in ATR and ADX. */
  lemma CandleIndicatorsCausal(cs: seq<Candle>, other: seq<Candle>, period: int, i: int)
    requires 0 < period <= i < |cs| && i < |other| && cs[..i + 1] == other[..i + 1]
    ensures Atr(cs, period, i) == Atr(other, period, i)
    ensures 2 * period - 1 <= i ==> Adx(cs, period, i) == Adx(other, period, i)
  {
    hide Dx, Wilder;
    SamePrefix(cs, other, i);
    WilderCausal(TrueRanges(cs), TrueRanges(other), period, i - 1);
    if 2 * period - 1 <= i {
      forall t | period - 1 <= t < i ensures Dx(cs, period, t) == Dx(other, period, t) {
        assert cs[..t + 2] == cs[..i + 1][..t + 2];
        assert other[..t + 2] == other[..i + 1][..t + 2];
        DxCausal(cs, other, period, t);
      }
      assert DxSeries(cs, period, i - period + 1) == DxSeries(other, period, i - period + 1);
    }
  }

  // ----- the loops -----

  /** A value at every index from `first` on, and none before. */
  function EmaAll(values: seq<real>, period: int): seq<Option<real>>
    requires 0 < period
  {
    seq(|values|, i requires 0 <= i < |values| => if period - 1 <= i then Some(Ema(values, period, i)) else None)
  }

  function RsiAll(values: seq<real>, period: int): seq<Option<real>>
    requires 0 < period
  {
    seq(|values|, i requires 0 <= i < |values| => if period <= i then Some(Rsi(values, period, i)) else None)
  }

  function AtrAll(cs: seq<Candle>, period: int): seq<Option<real>>
    requires 0 < period
  {
    seq(|cs|, i requires 0 <= i < |cs| => if period <= i then Some(Atr(cs, period, i)) else None)
  }

  function AdxAll(cs: seq<Candle>, period: int): seq<Option<real>>
    requires 0 < period
  {
    seq(|cs|, i requires 0 <= i < |cs| => if 2 * period - 1 <= i then Some(Adx(cs, period, i)) else None)
  }

  // ----- the series, told without the formulas they are computed by -----

  /** Seeded at `first` with the mean of the first values, then one new value against period - 1 times the average. */
  predicate Averages(out: seq<Option<real>>, xs: seq<real>, period: int, first: nat)
    requires 0 < period
  {
    forall i: nat :: i < |out| ==> AverageAt(out, xs, period, first, i)
  }

  predicate AverageAt(out: seq<Option<real>>, xs: seq<real>, period: int, first: nat, i: nat)
    requires 0 < period && i < |out|
  {
    var k := i - first + period - 1;
    if i < first then out[i].None?
    else
      && out[i].Some? && k < |xs|
      && if i == first then period as real * out[i].value == Sum(xs[..period])
         else out[i - 1].Some? && period as real * out[i].value == xs[k] + (period - 1) as real * out[i - 1].value
  }

  /** As `Averages`, but the new price counts twice against the same weight of the average. */
  predicate Follows(out: seq<Option<real>>, values: seq<real>, period: int)
    requires 0 < period
  {
    && |out| == |values|
    && (forall i :: 0 <= i < |out| ==> (out[i].Some? <==> period - 1 <= i))
    && (forall i :: period - 1 <= i < |out| ==>
          if i == period - 1 then period as real * out[i].value == Sum(values[..period])
          else (period + 1) as real * out[i].value == 2.0 * values[i] + (period - 1) as real * out[i - 1].value)
  }

  lemma EmaAllFollows(values: seq<real>, period: int)
    requires 0 < period
    ensures Follows(EmaAll(values, period), values, period)
  {
    hide Ema;
    forall i | period - 1 <= i < |values|
      ensures i == period - 1 ==> period as real * Ema(values, period, i) == Sum(values[..period])
      ensures period <= i ==>
                (period + 1) as real * Ema(values, period, i)
                == 2.0 * values[i] + (period - 1) as real * Ema(values, period, i - 1)
    {
      EmaRecurs(values, period, i);
    }
  }

  /** `rises` and `falls` are how far each value lies above and below the one before it. */
  predicate Changes(values: seq<real>, rises: seq<real>, falls: seq<real>) {
    && |rises| + 1 == |values| && |falls| + 1 == |values|
    && forall i :: 0 <= i < |rises| ==>
         && 0.0 <= rises[i] && 0.0 <= falls[i] && rises[i] - falls[i] == values[i + 1] - values[i]
         && (rises[i] == 0.0 || falls[i] == 0.0)
  }

  /** The share of the average rise in the average move, in percent; 50 when nothing moved. */
  predicate RiseShare(share: real, rise: real, fall: real) {
    if rise + fall == 0.0 then share == 50.0 else share * (rise + fall) == 100.0 * rise
  }

  lemma RsiOfIsShare(gain: real, loss: real)
    requires 0.0 <= gain && 0.0 <= loss
    ensures RiseShare(RsiOf(gain, loss), gain, loss)
  {
    if 0.0 < gain + loss {
      RsiOfShare(gain, loss);
      DivMul(100.0 * gain, gain + loss);
    }
  }

  /** The RSI is that share of Wilder's averages of the rises and the falls, from index `period` on. */
  ghost predicate RsiTold(out: seq<Option<real>>, values: seq<real>, period: int)
    requires 0 < period
  {
    |out| == |values| && (values != [] ==>
      exists rises, falls, ups, downs ::
        Changes(values, rises, falls) && SharesOf(out, rises, falls, ups, downs, period))
  }

  predicate SharesOf(out: seq<Option<real>>, rises: seq<real>, falls: seq<real>, ups: seq<Option<real>>,
                     downs: seq<Option<real>>, period: int)
    requires 0 < period
  {
    && |ups| == |downs| == |out|
    && Averages(ups, rises, period, period) && Averages(downs, falls, period, period)
    && forall i: nat :: i < |out| ==> ShareAt(out[i], ups[i], downs[i], period, i)
  }

  predicate ShareAt(share: Option<real>, up: Option<real>, down: Option<real>, period: int, i: nat) {
    if i < period then share.None?
    else share.Some? && up.Some? && down.Some? && RiseShare(share.value, up.value, down.value)
  }

  /** Wilder's averages of a series that starts one index late. */
  function WilderAll(xs: seq<real>, period: int): (out: seq<Option<real>>)
    requires 0 < period
    ensures |out| == |xs| + 1
  {
    seq(|xs| + 1, i requires 0 <= i < |xs| + 1 => if period <= i then Some(Wilder(xs, period, i - 1)) else None)
  }

  lemma WilderAllAverages(xs: seq<real>, period: int)
    requires 0 < period
    ensures Averages(WilderAll(xs, period), xs, period, period)
  {
    hide Wilder;
    var out := WilderAll(xs, period);
    forall i: nat | i < |out| ensures AverageAt(out, xs, period, period, i) {
      if period <= i { WilderRecurs(xs, period, i - 1); }
    }
  }

  lemma ChangesOf(values: seq<real>)
    requires values != []
    ensures Changes(values, Gains(values), Losses(values))
  {}

  lemma RsiAllTold(values: seq<real>, period: int)
    requires 0 < period
    ensures RsiTold(RsiAll(values, period), values, period)
  {
    if values != [] {
      ChangesOf(values);
      RsiAllShares(values, period);
      hide Changes, SharesOf, RsiAll, Gains, Losses;
    }
  }

  lemma RsiAllShares(values: seq<real>, period: int)
    requires 0 < period && values != []
    ensures var rises, falls := Gains(values), Losses(values);
            SharesOf(RsiAll(values, period), rises, falls, WilderAll(rises, period), WilderAll(falls, period), period)
  {
    var rises, falls := Gains(values), Losses(values);
    WilderAllAverages(rises, period);
    WilderAllAverages(falls, period);
    hide Averages, Wilder, RsiOf, RiseShare, Gain, Loss;
    var out, ups, downs := RsiAll(values, period), WilderAll(rises, period), WilderAll(falls, period);
    forall i: nat | i < |out| ensures ShareAt(out[i], ups[i], downs[i], period, i) {
      if period <= i {
        AveragesNonNegative(values, period, i);
        RsiOfIsShare(Wilder(rises, period, i - 1), Wilder(falls, period, i - 1));
      }
    }
  }

  /** The greatest distance a candle spans, itself or from the close before it. */
  predicate RangeTold(c: Candle, previousClose: real, range: real) {
    && c.high - c.low <= range && c.high - previousClose <= range && previousClose - c.high <= range
    && c.low - previousClose <= range && previousClose - c.low <= range
    && (range == c.high - c.low || range == c.high - previousClose || range == previousClose - c.high
        || range == c.low - previousClose || range == previousClose - c.low)
  }

  /** The larger of the two outward moves counts in its own direction; equal and inward moves count in neither. */
  predicate MovesTold(before: Candle, c: Candle, plus: real, minus: real) {
    var up, down := c.high - before.high, before.low - c.low;
    && plus == (if down < up && 0.0 < up then up else 0.0)
    && minus == (if up < down && 0.0 < down then down else 0.0)
  }

  lemma TransitionsTold(cs: seq<Candle>, k: nat)
    requires k + 1 < |cs|
    ensures |TrueRanges(cs)| == |PlusMoves(cs)| == |MinusMoves(cs)| == |cs| - 1
    ensures RangeTold(cs[k + 1], cs[k].close, TrueRanges(cs)[k])
    ensures MovesTold(cs[k], cs[k + 1], PlusMoves(cs)[k], MinusMoves(cs)[k])
  {}

  /** The ATR is Wilder's average of the true ranges, from index `period` on. */
  ghost predicate AtrTold(out: seq<Option<real>>, cs: seq<Candle>, period: int)
    requires 0 < period
  {
    |out| == |cs| && (cs != [] ==> exists ranges :: RangesOf(cs, ranges) && Averages(out, ranges, period, period))
  }

  predicate RangesOf(cs: seq<Candle>, ranges: seq<real>) {
    |ranges| + 1 == |cs| && forall k :: 0 <= k < |ranges| ==> RangeTold(cs[k + 1], cs[k].close, ranges[k])
  }

  lemma TrueRangesTold(cs: seq<Candle>)
    requires cs != []
    ensures RangesOf(cs, TrueRanges(cs))
  {
    forall k: nat | k < |cs| - 1 ensures RangeTold(cs[k + 1], cs[k].close, TrueRanges(cs)[k]) {
      TransitionsTold(cs, k);
    }
  }

  lemma AtrAllTold(cs: seq<Candle>, period: int)
    requires 0 < period
    ensures AtrTold(AtrAll(cs, period), cs, period)
  {
    if cs != [] {
      var ranges := TrueRanges(cs);
      WilderAllAverages(ranges, period);
      TrueRangesTold(cs);
      assert AtrAll(cs, period) == WilderAll(ranges, period);
      hide RangesOf, Averages, AtrAll, WilderAll;
    }
  }

  /** One sum per transition from the first `period` of them on; each step gives one part in `period` of it away. */
  predicate Smooths(sums: seq<real>, xs: seq<real>, period: int)
    requires 0 < period
  {
    |sums| + period == |xs| + 1 && forall j: nat :: j < |sums| ==> SumAt(sums, xs, period, j)
  }

  predicate SumAt(sums: seq<real>, xs: seq<real>, period: int, j: nat)
    requires 0 < period && j < |sums| && |sums| + period == |xs| + 1
  {
    if j == 0 then sums[j] == Sum(xs[..period])
    else period as real * (sums[j] - xs[period - 1 + j]) == (period - 1) as real * sums[j - 1]
  }

  /** How far the two directions lie apart, as a percentage of both together. */
  predicate DxTold(range: real, plus: real, minus: real, dx: real) {
    if range == 0.0 || plus + minus == 0.0 then dx == 0.0
    else dx * (plus + minus) == 100.0 * AbsReal(plus - minus)
  }

  lemma UnitCancels(unit: real, plus: real, minus: real, dx: real)
    requires 0.0 < unit && dx * (unit * plus + unit * minus) == 100.0 * AbsReal(unit * plus - unit * minus)
    ensures dx * (plus + minus) == 100.0 * AbsReal(plus - minus)
  {
    AbsScaled(unit, plus - minus);
    CancelFactor(unit, dx, plus + minus, AbsReal(plus - minus));
  }

  lemma CancelFactor(unit: real, dx: real, total: real, apart: real)
    requires 0.0 < unit && dx * (unit * total) == 100.0 * (unit * apart)
    ensures dx * total == 100.0 * apart
  {
    assert dx * (unit * total) == dx * total * unit && 100.0 * (unit * apart) == 100.0 * apart * unit;
    DivOfMul(dx * total, unit);
    DivOfMul(100.0 * apart, unit);
  }

  lemma DirectionalIndexTold(range: real, plus: real, minus: real)
    requires 0.0 <= range
    ensures DxTold(range, plus, minus, DirectionalIndex(range, plus, minus))
  {
    if range != 0.0 {
      var unit := 100.0 / range;
      DivPositive(100.0, range);
      ProductOverRange(plus, range);
      ProductOverRange(minus, range);
      var p, m := 100.0 * plus / range, 100.0 * minus / range;
      assert p == unit * plus && m == unit * minus && p + m == unit * (plus + minus);
      if plus + minus == 0.0 {
        assert p + m == 0.0;
      } else {
        if 0.0 < plus + minus { ProductPositive(unit, plus + minus); } else { ProductPositive(unit, -(plus + minus)); }
        var dx := 100.0 * AbsReal(p - m) / (p + m);
        DivMul(100.0 * AbsReal(p - m), p + m);
        UnitCancels(unit, plus, minus, dx);
      }
    }
  }

  /** The ADX is Wilder's average of the directional indices, the first of which needs `period` transitions. */
  ghost predicate AdxTold(out: seq<Option<real>>, cs: seq<Candle>, period: int)
    requires 0 < period
  {
    && |out| == |cs| && (forall i :: 0 <= i < |out| ==> (out[i].Some? <==> 2 * period - 1 <= i))
    && (period < |cs| ==>
          exists ranges, plus: seq<real>, minus: seq<real>, range: seq<real>, up: seq<real>, down: seq<real>,
                 dxs: seq<real> ::
            && Transitions(cs, ranges, plus, minus)
            && IndicesOf(dxs, ranges, plus, minus, range, up, down, period)
            && Averages(out, dxs, period, 2 * period - 1))
  }

  predicate IndicesOf(dxs: seq<real>, ranges: seq<real>, plus: seq<real>, minus: seq<real>, range: seq<real>,
                      up: seq<real>, down: seq<real>, period: int)
    requires 0 < period
  {
    && Smooths(range, ranges, period) && Smooths(up, plus, period) && Smooths(down, minus, period)
    && |dxs| == |range| == |up| == |down|
    && forall j :: 0 <= j < |dxs| ==> DxTold(range[j], up[j], down[j], dxs[j])
  }

  predicate Transitions(cs: seq<Candle>, ranges: seq<real>, plus: seq<real>, minus: seq<real>) {
    && |ranges| + 1 == |plus| + 1 == |minus| + 1 == |cs|
    && forall k :: 0 <= k < |ranges| ==>
         RangeTold(cs[k + 1], cs[k].close, ranges[k]) && MovesTold(cs[k], cs[k + 1], plus[k], minus[k])
  }

  function SmoothedAll(xs: seq<real>, period: int): (sums: seq<real>)
    requires 0 < period <= |xs|
  {
    seq(|xs| + 1 - period, j requires 0 <= j < |xs| + 1 - period => Smoothed(xs, period, period - 1 + j))
  }

  lemma SmoothedAllSmooths(xs: seq<real>, period: int)
    requires 0 < period <= |xs|
    ensures Smooths(SmoothedAll(xs, period), xs, period)
  {
    hide Smoothed;
    var sums := SmoothedAll(xs, period);
    forall j: nat | j < |sums| ensures SumAt(sums, xs, period, j) { SmoothedRecurs(xs, period, period - 1 + j); }
  }

  lemma AdxAllAverages(cs: seq<Candle>, period: int)
    requires 0 < period < |cs|
    ensures Averages(AdxAll(cs, period), DxSeries(cs, period, |cs| - period), period, 2 * period - 1)
  {
    hide Adx, Dx;
    var out, dxs, first: nat := AdxAll(cs, period), DxSeries(cs, period, |cs| - period), 2 * period - 1;
    forall i: nat | i < |out| ensures AverageAt(out, dxs, period, first, i) {
      if i == first {
        AdxSeed(cs, period);
        assert dxs[..period] == DxSeries(cs, period, period);
        DivMul(Sum(dxs[..period]), period as real);
      } else if 2 * period <= i {
        AdxNext(cs, period, i);
        WilderStepMultiplied(Adx(cs, period, i - 1), Dx(cs, period, i - 1), period as real);
      }
    }
  }

  lemma AllTransitions(cs: seq<Candle>)
    requires cs != []
    ensures Transitions(cs, TrueRanges(cs), PlusMoves(cs), MinusMoves(cs))
  {
    forall k: nat | k + 1 < |cs|
      ensures RangeTold(cs[k + 1], cs[k].close, TrueRanges(cs)[k])
      ensures MovesTold(cs[k], cs[k + 1], PlusMoves(cs)[k], MinusMoves(cs)[k])
    {
      TransitionsTold(cs, k);
    }
    hide RangeTold, MovesTold, TrueRange, UpMove, DownMove;
  }

  lemma DxToldAt(cs: seq<Candle>, period: int, t: int)
    requires 0 < period <= t + 1 < |cs|
    ensures DxTold(Smoothed(TrueRanges(cs), period, t), Smoothed(PlusMoves(cs), period, t),
                   Smoothed(MinusMoves(cs), period, t), Dx(cs, period, t))
  {
    hide Smoothed, DxTold, DirectionalIndex, TrueRange, UpMove, DownMove;
    AtrNonNegative(cs, period, t + 1);
    DirectionalIndexTold(Smoothed(TrueRanges(cs), period, t), Smoothed(PlusMoves(cs), period, t),
                         Smoothed(MinusMoves(cs), period, t));
  }

  lemma DxSeriesIndices(cs: seq<Candle>, period: int)
    requires 0 < period < |cs|
    ensures var ranges, plus, minus := TrueRanges(cs), PlusMoves(cs), MinusMoves(cs);
            IndicesOf(DxSeries(cs, period, |cs| - period), ranges, plus, minus, SmoothedAll(ranges, period),
                      SmoothedAll(plus, period), SmoothedAll(minus, period), period)
  {
    hide TrueRange, UpMove, DownMove;
    var ranges, plus, minus := TrueRanges(cs), PlusMoves(cs), MinusMoves(cs);
    SmoothedAllSmooths(ranges, period);
    SmoothedAllSmooths(plus, period);
    SmoothedAllSmooths(minus, period);
    hide Smooths, Smoothed, DxTold, Dx, TrueRanges, PlusMoves, MinusMoves;
    assert |ranges| + 1 == |plus| + 1 == |minus| + 1 == |cs| by { TransitionCount(cs); }
    var range, up, down := SmoothedAll(ranges, period), SmoothedAll(plus, period), SmoothedAll(minus, period);
    var dxs := DxSeries(cs, period, |cs| - period);
    forall j | 0 <= j < |dxs| ensures DxTold(range[j], up[j], down[j], dxs[j]) {
      DxToldAt(cs, period, period - 1 + j);
    }
  }

  lemma TransitionCount(cs: seq<Candle>)
    requires cs != []
    ensures |TrueRanges(cs)| == |PlusMoves(cs)| == |MinusMoves(cs)| == |cs| - 1
  {}

  lemma AdxAllTold(cs: seq<Candle>, period: int)
    requires 0 < period
    ensures AdxTold(AdxAll(cs, period), cs, period)
  {
    if period < |cs| {
      AllTransitions(cs);
      DxSeriesIndices(cs, period);
      AdxAllAverages(cs, period);
      TransitionCount(cs);
      hide Transitions, IndicesOf, Averages, Adx, DxSeries, SmoothedAll, TrueRanges, PlusMoves, MinusMoves;
    }
  }

  /** The first n entries are final, the others still empty. */
  predicate Filled(out: seq<Option<real>>, want: seq<Option<real>>, n: int) {
    && |out| == |want| && 0 <= n <= |want|
    && (forall i :: 0 <= i < n ==> out[i] == want[i])
    && (forall i :: n <= i < |want| ==> out[i].None?)
  }

  lemma FilledEmpty(want: seq<Option<real>>, n: int)
    requires 0 <= n <= |want| && forall i :: 0 <= i < n ==> want[i].None?
    ensures Filled(seq(|want|, _ => None), want, n)
  {}

  lemma FilledNext(out: seq<Option<real>>, want: seq<Option<real>>, n: int, x: Option<real>)
    requires Filled(out, want, n) && n < |want| && want[n] == x
    ensures Filled(out[n := x], want, n + 1)
  {}

  lemma FilledAll(out: seq<Option<real>>, want: seq<Option<real>>)
    requires Filled(out, want, |want|)
    ensures out == want
  {}

  method SumFirst(xs: seq<real>, n: nat) returns (total: real)
    requires n <= |xs|
    ensures total == Sum(xs[..n])
  {
    total := 0.0;
    for i := 0 to n
      invariant total == Sum(xs[..i])
    {
      SumOneMore(xs, i);
      total := total + xs[i];
    }
  }

  method EmaSeries(values: seq<real>, period: int) returns (result: Indicator)
    ensures result == if period <= 0 then PeriodNotPositive else Series(EmaAll(values, period))
    ensures 0 < period ==> result.Series? && Follows(result.values, values, period)
  {
    hide Ema, Mix, Sum, Filled, Follows;
    if period <= 0 {
      return PeriodNotPositive;
    }
    EmaAllFollows(values, period);
    ghost var want := EmaAll(values, period);
    var out: seq<Option<real>> := seq(|values|, _ => None);
    FilledEmpty(want, if |values| < period then |values| else period - 1);
    if |values| < period {
      FilledAll(out, want);
      return Series(out);
    }
    var alpha := Alpha(period);
    var total := SumFirst(values, period);
    var current := total / period as real;
    EmaSeed(values, period);
    FilledNext(out, want, period - 1, Some(current));
    FilledSize(out, want, period - 1);
    out := out[period - 1 := Some(current)];
    for index := period to |values|
      invariant current == Ema(values, period, index - 1)
      invariant Filled(out, want, index)
    {
      EmaStep(values, period, index);
      current := Mix(alpha, values[index], current);
      FilledNext(out, want, index, Some(current));
      FilledSize(out, want, index);
      out := out[index := Some(current)];
    }
    FilledAll(out, want);
    result := Series(out);
  }

  lemma FilledSize(out: seq<Option<real>>, want: seq<Option<real>>, n: int)
    requires Filled(out, want, n)
    ensures |out| == |want|
  {}

  lemma EmaSeed(values: seq<real>, period: int)
    requires 0 < period <= |values|
    ensures Ema(values, period, period - 1) == Sum(values[..period]) / period as real
  {}

  lemma EmaStep(values: seq<real>, period: int, i: int)
    requires 0 < period <= i < |values|
    ensures Ema(values, period, i) == Mix(Alpha(period), values[i], Ema(values, period, i - 1))
  {}

  lemma WilderSeed(xs: seq<real>, period: int)
    requires 0 < period <= |xs|
    ensures Wilder(xs, period, period - 1) == Sum(xs[..period]) / period as real
  {}

  lemma WilderNext(xs: seq<real>, period: int, i: int)
    requires 0 < period <= i < |xs|
    ensures Wilder(xs, period, i) == WilderStep(Wilder(xs, period, i - 1), xs[i], period as real)
  {}

  lemma RsiAt(values: seq<real>, period: int, i: int)
    requires 0 < period <= i < |values|
    ensures 0.0 <= Wilder(Gains(values), period, i - 1) && 0.0 <= Wilder(Losses(values), period, i - 1)
    ensures RsiAll(values, period)[i]
         == Some(RsiOf(Wilder(Gains(values), period, i - 1), Wilder(Losses(values), period, i - 1)))
  {
    AveragesNonNegative(values, period, i);
  }

  method RsiSeries(values: seq<real>, period: int) returns (result: Indicator)
    ensures result == if period <= 0 then PeriodNotPositive else Series(RsiAll(values, period))
    ensures 0 < period ==> result.Series? && RsiTold(result.values, values, period)
  {
    hide Wilder, WilderStep, Sum, RsiOf, Gain, Loss, Filled, RsiTold;
    if period <= 0 {
      return PeriodNotPositive;
    }
    RsiAllTold(values, period);
    ghost var want := RsiAll(values, period);
    var out: seq<Option<real>> := seq(|values|, _ => None);
    FilledEmpty(want, if |values| <= period then |values| else period);
    if |values| <= period {
      FilledAll(out, want);
      return Series(out);
    }
    var gains, losses := Gains(values), Losses(values);
    var n := period as real;
    var gainTotal := SumFirst(gains, period);
    var lossTotal := SumFirst(losses, period);
    var averageGain, averageLoss := gainTotal / n, lossTotal / n;
    WilderSeed(gains, period);
    WilderSeed(losses, period);
    RsiAt(values, period, period);
    var first := RsiOf(averageGain, averageLoss);
    FilledNext(out, want, period, Some(first));
    FilledSize(out, want, period);
    out := out[period := Some(first)];
    for change := period to |gains|
      invariant averageGain == Wilder(gains, period, change - 1) && averageLoss == Wilder(losses, period, change - 1)
      invariant Filled(out, want, change + 1)
    {
      WilderNext(gains, period, change);
      WilderNext(losses, period, change);
      RsiAt(values, period, change + 1);
      averageGain := WilderStep(averageGain, gains[change], n);
      averageLoss := WilderStep(averageLoss, losses[change], n);
      var next := RsiOf(averageGain, averageLoss);
      FilledNext(out, want, change + 1, Some(next));
      FilledSize(out, want, change + 1);
      out := out[change + 1 := Some(next)];
    }
    FilledAll(out, want);
    result := Series(out);
  }

  method AtrSeries(cs: seq<Candle>, period: int) returns (result: Indicator)
    ensures result == if period <= 0 then PeriodNotPositive else Series(AtrAll(cs, period))
    ensures 0 < period ==> result.Series? && AtrTold(result.values, cs, period)
  {
    hide Wilder, WilderStep, Sum, TrueRange, Filled, AtrTold;
    if period <= 0 {
      return PeriodNotPositive;
    }
    AtrAllTold(cs, period);
    ghost var want := AtrAll(cs, period);
    var out: seq<Option<real>> := seq(|cs|, _ => None);
    FilledEmpty(want, if |cs| <= period then |cs| else period);
    if |cs| <= period {
      FilledAll(out, want);
      return Series(out);
    }
    var ranges := TrueRanges(cs);
    var n := period as real;
    var total := SumFirst(ranges, period);
    var current := total / n;
    WilderSeed(ranges, period);
    FilledNext(out, want, period, Some(current));
    FilledSize(out, want, period);
    out := out[period := Some(current)];
    for index := period to |ranges|
      invariant current == Wilder(ranges, period, index - 1)
      invariant Filled(out, want, index + 1)
    {
      WilderNext(ranges, period, index);
      current := WilderStep(current, ranges[index], n);
      FilledNext(out, want, index + 1, Some(current));
      FilledSize(out, want, index + 1);
      out := out[index + 1 := Some(current)];
    }
    FilledAll(out, want);
    result := Series(out);
  }

  lemma SmoothedSeed(xs: seq<real>, period: int)
    requires 0 < period <= |xs|
    ensures Smoothed(xs, period, period - 1) == Sum(xs[..period])
  {}

  lemma SmoothedNext(xs: seq<real>, period: int, i: int)
    requires 0 < period <= i < |xs|
    ensures Smoothed(xs, period, i) == Decay(Smoothed(xs, period, i - 1), period as real) + xs[i]
  {}

  /** The directional indices seen so far extend to the next one. */
  lemma DxSeriesGrows(cs: seq<Candle>, period: int, n: nat)
    requires 0 < period && period + n < |cs|
    ensures DxSeries(cs, period, n + 1) == DxSeries(cs, period, n) + [Dx(cs, period, period - 1 + n)]
  {
    hide Dx;
  }

  lemma AdxSeed(cs: seq<Candle>, period: int)
    requires 0 < period && 2 * period - 1 < |cs|
    ensures Adx(cs, period, 2 * period - 1) == Sum(DxSeries(cs, period, period)) / period as real
  {
    hide Dx;
    assert DxSeries(cs, period, period)[..period] == DxSeries(cs, period, period);
  }

  /** Earlier directional indices do not change when one more arrives, so ADX follows Wilder's recurrence. */
  lemma AdxNext(cs: seq<Candle>, period: int, i: int)
    requires 0 < period && 2 * period <= i < |cs|
    ensures Adx(cs, period, i) == WilderStep(Adx(cs, period, i - 1), Dx(cs, period, i - 1), period as real)
  {
    hide Dx, Wilder, WilderStep, DxSeries;
    var n := i - period;
    var before, all := DxSeries(cs, period, n), DxSeries(cs, period, n + 1);
    DxSeriesGrows(cs, period, n);
    DxSeriesLength(cs, period, n);
    assert all[..n] == before && before[..n] == before;
    WilderCausal(all, before, period, n - 1);
    WilderNext(all, period, n);
  }

  lemma DxSeriesLength(cs: seq<Candle>, period: int, n: nat)
    requires 0 < period && (n == 0 || period + n <= |cs|)
    ensures |DxSeries(cs, period, n)| == n
  {}

  /** The smoothed sums and directional indices after transition t. */
  ghost predicate Tracked(cs: seq<Candle>, period: int, t: int, range: real, plus: real, minus: real, dxs: seq<real>)
    requires 0 < period <= t + 1 < |cs|
  {
    && range == Smoothed(TrueRanges(cs), period, t)
    && plus == Smoothed(PlusMoves(cs), period, t)
    && minus == Smoothed(MinusMoves(cs), period, t)
    && dxs == DxSeries(cs, period, t - period + 2)
  }

  lemma TrackedFirst(cs: seq<Candle>, period: int, range: real, plus: real, minus: real)
    requires 0 < period < |cs|
    requires range == Sum(TrueRanges(cs)[..period]) && plus == Sum(PlusMoves(cs)[..period])
             && minus == Sum(MinusMoves(cs)[..period])
    ensures Tracked(cs, period, period - 1, range, plus, minus, [DirectionalIndex(range, plus, minus)])
  {
    hide Sum, TrueRange, DirectionalIndex;
    SmoothedSeed(TrueRanges(cs), period);
    SmoothedSeed(PlusMoves(cs), period);
    SmoothedSeed(MinusMoves(cs), period);
    assert DxSeries(cs, period, 1) == [Dx(cs, period, period - 1)];
  }

  lemma TrackedNext(cs: seq<Candle>, period: int, t: int, range: real, plus: real, minus: real, dxs: seq<real>)
    requires 0 < period <= t && t + 1 < |cs| && Tracked(cs, period, t - 1, range, plus, minus, dxs)
    ensures var n := period as real;
            var r, p, m := Decay(range, n) + TrueRanges(cs)[t], Decay(plus, n) + PlusMoves(cs)[t],
              Decay(minus, n) + MinusMoves(cs)[t];
            var dx := DirectionalIndex(r, p, m);
            && dx == Dx(cs, period, t) && |dxs| == t - period + 1
            && Tracked(cs, period, t, r, p, m, dxs + [dx])
  {
    hide Smoothed, Decay, TrueRange, DirectionalIndex;
    SmoothedNext(TrueRanges(cs), period, t);
    SmoothedNext(PlusMoves(cs), period, t);
    SmoothedNext(MinusMoves(cs), period, t);
    DxSeriesGrows(cs, period, t - period + 1);
  }

  lemma TrackedDxs(cs: seq<Candle>, period: int, t: int, range: real, plus: real, minus: real, dxs: seq<real>)
    requires 0 < period <= t + 1 < |cs| && Tracked(cs, period, t, range, plus, minus, dxs)
    ensures dxs == DxSeries(cs, period, t - period + 2) && |dxs| == t - period + 2
  {}

  /**
   * ADX. A period of one leaves no room for the averaging seed: from three candles on the state it expects is
   * missing and it raises. For every longer period values are defined exactly from index 2 * period - 1.
   */
  method AdxSeries(cs: seq<Candle>, period: int) returns (result: Indicator)
    ensures result.PeriodNotPositive? <==> period <= 0
    ensures result.SmoothingUnavailable? <==> period == 1 && 3 <= |cs|
    ensures 2 <= period ==> result == Series(AdxAll(cs, period)) && AdxTold(result.values, cs, period)
    ensures period == 1 && |cs| <= 2 ==> result == Series(seq(|cs|, _ => None))
  {
    hide Wilder, WilderStep, Decay, Sum, Smoothed, TrueRange, DirectionalIndex, Adx, DxSeries, Filled, Tracked,
      AdxTold;
    if period <= 0 {
      return PeriodNotPositive;
    }
    AdxAllTold(cs, period);
    ghost var want := AdxAll(cs, period);
    var out: seq<Option<real>> := seq(|cs|, _ => None);
    FilledEmpty(want, if |cs| < period * 2 then |cs| else period + 1 - (if period == 1 then 1 else 0));
    if |cs| < period * 2 {
      FilledAll(out, want);
      return Series(out);
    }
    var ranges, plus, minus := TrueRanges(cs), PlusMoves(cs), MinusMoves(cs);
    var n := period as real;
    var smoothedRange := SumFirst(ranges, period);
    var smoothedPlus := SumFirst(plus, period);
    var smoothedMinus := SumFirst(minus, period);
    var dxs := [DirectionalIndex(smoothedRange, smoothedPlus, smoothedMinus)];
    TrackedFirst(cs, period, smoothedRange, smoothedPlus, smoothedMinus);
    var current: Option<real> := None;
    for t := period to |ranges|
      invariant Tracked(cs, period, t - 1, smoothedRange, smoothedPlus, smoothedMinus, dxs)
      invariant period == 1 ==> t == 1 && current.None? && out == seq(|cs|, _ => None)
      invariant 2 <= period ==> current == if 2 * period - 1 <= t then Some(Adx(cs, period, t)) else None
      invariant 2 <= period ==> Filled(out, want, t + 1)
    {
      TrackedNext(cs, period, t, smoothedRange, smoothedPlus, smoothedMinus, dxs);
      smoothedRange := Decay(smoothedRange, n) + ranges[t];
      smoothedPlus := Decay(smoothedPlus, n) + plus[t];
      smoothedMinus := Decay(smoothedMinus, n) + minus[t];
      var dx := DirectionalIndex(smoothedRange, smoothedPlus, smoothedMinus);
      dxs := dxs + [dx];
      TrackedDxs(cs, period, t, smoothedRange, smoothedPlus, smoothedMinus, dxs);
      if |dxs| == period {
        AdxSeed(cs, period);
        var total := SumFirst(dxs, |dxs|);
        assert dxs[..|dxs|] == dxs;
        current := Some(total / n);
        FilledNext(out, want, t + 1, current);
        FilledSize(out, want, t + 1);
        out := out[t + 1 := current];
      } else if |dxs| > period {
        if current.None? {
          return SmoothingUnavailable;
        }
        AdxNext(cs, period, t + 1);
        current := Some(WilderStep(current.value, dx, n));
        FilledNext(out, want, t + 1, current);
        FilledSize(out, want, t + 1);
        out := out[t + 1 := current];
      } else {
        FilledMore(out, want, t + 1);
      }
    }
    if period != 1 {
      FilledAll(out, want);
    }
    result := Series(out);
  }

  lemma FilledMore(out: seq<Option<real>>, want: seq<Option<real>>, n: int)
    requires Filled(out, want, n) && n < |want| && want[n].None?
    ensures Filled(out, want, n + 1)
  {}
}
