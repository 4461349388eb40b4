/** Moving averages over a price series, in exact arithmetic: the recurrences, and what they mean. */
module Smoothing {
  import opened Prelude

  function Sum(xs: seq<real>): real {
    if xs == [] then 0.0 else Sum(xs[..|xs| - 1]) + xs[|xs| - 1]
  }

  lemma SumOneMore(xs: seq<real>, n: nat)
    requires n < |xs|
    ensures Sum(xs[..n + 1]) == Sum(xs[..n]) + xs[n]
  {
    assert xs[..n + 1][..n] == xs[..n];
  }

  function Mean(xs: seq<real>): real
    requires xs != []
  {
    Sum(xs) / |xs| as real
  }

  predicate Within(xs: seq<real>, lo: real, hi: real) { forall k :: 0 <= k < |xs| ==> lo <= xs[k] <= hi }

  lemma {:induction false} SumWithin(xs: seq<real>, lo: real, hi: real)
    requires Within(xs, lo, hi)
    ensures |xs| as real * lo <= Sum(xs) <= |xs| as real * hi
  {
    if xs != [] {
      var n := |xs| - 1;
      SumWithin(xs[..n], lo, hi);
      assert |xs| as real == n as real + 1.0;
      StepWithin(n as real, Sum(xs[..n]), xs[n], lo, hi);
    }
  }

  lemma StepWithin(n: real, total: real, x: real, lo: real, hi: real)
    requires n * lo <= total <= n * hi && lo <= x <= hi
    ensures (n + 1.0) * lo <= total + x <= (n + 1.0) * hi
  {}

  lemma QuotientWithin(total: real, n: real, lo: real, hi: real)
    requires 0.0 < n && n * lo <= total <= n * hi
    ensures lo <= total / n <= hi
  {
    DivLe(lo * n, total, n);
    DivLe(total, hi * n, n);
    DivOfMul(lo, n);
    DivOfMul(hi, n);
  }

  lemma MeanWithin(xs: seq<real>, lo: real, hi: real)
    requires xs != [] && Within(xs, lo, hi)
    ensures lo <= Mean(xs) <= hi
  {
    SumWithin(xs, lo, hi);
    QuotientWithin(Sum(xs), |xs| as real, lo, hi);
  }

  /** Pointwise a * x + b. */
  function Affine(xs: seq<real>, a: real, b: real): seq<real> { seq(|xs|, i requires 0 <= i < |xs| => a * xs[i] + b) }

  lemma AffinePrefix(xs: seq<real>, a: real, b: real, n: nat)
    requires n <= |xs|
    ensures Affine(xs, a, b)[..n] == Affine(xs[..n], a, b)
  {
    forall k | 0 <= k < n ensures Affine(xs, a, b)[..n][k] == Affine(xs[..n], a, b)[k] {
      assert xs[..n][k] == xs[k];
    }
  }

  lemma {:induction false} SumAffine(xs: seq<real>, a: real, b: real)
    ensures Sum(Affine(xs, a, b)) == a * Sum(xs) + b * |xs| as real
  {
    if xs != [] {
      var n := |xs| - 1;
      AffinePrefix(xs, a, b, n);
      SumAffine(xs[..n], a, b);
      Distribute(a, Sum(xs[..n]), xs[n], b, n as real);
    } else {
      assert Affine(xs, a, b) == [];
    }
  }

  lemma Distribute(a: real, s: real, x: real, b: real, n: real)
    ensures a * s + b * n + (a * x + b) == a * (s + x) + b * (n + 1.0)
  {}

  lemma QuotientAffine(a: real, s: real, b: real, n: real)
    requires n != 0.0
    ensures (a * s + b * n) / n == a * (s / n) + b
  {
    var q := s / n;
    DivMul(s, n);
    assert a * q * n == a * (q * n);
    DivOfMulSum(a * q, b, n);
  }

  lemma DivOfMulSum(x: real, b: real, n: real)
    requires n != 0.0
    ensures (x * n + b * n) / n == x + b
  {
    assert x * n + b * n == (x + b) * n;
    DivOfMul(x + b, n);
  }

  lemma MeanAffine(xs: seq<real>, a: real, b: real)
    requires xs != []
    ensures Affine(xs, a, b) != [] && Mean(Affine(xs, a, b)) == a * Mean(xs) + b
  {
    SumAffine(xs, a, b);
    QuotientAffine(a, Sum(xs), b, |xs| as real);
  }

  // ----- exponential moving average -----

  function Alpha(period: int): real
    requires 0 < period
  {
    2.0 / (period + 1) as real
  }

  lemma AlphaRange(period: int)
    requires 0 < period
    ensures 0.0 < Alpha(period) <= 1.0
  {
    var n := (period + 1) as real;
    DivPositive(2.0, n);
    DivLe(2.0, 1.0 * n, n);
    DivOfMul(1.0, n);
  }

  function Mix(alpha: real, x: real, y: real): real { alpha * x + (1.0 - alpha) * y }

  function Ema(values: seq<real>, period: int, i: int): real
    requires 0 < period <= i + 1 <= |values|
    decreases i
  {
    if i == period - 1 then Mean(values[..period])
    else Mix(Alpha(period), values[i], Ema(values, period, i - 1))
  }

  /** Seeded by the plain mean, the average then counts the new price twice and the last average period - 1 times. */
  lemma EmaRecurs(values: seq<real>, period: int, i: int)
    requires 0 < period <= i + 1 <= |values|
    ensures i == period - 1 ==> period as real * Ema(values, period, i) == Sum(values[..period])
    ensures period <= i ==>
              (period + 1) as real * Ema(values, period, i)
              == 2.0 * values[i] + (period - 1) as real * Ema(values, period, i - 1)
  {
    if i == period - 1 {
      DivMul(Sum(values[..period]), period as real);
    } else {
      DivMul(2.0, (period + 1) as real);
      MixMultiplied(Alpha(period), values[i], Ema(values, period, i - 1), (period + 1) as real);
    }
  }

  lemma MixMultiplied(alpha: real, x: real, y: real, n: real)
    requires alpha * n == 2.0
    ensures n * Mix(alpha, x, y) == 2.0 * x + (n - 2.0) * y
  {
    var m := 1.0 - alpha;
    assert m * n == n - 2.0;
    assert n * (alpha * x) == alpha * n * x && n * (m * y) == m * n * y;
  }

  lemma Whole(alpha: real, x: real)
    ensures x * alpha + x * (1.0 - alpha) == x
  {}

  lemma MixConstant(alpha: real, x: real)
    ensures Mix(alpha, x, x) == x
  {}

  lemma ProductNonNegative(a: real, b: real)
    requires 0.0 <= a && 0.0 <= b
    ensures 0.0 <= a * b
  {}

  lemma MixDifference(alpha: real, x: real, y: real, x': real, y': real)
    ensures Mix(alpha, x', y') - Mix(alpha, x, y) == alpha * (x' - x) + (1.0 - alpha) * (y' - y)
  {}

  lemma MixMonotone(alpha: real, x: real, y: real, x': real, y': real)
    requires 0.0 <= alpha <= 1.0 && x <= x' && y <= y'
    ensures Mix(alpha, x, y) <= Mix(alpha, x', y')
  {
    hide Mix;
    ProductNonNegative(alpha, x' - x);
    ProductNonNegative(1.0 - alpha, y' - y);
    MixDifference(alpha, x, y, x', y');
  }

  lemma MixWithin(alpha: real, x: real, y: real, lo: real, hi: real)
    requires 0.0 <= alpha <= 1.0 && lo <= x <= hi && lo <= y <= hi
    ensures lo <= Mix(alpha, x, y) <= hi
  {
    hide Mix;
    MixConstant(alpha, lo);
    MixConstant(alpha, hi);
    MixMonotone(alpha, lo, lo, x, y);
    MixMonotone(alpha, x, y, hi, hi);
  }

  /** An EMA never leaves the range of the prices seen so far. */
  lemma {:induction false} EmaWithinPrefix(values: seq<real>, period: int, i: int, lo: real, hi: real)
    requires 0 < period <= i + 1 <= |values| && Within(values[..i + 1], lo, hi)
    ensures lo <= Ema(values, period, i) <= hi
    decreases i
  {
    hide Mix, Alpha;
    assert values[..i + 1][i] == values[i];
    if i == period - 1 {
      MeanWithin(values[..period], lo, hi);
    } else {
      assert Within(values[..i], lo, hi) by {
        forall k | 0 <= k < i ensures lo <= values[..i][k] <= hi { assert values[..i + 1][k] == values[..i][k]; }
      }
      EmaWithinPrefix(values, period, i - 1, lo, hi);
      AlphaRange(period);
      MixWithin(Alpha(period), values[i], Ema(values, period, i - 1), lo, hi);
    }
  }

  lemma ScalePart(c: real, x: real, a: real, b: real)
    ensures c * (a * x + b) == a * (c * x) + b * c
  {}

  lemma MixAffine(alpha: real, x: real, y: real, a: real, b: real, x': real, y': real)
    requires x' == a * x + b && y' == a * y + b
    ensures Mix(alpha, x', y') == a * Mix(alpha, x, y) + b
  {
    ScalePart(alpha, x, a, b);
    ScalePart(1.0 - alpha, y, a, b);
    Whole(alpha, b);
    assert a * (alpha * x) + a * ((1.0 - alpha) * y) == a * (alpha * x + (1.0 - alpha) * y);
  }

  /** Rescaling and shifting every price rescales and shifts the EMA. */
  lemma {:induction false} EmaAffine(values: seq<real>, period: int, i: int, a: real, b: real)
    requires 0 < period <= i + 1 <= |values|
    ensures Ema(Affine(values, a, b), period, i) == a * Ema(values, period, i) + b
    decreases i
  {
    hide Mix, Alpha;
    var moved := Affine(values, a, b);
    if i == period - 1 {
      AffinePrefix(values, a, b, period);
      MeanAffine(values[..period], a, b);
    } else {
      EmaAffine(values, period, i - 1, a, b);
      MixAffine(Alpha(period), values[i], Ema(values, period, i - 1), a, b, moved[i], Ema(moved, period, i - 1));
    }
  }

  /** No look-ahead: an EMA value depends only on the prices up to its index. */
  lemma {:induction false} EmaCausal(values: seq<real>, other: seq<real>, period: int, i: int)
    requires 0 < period <= i + 1 <= |values| && i < |other| && values[..i + 1] == other[..i + 1]
    ensures Ema(values, period, i) == Ema(other, period, i)
    decreases i
  {
    hide Mix, Alpha, Mean;
    assert values[..i + 1][i] == other[..i + 1][i];
    assert values[..period] == values[..i + 1][..period] == other[..period];
    if i > period - 1 {
      assert values[..i] == values[..i + 1][..i] == other[..i];
      EmaCausal(values, other, period, i - 1);
    }
  }

  function Power(x: real, n: nat): real { if n == 0 then 1.0 else x * Power(x, n - 1) }

  /** How much the price at index k still counts in the EMA at index i. */
  function Weight(period: int, i: int, k: int): real
    requires 0 < period <= i + 1 && 0 <= k <= i
  {
    var alpha := Alpha(period);
    if k < period then Power(1.0 - alpha, i + 1 - period) / period as real else alpha * Power(1.0 - alpha, i - k)
  }

  function Weighted(values: seq<real>, period: int, i: int, n: nat): real
    requires 0 < period <= i + 1 <= |values| && n <= i + 1
  {
    if n == 0 then 0.0 else Weighted(values, period, i, n - 1) + Weight(period, i, n - 1) * values[n - 1]
  }

  lemma WeightDecays(period: int, i: int, k: int)
    requires 0 < period <= i && 0 <= k < i
    ensures Weight(period, i, k) == (1.0 - Alpha(period)) * Weight(period, i - 1, k)
  {
    var d := 1.0 - Alpha(period);
    hide Alpha;
    if k < period {
      SeedWeightDecays(d, Power(d, i - period), period as real, Power(d, i + 1 - period));
    } else {
      LaterWeightDecays(Alpha(period), d, Power(d, i - 1 - k), Power(d, i - k));
    }
  }

  lemma SeedWeightDecays(d: real, x: real, n: real, y: real)
    requires n != 0.0 && y == d * x
    ensures y / n == d * (x / n)
  {
    DivScale(d, x, n);
  }

  lemma LaterWeightDecays(alpha: real, d: real, x: real, y: real)
    requires y == d * x
    ensures alpha * y == d * (alpha * x)
  {}

  lemma DivScale(d: real, x: real, n: real)
    requires n != 0.0
    ensures d * x / n == d * (x / n)
  {
    var q := x / n;
    DivMul(x, n);
    assert d * q * n == d * (q * n);
    DivOfMul(d * q, n);
  }

  lemma {:induction false} WeightedDecays(values: seq<real>, period: int, i: int, n: nat)
    requires 0 < period <= i < |values| && n <= i
    ensures Weighted(values, period, i, n) == (1.0 - Alpha(period)) * Weighted(values, period, i - 1, n)
  {
    hide Weight, Alpha;
    if n > 0 {
      WeightedDecays(values, period, i, n - 1);
      WeightDecays(period, i, n - 1);
      DistributeOne(1.0 - Alpha(period), Weighted(values, period, i - 1, n - 1), Weight(period, i - 1, n - 1),
                    values[n - 1]);
    }
  }

  lemma DistributeOne(d: real, s: real, w: real, x: real)
    ensures d * s + (d * w) * x == d * (s + w * x)
  {}

  lemma {:induction false} WeightedSeed(values: seq<real>, period: int, n: nat)
    requires 0 < period <= |values| && n <= period
    ensures Weighted(values, period, period - 1, n) == Sum(values[..n]) / period as real
  {
    if n > 0 {
      WeightedSeed(values, period, n - 1);
      SumOneMore(values, n - 1);
      SplitQuotient(Sum(values[..n - 1]), values[n - 1], period as real);
    }
  }

  lemma SplitQuotient(s: real, x: real, n: real)
    requires n != 0.0
    ensures s / n + 1.0 / n * x == (s + x) / n
  {
    var a, b := s / n, 1.0 / n;
    assert a * n == s && b * n == 1.0;
    assert (a + b * x) * n == s + x;
    DivOfMul(a + b * x, n);
  }

  /** The recurrence is the weighted sum with geometrically decaying weights. */
  lemma {:induction false} EmaIsWeightedSum(values: seq<real>, period: int, i: int)
    requires 0 < period <= i + 1 <= |values|
    ensures Ema(values, period, i) == Weighted(values, period, i, i + 1)
    decreases i
  {
    if i == period - 1 {
      WeightedSeed(values, period, period);
    } else {
      EmaIsWeightedSum(values, period, i - 1);
      WeightedDecays(values, period, i, i);
    }
  }

  lemma {:induction false} PowerNonNegative(base: real, n: nat)
    requires 0.0 <= base
    ensures 0.0 <= Power(base, n)
  {
    if n > 0 { PowerNonNegative(base, n - 1); }
  }

  lemma WeightNonNegative(period: int, i: int, k: int)
    requires 0 < period <= i + 1 && 0 <= k <= i
    ensures 0.0 <= Weight(period, i, k)
  {
    AlphaRange(period);
    var d := 1.0 - Alpha(period);
    hide Alpha, Power;
    if k < period {
      PowerNonNegative(d, i + 1 - period);
      DivPositive(Power(d, i + 1 - period), period as real);
    } else {
      PowerNonNegative(d, i - k);
    }
  }

  /** Those weights are a convex combination: none is negative, and together they are one. */
  lemma WeightsSumToOne(period: int, i: int)
    requires 0 < period <= i + 1
    ensures forall k :: 0 <= k <= i ==> 0.0 <= Weight(period, i, k)
    ensures Weighted(seq(i + 1, _ => 1.0), period, i, i + 1) == 1.0
  {
    forall k | 0 <= k <= i ensures 0.0 <= Weight(period, i, k) { WeightNonNegative(period, i, k); }
    var ones := seq(i + 1, _ => 1.0);
    EmaIsWeightedSum(ones, period, i);
    EmaWithinPrefix(ones, period, i, 1.0, 1.0);
  }

  // ----- Wilder's average -----

  function WilderStep(w: real, x: real, n: real): real
    requires n != 0.0
  {
    (w * (n - 1.0) + x) / n
  }

  function Wilder(xs: seq<real>, period: int, i: int): real
    requires 0 < period <= i + 1 <= |xs|
    decreases i
  {
    if i == period - 1 then Mean(xs[..period])
    else WilderStep(Wilder(xs, period, i - 1), xs[i], period as real)
  }

  /** Seeded by the plain mean, the average then counts the new value once and the last average period - 1 times. */
  lemma WilderRecurs(xs: seq<real>, period: int, i: int)
    requires 0 < period <= i + 1 <= |xs|
    ensures i == period - 1 ==> period as real * Wilder(xs, period, i) == Sum(xs[..period])
    ensures period <= i ==>
              period as real * Wilder(xs, period, i) == xs[i] + (period - 1) as real * Wilder(xs, period, i - 1)
  {
    if i == period - 1 {
      DivMul(Sum(xs[..period]), period as real);
    } else {
      WilderStepMultiplied(Wilder(xs, period, i - 1), xs[i], period as real);
    }
  }

  lemma WilderStepMultiplied(w: real, x: real, n: real)
    requires n != 0.0
    ensures n * WilderStep(w, x, n) == x + (n - 1.0) * w
  {
    DivMul(w * (n - 1.0) + x, n);
  }

  lemma WilderStepWithin(w: real, x: real, n: real, lo: real, hi: real)
    requires 1.0 <= n && lo <= w <= hi && lo <= x <= hi
    ensures lo <= WilderStep(w, x, n) <= hi
  {
    MulLe(lo, w, n - 1.0);
    MulLe(w, hi, n - 1.0);
    assert lo * (n - 1.0) + lo == n * lo && hi * (n - 1.0) + hi == n * hi;
    QuotientWithin(w * (n - 1.0) + x, n, lo, hi);
  }

  lemma WilderStepScaled(w: real, x: real, n: real, a: real, w': real, x': real)
    requires n != 0.0 && w' == a * w && x' == a * x + 0.0
    ensures WilderStep(w', x', n) == a * WilderStep(w, x, n)
  {
    var m := w * (n - 1.0);
    assert a * w * (n - 1.0) == a * m;
    DivScale(a, m + x, n);
  }

  lemma WilderStepSmoothed(w: real, x: real, n: real, total: real)
    requires n != 0.0 && total == n * w
    ensures Decay(total, n) + x == n * WilderStep(w, x, n)
  {
    DivOfMul(w, n);
    assert n * w == w * n;
    DivMul(w * (n - 1.0) + x, n);
  }

  lemma {:induction false} WilderWithin(xs: seq<real>, period: int, i: int, lo: real, hi: real)
    requires 0 < period <= i + 1 <= |xs| && Within(xs[..i + 1], lo, hi)
    ensures lo <= Wilder(xs, period, i) <= hi
    decreases i
  {
    hide WilderStep, Mean;
    assert xs[..i + 1][i] == xs[i];
    if i == period - 1 {
      MeanWithin(xs[..period], lo, hi);
    } else {
      assert Within(xs[..i], lo, hi) by {
        forall k | 0 <= k < i ensures lo <= xs[..i][k] <= hi { assert xs[..i + 1][k] == xs[..i][k]; }
      }
      WilderWithin(xs, period, i - 1, lo, hi);
      WilderStepWithin(Wilder(xs, period, i - 1), xs[i], period as real, lo, hi);
    }
  }

  lemma {:induction false} WilderCausal(xs: seq<real>, ys: seq<real>, period: int, i: int)
    requires 0 < period <= i + 1 <= |xs| && i < |ys| && xs[..i + 1] == ys[..i + 1]
    ensures Wilder(xs, period, i) == Wilder(ys, period, i)
    decreases i
  {
    hide WilderStep, Mean;
    assert xs[..i + 1][i] == ys[..i + 1][i];
    assert xs[..period] == xs[..i + 1][..period] == ys[..period];
    if i > period - 1 {
      assert xs[..i] == xs[..i + 1][..i] == ys[..i];
      WilderCausal(xs, ys, period, i - 1);
    }
  }

  lemma {:induction false} WilderScaled(xs: seq<real>, period: int, i: int, a: real)
    requires 0 < period <= i + 1 <= |xs|
    ensures Wilder(Affine(xs, a, 0.0), period, i) == a * Wilder(xs, period, i)
    decreases i
  {
    hide WilderStep;
    var scaled := Affine(xs, a, 0.0);
    if i == period - 1 {
      AffinePrefix(xs, a, 0.0, period);
      MeanAffine(xs[..period], a, 0.0);
    } else {
      WilderScaled(xs, period, i - 1, a);
      WilderStepScaled(Wilder(xs, period, i - 1), xs[i], period as real, a, Wilder(scaled, period, i - 1), scaled[i]);
    }
  }

  function Decay(x: real, n: real): real
    requires n != 0.0
  {
    x - x / n
  }

  /** The running sum that directional movement is smoothed with. */
  function Smoothed(xs: seq<real>, period: int, i: int): real
    requires 0 < period <= i + 1 <= |xs|
    decreases i
  {
    if i == period - 1 then Sum(xs[..period])
    else Decay(Smoothed(xs, period, i - 1), period as real) + xs[i]
  }

  /** It starts as the plain sum; then one part in `period` of it gives way to the new value. */
  lemma SmoothedRecurs(xs: seq<real>, period: int, i: int)
    requires 0 < period <= i + 1 <= |xs|
    ensures i == period - 1 ==> Smoothed(xs, period, i) == Sum(xs[..period])
    ensures period <= i ==>
              period as real * (Smoothed(xs, period, i) - xs[i]) == (period - 1) as real * Smoothed(xs, period, i - 1)
  {
    if period <= i {
      DecayMultiplied(Smoothed(xs, period, i - 1), period as real);
    }
  }

  lemma DecayMultiplied(x: real, n: real)
    requires n != 0.0
    ensures n * Decay(x, n) == (n - 1.0) * x
  {
    DivMul(x, n);
  }

  /** It is exactly the period times Wilder's average. */
  lemma {:induction false} SmoothedIsScaledWilder(xs: seq<real>, period: int, i: int)
    requires 0 < period <= i + 1 <= |xs|
    ensures Smoothed(xs, period, i) == period as real * Wilder(xs, period, i)
    decreases i
  {
    hide WilderStep, Decay;
    var n := period as real;
    if i == period - 1 {
      DivMul(Sum(xs[..period]), n);
    } else {
      SmoothedIsScaledWilder(xs, period, i - 1);
      WilderStepSmoothed(Wilder(xs, period, i - 1), xs[i], n, Smoothed(xs, period, i - 1));
    }
  }

  lemma {:induction false} SmoothedCausal(xs: seq<real>, ys: seq<real>, period: int, i: int)
    requires 0 < period <= i + 1 <= |xs| && i < |ys| && xs[..i + 1] == ys[..i + 1]
    ensures Smoothed(xs, period, i) == Smoothed(ys, period, i)
  {
    WilderCausal(xs, ys, period, i);
    SmoothedIsScaledWilder(xs, period, i);
    SmoothedIsScaledWilder(ys, period, i);
  }

  lemma DecayIsPart(x: real, n: real)
    requires n != 0.0
    ensures Decay(x, n) == x / n * (n - 1.0)
  {
    var q := x / n;
    DivMul(x, n);
    assert q * (n - 1.0) == q * n - q;
  }

  lemma DecayLe(x: real, y: real, n: real)
    requires x <= y && 1.0 <= n
    ensures Decay(x, n) <= Decay(y, n)
  {
    DivLe(x, y, n);
    MulLe(x / n, y / n, n - 1.0);
    DecayIsPart(x, n);
    DecayIsPart(y, n);
    hide Decay;
  }

  lemma DecayZero(n: real)
    requires n != 0.0
    ensures Decay(0.0, n) == 0.0
  {
    DivOfMul(0.0, n);
  }

  lemma DecayAdd(x: real, y: real, n: real)
    requires n != 0.0
    ensures Decay(x, n) + Decay(y, n) == Decay(x + y, n)
  {
    SplitQuotientTwo(x, y, n);
  }

  lemma SplitQuotientTwo(x: real, y: real, n: real)
    requires n != 0.0
    ensures x / n + y / n == (x + y) / n
  {
    var a, b := x / n, y / n;
    assert a * n == x && b * n == y;
    assert (a + b) * n == x + y;
    DivOfMul(a + b, n);
  }

  /** Smoothing keeps pointwise domination: non-negative parts that never exceed a whole keep not exceeding it. */
  lemma {:induction false} SmoothedDominated(ps: seq<real>, ns: seq<real>, whole: seq<real>, period: int, i: int)
    requires 0 < period <= i + 1 <= |ps| && |ps| == |ns| == |whole|
    requires forall k :: 0 <= k <= i ==> 0.0 <= ps[k] && 0.0 <= ns[k] && ps[k] + ns[k] <= whole[k]
    ensures 0.0 <= Smoothed(ps, period, i) && 0.0 <= Smoothed(ns, period, i)
    ensures Smoothed(ps, period, i) + Smoothed(ns, period, i) <= Smoothed(whole, period, i)
    decreases i
  {
    hide Decay;
    if i == period - 1 {
      SumDominated(ps[..period], ns[..period], whole[..period]);
    } else {
      SmoothedDominated(ps, ns, whole, period, i - 1);
      var p, m, t, n := Smoothed(ps, period, i - 1), Smoothed(ns, period, i - 1), Smoothed(whole, period, i - 1),
        period as real;
      assert Smoothed(ps, period, i) == Decay(p, n) + ps[i] && Smoothed(ns, period, i) == Decay(m, n) + ns[i];
      assert Smoothed(whole, period, i) == Decay(t, n) + whole[i];
      DecayZero(n);
      DecayLe(0.0, p, n);
      DecayLe(0.0, m, n);
      DecayAdd(p, m, n);
      DecayLe(p + m, t, n);
    }
  }

  lemma {:induction false} SumDominated(ps: seq<real>, ns: seq<real>, whole: seq<real>)
    requires |ps| == |ns| == |whole|
    requires forall k :: 0 <= k < |ps| ==> 0.0 <= ps[k] && 0.0 <= ns[k] && ps[k] + ns[k] <= whole[k]
    ensures 0.0 <= Sum(ps) && 0.0 <= Sum(ns) && Sum(ps) + Sum(ns) <= Sum(whole)
  {
    if ps != [] {
      var n := |ps| - 1;
      SumDominated(ps[..n], ns[..n], whole[..n]);
    }
  }
}
