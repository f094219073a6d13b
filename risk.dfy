/**
 * The pure arithmetic of the flood-risk scorer (aaqua.py:231-245): the mean
 * sensor level, the exponentially smoothed baseline, the trend term measured
 * against that baseline, and the weighted risk score that combines rainfall,
 * sensor level and trend. Floating point is modelled by `real`.
 */
module FloodRisk {

  /** Smoothing factor of the baseline (aaqua.py:234). */
  const Alpha: real := 0.3
  /** Rainfall, in mm over the last 6 hours, at which the rain term saturates. */
  const RainSaturation: real := 200.0
  /** Mean sensor level, in cm, at which the level term saturates. */
  const LevelSaturation: real := 100.0
  /** Rise of the mean above the baseline, in cm, at which the trend term saturates. */
  const TrendSaturation: real := 20.0

  function Min(a: real, b: real): real { if a <= b then a else b }

  function Max(a: real, b: real): real { if a <= b then b else a }

  /** Sum of a column of water levels. */
  function Sum(xs: seq<real>): real
  {
    if |xs| == 0 then 0.0 else xs[0] + Sum(xs[1..])
  }

  /** The column mean `sensors_df["water_level"].mean()`; undefined for an empty table. */
  function Mean(levels: seq<real>): real
    requires |levels| > 0
  {
    Sum(levels) / (|levels| as real)
  }

  predicate AllAtLeast(xs: seq<real>, lo: real)
  {
    forall i :: 0 <= i < |xs| ==> lo <= xs[i]
  }

  predicate AllAtMost(xs: seq<real>, hi: real)
  {
    forall i :: 0 <= i < |xs| ==> xs[i] <= hi
  }

  lemma {:induction false} SumAtLeast(xs: seq<real>, lo: real)
    requires AllAtLeast(xs, lo)
    ensures lo * (|xs| as real) <= Sum(xs)
  {
    if |xs| > 0 {
      assert AllAtLeast(xs[1..], lo) by {
        forall i | 0 <= i < |xs[1..]| ensures lo <= xs[1..][i] { assert xs[1..][i] == xs[i + 1]; }
      }
      SumAtLeast(xs[1..], lo);
      assert lo * (|xs| as real) == lo + lo * (|xs[1..]| as real);
    }
  }

  lemma {:induction false} SumAtMost(xs: seq<real>, hi: real)
    requires AllAtMost(xs, hi)
    ensures Sum(xs) <= hi * (|xs| as real)
  {
    if |xs| > 0 {
      assert AllAtMost(xs[1..], hi) by {
        forall i | 0 <= i < |xs[1..]| ensures xs[1..][i] <= hi { assert xs[1..][i] == xs[i + 1]; }
      }
      SumAtMost(xs[1..], hi);
      assert hi * (|xs| as real) == hi + hi * (|xs[1..]| as real);
    }
  }

  /** The mean lies between any lower and any upper bound of the levels. */
  lemma MeanBetween(levels: seq<real>, lo: real, hi: real)
    requires |levels| > 0 && AllAtLeast(levels, lo) && AllAtMost(levels, hi)
    ensures lo <= Mean(levels) <= hi
  {
    MeanAtLeast(levels, lo);
    MeanAtMost(levels, hi);
  }

  lemma MeanAtLeast(levels: seq<real>, lo: real)
    requires |levels| > 0 && AllAtLeast(levels, lo)
    ensures lo <= Mean(levels)
  {
    var n := |levels| as real;
    SumAtLeast(levels, lo);
    assert Sum(levels) / n >= (lo * n) / n;
  }

  lemma MeanAtMost(levels: seq<real>, hi: real)
    requires |levels| > 0 && AllAtMost(levels, hi)
    ensures Mean(levels) <= hi
  {
    var n := |levels| as real;
    SumAtMost(levels, hi);
    assert Sum(levels) / n <= (hi * n) / n;
  }

  // ---------------------------------------------------------------------------
  // Baseline and trend (aaqua.py:231-238)
  // ---------------------------------------------------------------------------

  /** One smoothing step: `alpha * mean + (1 - alpha) * baseline`. */
  function Smoothed(baseline: real, mean: real): real
  {
    Alpha * mean + (1.0 - Alpha) * baseline
  }

  /**
   * The baseline after one call of the trend scorer: an absent baseline is
   * first set to the mean, then the baseline is always smoothed towards the mean.
   */
  function UpdatedBaseline(initialized: bool, ewma: real, mean: real): real
  {
    Smoothed(if initialized then ewma else mean, mean)
  }

  /** The trend term: the rise of the mean above the (updated) baseline, scaled and capped. */
  function TrendFromBaseline(mean: real, baseline: real): (t: real)
    ensures 0.0 <= t <= 1.0
    ensures t == 0.0 <==> mean <= baseline
    ensures t == 1.0 <==> mean - baseline >= TrendSaturation
    ensures mean < baseline + TrendSaturation ==> t * TrendSaturation == Max(0.0, mean - baseline)
  {
    Min(Max(0.0, mean - baseline) / TrendSaturation, 1.0)
  }

  /** The trend only grows as the mean rises or the baseline falls. */
  lemma TrendMonotone(mean1: real, baseline1: real, mean2: real, baseline2: real)
    requires mean1 - baseline1 <= mean2 - baseline2
    ensures TrendFromBaseline(mean1, baseline1) <= TrendFromBaseline(mean2, baseline2)
  {
  }

  /** On the first call the baseline becomes the mean itself and the trend is 0. */
  lemma FirstCallBaselineIsMean(ewma: real, mean: real)
    ensures UpdatedBaseline(false, ewma, mean) == mean
    ensures TrendFromBaseline(mean, UpdatedBaseline(false, ewma, mean)) == 0.0
  {
  }

  /** Each step closes the gap between baseline and mean by the factor `1 - alpha`. */
  lemma GapShrinks(ewma: real, mean: real)
    ensures mean - Smoothed(ewma, mean) == (1.0 - Alpha) * (mean - ewma)
    ensures Min(ewma, mean) <= Smoothed(ewma, mean) <= Max(ewma, mean)
  {
  }

  /** The baseline after `k` calls with the same mean. */
  function Repeated(ewma: real, mean: real, k: nat): real
  {
    if k == 0 then ewma else Smoothed(Repeated(ewma, mean, k - 1), mean)
  }

  function Power(x: real, k: nat): real
  {
    if k == 0 then 1.0 else x * Power(x, k - 1)
  }

  /** After `k` calls with an unchanged mean the gap is `(1 - alpha)^k` of the original gap. */
  lemma {:induction false} GapAfterRepeats(ewma: real, mean: real, k: nat)
    ensures mean - Repeated(ewma, mean, k) == Power(1.0 - Alpha, k) * (mean - ewma)
  {
    if k > 0 {
      GapAfterRepeats(ewma, mean, k - 1);
      var prev := Repeated(ewma, mean, k - 1);
      GapShrinks(prev, mean);
      calc {
        mean - Repeated(ewma, mean, k);
        (1.0 - Alpha) * (mean - prev);
        (1.0 - Alpha) * (Power(1.0 - Alpha, k - 1) * (mean - ewma));
        ((1.0 - Alpha) * Power(1.0 - Alpha, k - 1)) * (mean - ewma);
      }
    }
  }

  /**
   * Calling the scorer twice with the same levels never yields a larger trend
   * the second time; it yields a strictly smaller one exactly when the second
   * trend is strictly between 0 and 1. At or below the baseline both calls give
   * 0, and far enough above it both give 1.
   */
  lemma RepeatedTrend(ewma: real, mean: real)
    ensures var first := Smoothed(ewma, mean);
            var second := Smoothed(first, mean);
            && TrendFromBaseline(mean, second) <= TrendFromBaseline(mean, first)
            && (TrendFromBaseline(mean, second) < TrendFromBaseline(mean, first)
                <==> 0.0 < TrendFromBaseline(mean, second) < 1.0)
  {
    var first := Smoothed(ewma, mean);
    var second := Smoothed(first, mean);
    GapShrinks(first, mean);
    assert mean - second == 0.7 * (mean - first);
  }

  // ---------------------------------------------------------------------------
  // Risk score (aaqua.py:240-245)
  // ---------------------------------------------------------------------------

  /** Normalised rainfall term `min(rain / 200, 1)`. */
  function RainTerm(rain: real): (r: real)
    ensures r <= 1.0
    ensures rain >= 0.0 ==> r >= 0.0
    ensures r == 1.0 <==> rain >= RainSaturation
  {
    Min(rain / RainSaturation, 1.0)
  }

  /** Normalised sensor-level term `min(avg / 100, 1)`. */
  function LevelTerm(avg: real): (s: real)
    ensures s <= 1.0
    ensures avg >= 0.0 ==> s >= 0.0
    ensures s == 1.0 <==> avg >= LevelSaturation
  {
    Min(avg / LevelSaturation, 1.0)
  }

  lemma ProductNonNegative(a: real, b: real)
    ensures a >= 0.0 && b >= 0.0 ==> a * b >= 0.0
  {
  }

  /** The uncapped weighted sum `0.5r + 0.3s + 0.2t + 0.05rs`. */
  function Weighted(r: real, s: real, trend: real): (w: real)
    ensures 0.0 <= r && 0.0 <= s && 0.0 <= trend ==> 0.0 <= w
  {
    ProductNonNegative(r, s);
    0.5 * r + 0.3 * s + 0.2 * trend + 0.05 * (r * s)
  }

  /** The weighted sum grows with both normalised terms while they are non-negative. */
  lemma WeightedMonotone(r1: real, s1: real, r2: real, s2: real, trend: real)
    requires 0.0 <= r1 <= r2 && 0.0 <= s1 <= s2
    ensures Weighted(r1, s1, trend) <= Weighted(r2, s2, trend)
  {
    ProductNonNegative(r2 - r1, s1);
    ProductNonNegative(s2 - s1, r2);
    assert r1 * s1 <= r2 * s1 <= r2 * s2;
  }

  /** The weighted sum `0.5r + 0.3s + 0.2t + 0.05rs`, capped at 1. */
  function RiskScore(rain: real, avg: real, trend: real): (risk: real)
    ensures risk <= 1.0
    ensures rain >= 0.0 && avg >= 0.0 && trend >= 0.0 ==> risk >= 0.0
  {
    var r := RainTerm(rain);
    var s := LevelTerm(avg);
    Min(Weighted(r, s, trend), 1.0)
  }

  /** More rain never lowers the risk, for non-negative rain and sensor level. */
  lemma RiskMonotoneInRain(rain1: real, rain2: real, avg: real, trend: real)
    requires 0.0 <= rain1 <= rain2 && avg >= 0.0
    ensures RiskScore(rain1, avg, trend) <= RiskScore(rain2, avg, trend)
  {
    WeightedMonotone(RainTerm(rain1), LevelTerm(avg), RainTerm(rain2), LevelTerm(avg), trend);
  }

  /** A higher mean level never lowers the risk, for non-negative rainfall and level. */
  lemma RiskMonotoneInLevel(rain: real, avg1: real, avg2: real, trend: real)
    requires 0.0 <= avg1 <= avg2 && rain >= 0.0
    ensures RiskScore(rain, avg1, trend) <= RiskScore(rain, avg2, trend)
  {
    WeightedMonotone(RainTerm(rain), LevelTerm(avg1), RainTerm(rain), LevelTerm(avg2), trend);
  }

  /** All rainfall at or above 200 mm scores the same. */
  lemma RiskSaturatesInRain(rain: real, avg: real, trend: real)
    requires rain >= RainSaturation
    ensures RiskScore(rain, avg, trend) == RiskScore(RainSaturation, avg, trend)
  {
  }

  /**
   * The risk `predict_flood_risk` returns when called in a session whose
   * baseline state is (`initialized`, `ewma`).
   */
  function PredictedRisk(initialized: bool, ewma: real, rain: real, avg: real, levels: seq<real>): real
    requires |levels| > 0
  {
    var mean := Mean(levels);
    RiskScore(rain, avg, TrendFromBaseline(mean, UpdatedBaseline(initialized, ewma, mean)))
  }

  /** For non-negative rainfall and sensor level the risk is in [0, 1]. */
  lemma PredictedRiskBounds(initialized: bool, ewma: real, rain: real, avg: real, levels: seq<real>)
    requires |levels| > 0 && rain >= 0.0 && avg >= 0.0
    ensures 0.0 <= PredictedRisk(initialized, ewma, rain, avg, levels) <= 1.0
  {
  }

  /**
   * For a fixed sensor table and baseline state the predicted risk is
   * non-decreasing in rainfall and constant from 200 mm upwards.
   */
  lemma PredictedRiskInRain(initialized: bool, ewma: real, rain1: real, rain2: real, avg: real, levels: seq<real>)
    requires |levels| > 0 && 0.0 <= rain1 <= rain2 && avg >= 0.0
    ensures PredictedRisk(initialized, ewma, rain1, avg, levels) <= PredictedRisk(initialized, ewma, rain2, avg, levels)
    ensures rain1 >= RainSaturation ==>
              PredictedRisk(initialized, ewma, rain1, avg, levels) == PredictedRisk(initialized, ewma, rain2, avg, levels)
  {
    var mean := Mean(levels);
    var t := TrendFromBaseline(mean, UpdatedBaseline(initialized, ewma, mean));
    RiskMonotoneInRain(rain1, rain2, avg, t);
    if rain1 >= RainSaturation {
      RiskSaturatesInRain(rain1, avg, t);
      RiskSaturatesInRain(rain2, avg, t);
    }
  }

  /** On a first call the score has no trend contribution at all. */
  lemma FirstCallRiskHasNoTrend(ewma: real, rain: real, levels: seq<real>)
    requires |levels| > 0
    ensures PredictedRisk(false, ewma, rain, Mean(levels), levels)
            == Min(0.5 * RainTerm(rain) + 0.3 * LevelTerm(Mean(levels))
                   + 0.05 * RainTerm(rain) * LevelTerm(Mean(levels)), 1.0)
  {
    FirstCallBaselineIsMean(ewma, Mean(levels));
  }
}
