/**
 * The session-held smoothing state of the flood-risk scorer
 * (`st.session_state.sensor_ewma`, aaqua.py:231-238) and the scorer call
 * that advances it (aaqua.py:240-245). The state has two phases: no baseline
 * yet, and a baseline that every call smooths towards the current mean.
 */
module TrendTracking {
  import opened FloodRisk

  class TrendTracker {
    /** Whether the session already holds a baseline. */
    var initialized: bool
    /** The smoothed baseline; meaningful only once `initialized`. */
    var ewma: real

    /** A fresh session: no baseline stored yet. */
    constructor ()
      ensures !initialized
    {
      initialized := false;
      ewma := 0.0;
    }

    /**
     * `sensor_trend_score`: store a baseline if there is none, smooth it
     * towards the mean level, and score the mean's rise above the new baseline.
     */
    method TrendScore(levels: seq<real>) returns (t: real)
      requires |levels| > 0
      modifies this
      ensures initialized
      ensures ewma == UpdatedBaseline(old(initialized), old(ewma), Mean(levels))
      ensures !old(initialized) ==> ewma == Mean(levels) && t == 0.0
      ensures old(initialized) ==> Mean(levels) - ewma == (1.0 - Alpha) * (Mean(levels) - old(ewma))
      ensures t == TrendFromBaseline(Mean(levels), ewma)
      ensures 0.0 <= t <= 1.0
    {
      var mean := Mean(levels);
      if !initialized {
        ewma := mean;
        initialized := true;
      }
      ewma := Alpha * mean + (1.0 - Alpha) * ewma;
      var trend := Max(0.0, mean - ewma);
      t := Min(trend / TrendSaturation, 1.0);
    }
  }

  /**
   * `predict_flood_risk`: combine rainfall, the given average level and the
   * trend term; as a side effect the session baseline advances.
   */
  method PredictFloodRisk(tracker: TrendTracker, rain: real, avg: real, levels: seq<real>) returns (risk: real)
    requires |levels| > 0
    modifies tracker
    ensures tracker.initialized
    ensures tracker.ewma == UpdatedBaseline(old(tracker.initialized), old(tracker.ewma), Mean(levels))
    ensures risk == PredictedRisk(old(tracker.initialized), old(tracker.ewma), rain, avg, levels)
    ensures rain >= 0.0 && avg >= 0.0 ==> 0.0 <= risk <= 1.0
  {
    var r := Min(rain / RainSaturation, 1.0);
    var s := Min(avg / LevelSaturation, 1.0);
    var t := tracker.TrendScore(levels);
    var score := 0.5 * r + 0.3 * s + 0.2 * t + 0.05 * r * s;
    risk := Min(score, 1.0);
  }
}
