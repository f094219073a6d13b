/**
 * One run of the dashboard's scoring flow (aaqua.py:250-277): optionally
 * simulate new sensor levels, score the flood risk against the session
 * baseline, and append an alert when the policy fires.
 */
module Dashboard {
  import opened Options
  import opened FloodRisk
  import opened TrendTracking
  import opened Alerts
  import opened Sensors

  method RunCycle(tracker: TrendTracker, sensors: SensorTable, log: AlertLog,
                  simulate: bool, rain: real, threshold: real, noise: seq<int>)
    returns (risk: real, outcome: Option<Severity>)
    requires |sensors.rows| > 0
    requires simulate ==> |noise| == |sensors.rows|
    modifies tracker, sensors, log
    ensures sensors.rows == if simulate then Simulated(old(sensors.rows), rain, noise) else old(sensors.rows)
    ensures tracker.initialized
    ensures tracker.ewma == UpdatedBaseline(old(tracker.initialized), old(tracker.ewma), Mean(Levels(sensors.rows)))
    ensures risk == PredictedRisk(old(tracker.initialized), old(tracker.ewma), rain,
                                  Mean(Levels(sensors.rows)), Levels(sensors.rows))
    ensures simulate && rain >= 0.0 ==> 0.0 <= risk <= 1.0
    ensures outcome == Classify(risk, threshold, Levels(sensors.rows))
    ensures log.entries == old(log.entries) +
              if outcome.Some? then [AlertRecord("FloodRisk", outcome.value, risk, Mean(Levels(sensors.rows)))] else []
  {
    if simulate {
      sensors.Simulate(rain, noise);
      SimulatedMeanInRange(old(sensors.rows), rain, noise);
    }
    var levels := Levels(sensors.rows);
    var avg := Mean(levels);
    risk := PredictFloodRisk(tracker, rain, avg, levels);
    outcome := log.Raise(risk, threshold, levels, avg);
  }

  /**
   * With sensors at 10, 8 and 5 cm and no rain, a first run scores 0.023
   * (only the level term contributes) and raises no alert at threshold 0.6.
   */
  lemma QuietFirstRun(ewma: real)
    ensures PredictedRisk(false, ewma, 0.0, Mean([10.0, 8.0, 5.0]), [10.0, 8.0, 5.0]) == 0.023
    ensures Classify(0.023, 0.6, [10.0, 8.0, 5.0]) == None
  {
    var levels := [10.0, 8.0, 5.0];
    assert Sum(levels) == 23.0 by {
      assert levels[1..] == [8.0, 5.0] && levels[1..][1..] == [5.0] && levels[1..][1..][1..] == [];
    }
    FirstCallBaselineIsMean(ewma, Mean(levels));
  }

  /**
   * At 20 mm of rain the same first run stays below threshold 0.6, so the
   * uninitialised baseline cannot raise a spurious alert.
   */
  lemma NoSpuriousFirstAlert(ewma: real)
    ensures PredictedRisk(false, ewma, 20.0, Mean([10.0, 8.0, 5.0]), [10.0, 8.0, 5.0]) < 0.6
    ensures Classify(PredictedRisk(false, ewma, 20.0, Mean([10.0, 8.0, 5.0]), [10.0, 8.0, 5.0]),
                     0.6, [10.0, 8.0, 5.0]) == None
  {
    var levels := [10.0, 8.0, 5.0];
    assert Sum(levels) == 23.0 by {
      assert levels[1..] == [8.0, 5.0] && levels[1..][1..] == [5.0] && levels[1..][1..][1..] == [];
    }
    FirstCallBaselineIsMean(ewma, Mean(levels));
    var risk := PredictedRisk(false, ewma, 20.0, Mean(levels), levels);
    assert risk == 0.05 + 0.023 + 0.005 * (23.0 / 300.0);
  }

  /** A single sensor at 150 cm forces a HIGH alert even at a risk of 0.1. */
  lemma SevereSensorForcesHigh(threshold: real)
    ensures Classify(0.1, threshold, [10.0, 150.0, 5.0]) == Some(High)
  {
    var levels := [10.0, 150.0, 5.0];
    assert levels[1] >= SevereLevel && levels[1] >= FloodLevel;
  }

  /** With every level below 120 a risk exactly at the threshold still raises an alert. */
  lemma ThresholdIsInclusive(risk: real, levels: seq<real>)
    ensures Classify(risk, risk, levels).Some?
  {
  }
}
