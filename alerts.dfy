/**
 * The alert policy (aaqua.py:266-277): whether a scored cycle raises an
 * alert, at which severity, and the append-only alert log it is written to.
 */
module Alerts {
  import opened Options
  import FloodRisk

  /** A level at or above this (cm) raises an alert whatever the risk. */
  const FloodLevel: real := 120.0
  /** A level at or above this (cm) makes the alert HIGH whatever the risk. */
  const SevereLevel: real := 150.0
  /** Risk at or above this makes the alert HIGH. */
  const HighRisk: real := 0.9
  /** Risk at or above this (and below HIGH) makes the alert MEDIUM. */
  const MediumRisk: real := 0.75

  datatype Severity = Low | Medium | High

  /** Some sensor reads at least `x` — `(levels >= x).any()`. */
  predicate AnyAtLeast(levels: seq<real>, x: real)
  {
    exists i :: 0 <= i < |levels| && levels[i] >= x
  }

  /** The alert raised for a cycle, or `None` when no alert is appended. */
  function Classify(risk: real, threshold: real, levels: seq<real>): Option<Severity>
  {
    if risk >= threshold || AnyAtLeast(levels, FloodLevel) then
      Some(if AnyAtLeast(levels, SevereLevel) || risk >= HighRisk then High
           else if risk >= MediumRisk then Medium
           else Low)
    else None
  }

  /** Orders the outcomes: no alert, LOW, MEDIUM, HIGH. */
  function Rank(outcome: Option<Severity>): nat
  {
    match outcome
    case None => 0
    case Some(Low) => 1
    case Some(Medium) => 2
    case Some(High) => 3
  }

  /** The highest sensor level. */
  function Peak(levels: seq<real>): (p: real)
    requires |levels| > 0
    ensures forall i :: 0 <= i < |levels| ==> levels[i] <= p
    ensures exists i :: 0 <= i < |levels| && levels[i] == p
  {
    if |levels| == 1 then levels[0]
    else
      var rest := Peak(levels[1..]);
      assert forall i :: 1 <= i < |levels| ==> levels[i] == levels[1..][i - 1];
      if levels[0] >= rest then levels[0] else rest
  }

  /** Some level reaches `x` exactly when the highest one does. */
  lemma AnyAtLeastIffPeak(levels: seq<real>, x: real)
    requires |levels| > 0
    ensures AnyAtLeast(levels, x) <==> Peak(levels) >= x
  {
  }

  /** An alert is appended iff the risk reaches the threshold (inclusive) or some level reaches 120. */
  lemma AlertIff(risk: real, threshold: real, levels: seq<real>)
    ensures Classify(risk, threshold, levels).Some? <==> (risk >= threshold || AnyAtLeast(levels, FloodLevel))
  {
  }

  /**
   * The severity rules: HIGH whenever some level reaches 150, even when the
   * risk is below the threshold; an alert is HIGH exactly when some level
   * reaches 150 or the risk reaches 0.9; otherwise MEDIUM iff the risk
   * reaches 0.75, otherwise LOW.
   */
  lemma SeverityRules(risk: real, threshold: real, levels: seq<real>)
    ensures AnyAtLeast(levels, SevereLevel) ==> Classify(risk, threshold, levels) == Some(High)
    ensures Classify(risk, threshold, levels).Some? ==>
              (Classify(risk, threshold, levels) == Some(High) <==> AnyAtLeast(levels, SevereLevel) || risk >= HighRisk)
    ensures Classify(risk, threshold, levels).Some? && !AnyAtLeast(levels, SevereLevel) && risk < HighRisk ==>
              (Classify(risk, threshold, levels) == Some(Medium) <==> risk >= MediumRisk)
    ensures Classify(risk, threshold, levels) == Some(Low) ==>
              risk < MediumRisk && !AnyAtLeast(levels, SevereLevel)
  {
    if AnyAtLeast(levels, SevereLevel) {
      var i :| 0 <= i < |levels| && levels[i] >= SevereLevel;
      assert levels[i] >= FloodLevel;
    }
  }

  /** Levels no higher, pointwise, than `levels2`. */
  predicate PointwiseAtMost(levels1: seq<real>, levels2: seq<real>)
  {
    |levels1| == |levels2| && forall i :: 0 <= i < |levels1| ==> levels1[i] <= levels2[i]
  }

  /**
   * The policy is monotone: a higher risk, a lower threshold or higher
   * sensor levels never produce a lesser outcome.
   */
  lemma ClassifyMonotone(risk1: real, threshold1: real, levels1: seq<real>,
                         risk2: real, threshold2: real, levels2: seq<real>)
    requires risk1 <= risk2 && threshold2 <= threshold1 && PointwiseAtMost(levels1, levels2)
    ensures Rank(Classify(risk1, threshold1, levels1)) <= Rank(Classify(risk2, threshold2, levels2))
  {
    if AnyAtLeast(levels1, FloodLevel) {
      var i :| 0 <= i < |levels1| && levels1[i] >= FloodLevel;
      assert levels2[i] >= FloodLevel;
    }
    if AnyAtLeast(levels1, SevereLevel) {
      var i :| 0 <= i < |levels1| && levels1[i] >= SevereLevel;
      assert levels2[i] >= SevereLevel;
    }
  }

  /** A mean level of 120 raises an alert, and one of 150 makes it HIGH, whatever the risk. */
  lemma MeanLevelForcesAlert(risk: real, threshold: real, levels: seq<real>)
    requires |levels| > 0
    ensures FloodRisk.Mean(levels) >= FloodLevel ==> Classify(risk, threshold, levels).Some?
    ensures FloodRisk.Mean(levels) >= SevereLevel ==> Classify(risk, threshold, levels) == Some(High)
  {
    var p := Peak(levels);
    FloodRisk.MeanAtMost(levels, p);
    AnyAtLeastIffPeak(levels, FloodLevel);
    AnyAtLeastIffPeak(levels, SevereLevel);
  }

  /** One row of the alert log; timestamp and the lat/lon columns are not modelled. */
  datatype AlertRecord = AlertRecord(kind: string, severity: Severity, risk: real, avgLevel: real)

  /** The alert log table; rows are only ever appended. */
  class AlertLog {
    var entries: seq<AlertRecord>

    constructor ()
      ensures entries == []
    {
      entries := [];
    }

    /**
     * The alert step of a cycle: append one `FloodRisk` row carrying the
     * severity, the risk and the average level when the policy fires, and
     * nothing otherwise.
     */
    method Raise(risk: real, threshold: real, levels: seq<real>, avg: real) returns (outcome: Option<Severity>)
      modifies this
      ensures outcome == Classify(risk, threshold, levels)
      ensures outcome.None? ==> entries == old(entries)
      ensures outcome.Some? ==> entries == old(entries) + [AlertRecord("FloodRisk", outcome.value, risk, avg)]
    {
      if risk >= threshold || AnyAtLeast(levels, FloodLevel) {
        var severity := if AnyAtLeast(levels, SevereLevel) || risk >= HighRisk then High
                        else if risk >= MediumRisk then Medium
                        else Low;
        entries := entries + [AlertRecord("FloodRisk", severity, risk, avg)];
        outcome := Some(severity);
      } else {
        outcome := None;
      }
    }
  }
}
