/**
 * The sensor table (`sensors.csv`) and the simulated update of its
 * `water_level` column (aaqua.py:253-258): each level rises by a fiftieth of
 * the rainfall plus a per-sensor noise value and is clipped to [0, 200].
 * The seeded random noise is an input here.
 */
module Sensors {
  import opened FloodRisk

  const MinLevel: real := 0.0
  const MaxLevel: real := 200.0
  /** Rainfall (mm) per centimetre of simulated rise. */
  const RainPerCm: real := 50.0

  datatype SensorReading = SensorReading(id: string, lat: real, lon: real, waterLevel: real)

  /** `Series.clip(0, 200)` on one value. */
  function Clip(x: real): (c: real)
    ensures MinLevel <= c <= MaxLevel
    ensures MinLevel <= x <= MaxLevel ==> c == x
    ensures x < MinLevel ==> c == MinLevel
    ensures x > MaxLevel ==> c == MaxLevel
  {
    if x < MinLevel then MinLevel else if x > MaxLevel then MaxLevel else x
  }

  /** The `water_level` column. */
  function Levels(rows: seq<SensorReading>): (levels: seq<real>)
    ensures |levels| == |rows|
    ensures forall i :: 0 <= i < |rows| ==> levels[i] == rows[i].waterLevel
  {
    seq(|rows|, i requires 0 <= i < |rows| => rows[i].waterLevel)
  }

  /** The level one sensor reports after a simulated update. */
  function SimulatedLevel(level: real, rain: real, noise: int): real
  {
    Clip(level + rain / RainPerCm + noise as real)
  }

  /** The table after a simulated update: only the level column changes. */
  function Simulated(rows: seq<SensorReading>, rain: real, noise: seq<int>): (rows': seq<SensorReading>)
    requires |noise| == |rows|
    ensures |rows'| == |rows|
    ensures forall i :: 0 <= i < |rows| ==>
              rows'[i].id == rows[i].id && rows'[i].lat == rows[i].lat && rows'[i].lon == rows[i].lon
    ensures forall i :: 0 <= i < |rows| ==> MinLevel <= rows'[i].waterLevel <= MaxLevel
  {
    seq(|rows|, i requires 0 <= i < |rows| =>
      rows[i].(waterLevel := SimulatedLevel(rows[i].waterLevel, rain, noise[i])))
  }

  /** After a simulated update every level is in [0, 200], and so is their mean. */
  lemma SimulatedMeanInRange(rows: seq<SensorReading>, rain: real, noise: seq<int>)
    requires |noise| == |rows| && |rows| > 0
    ensures 0.0 <= Mean(Levels(Simulated(rows, rain, noise))) <= 200.0
  {
    var levels := Levels(Simulated(rows, rain, noise));
    MeanBetween(levels, MinLevel, MaxLevel);
  }

  /** More rain never lowers any simulated level. */
  lemma SimulatedMonotoneInRain(rows: seq<SensorReading>, rain1: real, rain2: real, noise: seq<int>)
    requires |noise| == |rows| && rain1 <= rain2
    ensures forall i :: 0 <= i < |rows| ==>
              Simulated(rows, rain1, noise)[i].waterLevel <= Simulated(rows, rain2, noise)[i].waterLevel
  {
  }

  /**
   * A level that stays within [0, 200] after adding rain and noise is
   * exactly the sum; with no rain and no noise an in-range table is unchanged.
   */
  lemma SimulatedWithoutClipping(rows: seq<SensorReading>, rain: real, noise: seq<int>)
    requires |noise| == |rows|
    ensures forall i :: 0 <= i < |rows| && MinLevel <= rows[i].waterLevel + rain / RainPerCm + noise[i] as real <= MaxLevel ==>
              Simulated(rows, rain, noise)[i].waterLevel == rows[i].waterLevel + rain / RainPerCm + noise[i] as real
    ensures rain == 0.0 && (forall i :: 0 <= i < |rows| ==> noise[i] == 0 && MinLevel <= rows[i].waterLevel <= MaxLevel) ==>
              Simulated(rows, rain, noise) == rows
  {
  }

  datatype MarkerColour = Blue | Orange | Red

  /** The map marker colour of a sensor: blue below 50 cm, orange below 100 cm, red from 100 cm. */
  function ColourOf(level: real): MarkerColour
  {
    if level < 50.0 then Blue else if level < 100.0 then Orange else Red
  }

  function ColourRank(c: MarkerColour): nat
  {
    match c
    case Blue => 0
    case Orange => 1
    case Red => 2
  }

  /** A higher level never shows a calmer colour. */
  lemma ColourMonotone(level1: real, level2: real)
    requires level1 <= level2
    ensures ColourRank(ColourOf(level1)) <= ColourRank(ColourOf(level2))
  {
  }

  /** The sensor table as the session holds it; the simulation overwrites its level column. */
  class SensorTable {
    var rows: seq<SensorReading>

    constructor (rows0: seq<SensorReading>)
      ensures rows == rows0
    {
      rows := rows0;
    }

    method Simulate(rain: real, noise: seq<int>)
      requires |noise| == |rows|
      modifies this
      ensures rows == Simulated(old(rows), rain, noise)
    {
      var table := rows;
      rows := seq(|table|, i requires 0 <= i < |table| =>
        table[i].(waterLevel := Clip(table[i].waterLevel + rain / RainPerCm + noise[i] as real)));
    }
  }
}
