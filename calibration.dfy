/**
 * Soil-moisture calibration from the environmental feed (App.tsx,
 * `fetchEnvironmentalData`): a volumetric reading, when present and not the
 * no-data sentinel, becomes a rounded percentage that replaces every
 * field's moisture and is appended to its history, whose oldest entry is
 * dropped.
 */
module Calibration {
  import opened Types

  /** `Math.round`: the nearest integer, halves rounded up. */
  function Round(x: real): (r: int)
    ensures x - 0.5 < r as real <= x + 0.5
  {
    (x + 0.5).Floor
  }

  /** `values && values.length > 0 ? values[0] : null` on the daily soil series. */
  function FirstReading(series: Option<seq<Option<real>>>): (r: Option<real>)
    ensures series.None? || |series.value| == 0 ==> r.None?
    ensures series.Some? && |series.value| > 0 ==> r == series.value[0]
  {
    match series
    case None => None
    case Some(vs) => if |vs| > 0 then vs[0] else None
  }

  /** The percentage the fields are calibrated to, if calibration applies. */
  function CalibrationPercent(reading: Option<real>, isGuestMode: bool): (r: Option<int>)
    ensures r.Some? <==> reading.Some? && reading.value > -999.0 && !isGuestMode
    ensures r.Some? ==> r.value == Round(reading.value * 100.0)
  {
    if reading.Some? && reading.value > -999.0 && !isGuestMode then Some(Round(reading.value * 100.0))
    else None
  }

  /** `[...history.slice(1), p]`. */
  function ShiftHistory(history: seq<int>, p: int): (r: seq<int>)
    ensures |history| > 0 ==> |r| == |history|
    ensures |history| == 0 ==> r == [p]
    ensures r[|r| - 1] == p
    ensures |history| > 0 ==> r[..|r| - 1] == history[1..]
  {
    (if |history| == 0 then [] else history[1..]) + [p]
  }

  /** Every field takes the new moisture and shifts it into its history. */
  function CalibrateFields(fields: seq<Field>, p: int): (r: seq<Field>)
    ensures |r| == |fields|
    ensures forall i :: 0 <= i < |fields| ==>
              r[i] == fields[i].(soilMoisture := p,
                                 soilMoistureHistory := ShiftHistory(fields[i].soilMoistureHistory, p))
  {
    if |fields| == 0 then []
    else
      [fields[0].(soilMoisture := p, soilMoistureHistory := ShiftHistory(fields[0].soilMoistureHistory, p))]
      + CalibrateFields(fields[1..], p)
  }

  /** A history of `n` entries whose newest entry is the current moisture. */
  predicate HistoryConsistent(f: Field, n: nat) {
    n > 0 && |f.soilMoistureHistory| == n && f.soilMoistureHistory[n - 1] == f.soilMoisture
  }

  /**
   * Calibration keeps every field's history length, makes its newest entry
   * the new moisture and changes nothing but moisture and history.
   */
  lemma CalibrationPreservesHistory(fields: seq<Field>, p: int, n: nat)
    requires forall i :: 0 <= i < |fields| ==> |fields[i].soilMoistureHistory| == n
    requires n > 0
    ensures forall i :: 0 <= i < |fields| ==> HistoryConsistent(CalibrateFields(fields, p)[i], n)
    ensures forall i :: 0 <= i < |fields| ==>
              CalibrateFields(fields, p)[i].(soilMoisture := fields[i].soilMoisture,
                                             soilMoistureHistory := fields[i].soilMoistureHistory) == fields[i]
  {
  }

  /** Two calibrations in a row append both readings, oldest first. */
  lemma CalibrateTwice(fields: seq<Field>, p: int, q: int)
    requires forall i :: 0 <= i < |fields| ==> |fields[i].soilMoistureHistory| >= 2
    ensures forall i :: 0 <= i < |fields| ==>
              CalibrateFields(CalibrateFields(fields, p), q)[i].soilMoistureHistory
              == fields[i].soilMoistureHistory[2..] + [p, q]
  {
    forall i | 0 <= i < |fields|
      ensures CalibrateFields(CalibrateFields(fields, p), q)[i].soilMoistureHistory
              == fields[i].soilMoistureHistory[2..] + [p, q]
    {
      var h := fields[i].soilMoistureHistory;
      assert ShiftHistory(h, p)[1..] == h[2..] + [p];
    }
  }
}
