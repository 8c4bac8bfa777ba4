// The fixed data the application starts from: empty field and schedule
// lists, the three demonstration fields of guest mode and the initial agent
// log, with the facts the rest of the model relies on proved of them.

module Constants {
  import opened Types
  import ActivityLog
  import Calibration
  import Notifications
  import Gemini

  const InitialFields: seq<Field> := []
  const InitialSchedule: seq<IrrigationEvent> := []

  const InitializedMessage := "System initialized and contexts loaded."
  const ForecastMessage :=
    "Analyzed Open-Meteo forecast: 0% precipitation expected in next 24h." + " Maintained current irrigation schedule."
  const AdjustedMessage :=
    "Adjusted Southern Field's schedule due to high ET readings from OpenET." + " Increased duration by 15 minutes."
  const PreviewBase := "https://storage.googleapis.com/" + "maker-suite-gallery/aquacrop-previews/"

  const HourMs := 60 * 60 * 1000
  const MinuteMs := 60 * 1000

  /**
   * The initial log, its timestamps counted back from the moment the app is
   * loaded: two hours, one hour and half an hour earlier, in that order.
   */
  function InitialAgentLog(loadTime: int): (r: seq<LogEntry>)
    ensures |r| == 3
  {
    [ LogEntry(loadTime - 2 * HourMs, InitializedMessage, Info),
      LogEntry(loadTime - 1 * HourMs, ForecastMessage, Info),
      LogEntry(loadTime - 30 * MinuteMs, AdjustedMessage, Action) ]
  }

  function GuestFields(): (r: seq<Field>)
    ensures |r| == 3
  {
    [ Field("guest-field-1", "North-East Almond Orchard", ["Almonds"], Flowering, SandyLoam, Drip, 500,
            Location(36.75, -119.77), 48, [55, 52, 50, 49, 48],
            PreviewBase + "almonds.png", None),
      Field("guest-field-2", "Central Tomato Patch", ["Tomatoes"], Vegetative, Loam, Drip, 300,
            Location(36.745, -119.775), 65, [60, 62, 63, 66, 65],
            PreviewBase + "tomatoes.png", None),
      Field("guest-field-3", "Western Cornfield", ["Corn"], Maturity, SiltyClay, Pivot, 800,
            Location(36.748, -119.78), 35, [48, 45, 41, 38, 35],
            PreviewBase + "corn.png", None) ]
  }

  /** No two guest fields share an id. */
  lemma GuestIdsDistinct()
    ensures Notifications.DistinctIds(GuestFields())
  {
    var fs := GuestFields();
    assert fs[0].id[12] == '1' && fs[1].id[12] == '2' && fs[2].id[12] == '3';
  }

  /**
   * Every guest field has five readings, the newest being its current
   * moisture: the shape calibration keeps.
   */
  lemma GuestHistoriesConsistent()
    ensures forall i :: 0 <= i < |GuestFields()| ==> Calibration.HistoryConsistent(GuestFields()[i], 5)
  {
  }

  /** Guest moisture readings are percentages and every irrigation system has a positive flow. */
  lemma GuestValuesInRange()
    ensures forall i :: 0 <= i < |GuestFields()| ==>
              && 0 <= GuestFields()[i].soilMoisture <= 100
              && (forall k :: 0 <= k < |GuestFields()[i].soilMoistureHistory| ==>
                    0 <= GuestFields()[i].soilMoistureHistory[k] <= 100)
              && GuestFields()[i].flowRate > 0
  {
  }

  /** Calibrating the guest fields keeps the consistent five-reading shape. */
  lemma GuestCalibrationConsistent(p: int)
    ensures forall i :: 0 <= i < 3 ==> Calibration.HistoryConsistent(Calibration.CalibrateFields(GuestFields(), p)[i], 5)
  {
    Calibration.CalibrationPreservesHistory(GuestFields(), p, 5);
  }

  /**
   * The third guest field sits exactly at the critical line, and under the
   * strict comparison it raises no alert; neither do the other two.
   */
  lemma GuestFieldsRaiseNoAlert(alerted: set<string>)
    ensures GuestFields()[2].soilMoisture == Notifications.CriticalMoisture
    ensures Notifications.LowMoistureStep(alerted, GuestFields()[2]).1 == []
    ensures Notifications.LowMoistureScan(alerted, GuestFields()).1 == []
  {
    var fs := GuestFields();
    assert fs[..1][..0] == [];
    assert fs[..1][0] == fs[0];
    assert Notifications.LowMoistureScan(alerted, fs[..1]).1 == [];
    assert fs[..2][..1] == fs[..1] && fs[..2][1] == fs[1];
    assert Notifications.LowMoistureScan(alerted, fs[..2]).1 == [];
    assert fs[..|fs| - 1] == fs[..2];
  }

  /** The initial log runs oldest first, so it is not in the newest-first order later entries keep. */
  lemma InitialLogOldestFirst(loadTime: int)
    ensures forall i, j :: 0 <= i < j < 3 ==> InitialAgentLog(loadTime)[i].timestamp < InitialAgentLog(loadTime)[j].timestamp
    ensures !ActivityLog.NewestFirst(InitialAgentLog(loadTime))
  {
    var log := InitialAgentLog(loadTime);
    assert log[0].timestamp < log[1].timestamp;
  }

  /**
   * Because the seeded log runs oldest first, the chat window is not the
   * five newest entries: after three entries are logged from the load time
   * on, it holds the seeded entry of two hours before but not the one of
   * half an hour before.
   */
  lemma SeededWindowSkipsNewerSeed(loadTime: int, m: string)
    ensures var log := ActivityLog.AddEntry(ActivityLog.AddEntry(ActivityLog.AddEntry(
                         InitialAgentLog(loadTime), loadTime, m), loadTime + 1, m), loadTime + 2, m);
            && Gemini.RecentLog(log)[3] == InitialAgentLog(loadTime)[0]
            && InitialAgentLog(loadTime)[2] !in Gemini.RecentLog(log)
  {
    var seed := InitialAgentLog(loadTime);
    var log := ActivityLog.AddEntry(ActivityLog.AddEntry(ActivityLog.AddEntry(
                 seed, loadTime, m), loadTime + 1, m), loadTime + 2, m);
    assert log == [LogEntry(loadTime + 2, m, Action), LogEntry(loadTime + 1, m, Action),
                   LogEntry(loadTime, m, Action)] + seed;
    var w := Gemini.RecentLog(log);
    assert w == log[..5];
    assert forall i :: 0 <= i < 5 ==> w[i].timestamp != seed[2].timestamp;
  }

  /** The application starts with no field and no schedule event. */
  lemma InitialListsEmpty()
    ensures |InitialFields| == 0 && |InitialSchedule| == 0
  {
  }
}
