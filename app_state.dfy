/**
 * The scheduling control flow of the root component (App.tsx): the state
 * slots it owns, `generateSchedule`, the one-shot initial generation, the
 * environmental refresh with its soil-moisture calibration, and the record
 * `handleAddField` stores. Calls to Gemini and to the vegetation-index
 * source are outcome parameters: each call either resolves with a value or
 * throws.
 */
module App {
  import opened Types
  import opened Strings
  import opened ActivityLog
  import opened Calibration

  const MsgAnalyzing := "Sprout AI is analyzing real-time weather and crop data..."
  const MsgFetchingSatellite := "Fetching satellite vegetation data (Pro Feature)..."
  const MsgSatelliteSchedule :=
    "Sprout AI has generated a new irrigation schedule based on satellite vegetation data."
  const MsgBasicSchedule :=
    "Generated basic irrigation schedule. Upgrade to Pro for satellite data optimization."
  const MsgScheduleFailed :=
    "Failed to generate an AI-powered irrigation schedule. Please review conditions and try again."
  const MsgFetchFailed := "Failed to fetch real-time environmental data."

  function MsgCalibrated(p: int): string {
    "Calibrated soil moisture to " + IntToString(p) + "% from Open-Meteo data."
  }

  /** The fields annotated with one vegetation index each, as a copy. */
  function WithNdvi(fields: seq<Field>, ndvi: seq<real>): (r: seq<Field>)
    requires |ndvi| == |fields|
    ensures |r| == |fields|
    ensures forall i :: 0 <= i < |fields| ==> r[i] == fields[i].(ndvi := Some(ndvi[i]))
  {
    if |fields| == 0 then [] else [fields[0].(ndvi := Some(ndvi[0]))] + WithNdvi(fields[1..], ndvi[1..])
  }

  /** What one run of `generateSchedule` leaves behind, and what it sent to the oracle. */
  datatype RunResult = RunResult(log: seq<LogEntry>, schedule: seq<IrrigationEvent>, sent: Option<seq<Field>>)

  /** The schedule call and its `try`/`catch`: replace the plan, or keep it and warn. */
  function CallScheduler(log: seq<LogEntry>, schedule: seq<IrrigationEvent>, sent: seq<Field>,
                         oracle: Outcome<seq<IrrigationEvent>>, now: int): RunResult
  {
    match oracle
    case Ok(newSchedule) => RunResult(log, newSchedule, Some(sent))
    case Failed => RunResult(AddEntry(log, now, MsgScheduleFailed, Warning), schedule, Some(sent))
  }

  /** The body of `generateSchedule` once its input guard has passed. */
  function ScheduleRun(plan: Option<UserPlan>, fields: seq<Field>, log: seq<LogEntry>,
                       schedule: seq<IrrigationEvent>, ndvi: Outcome<seq<real>>,
                       oracle: Outcome<seq<IrrigationEvent>>, now: int): RunResult
    requires ndvi.Ok? ==> |ndvi.value| == |fields|
  {
    var analyzing := AddEntry(log, now, MsgAnalyzing, Info);
    if plan == Some(ManajerPro) then
      var fetching := AddEntry(analyzing, now, MsgFetchingSatellite, Info);
      match ndvi
      case Failed => RunResult(AddEntry(fetching, now, MsgScheduleFailed, Warning), schedule, None)
      case Ok(v) =>
        CallScheduler(AddEntry(fetching, now, MsgSatelliteSchedule, Action), schedule, WithNdvi(fields, v), oracle, now)
    else
      CallScheduler(AddEntry(analyzing, now, MsgBasicSchedule, Action), schedule, fields, oracle, now)
  }

  /**
   * A run replaces the schedule wholesale exactly when the schedule call was
   * made and resolved; otherwise the old schedule stays and the log
   * begins with the warning. The earlier log is kept, untouched, as the tail.
   */
  lemma ScheduleRunOutcome(plan: Option<UserPlan>, fields: seq<Field>, log: seq<LogEntry>,
                           schedule: seq<IrrigationEvent>, ndvi: Outcome<seq<real>>,
                           oracle: Outcome<seq<IrrigationEvent>>, now: int)
    requires ndvi.Ok? ==> |ndvi.value| == |fields|
    ensures var r := ScheduleRun(plan, fields, log, schedule, ndvi, oracle, now);
            && (r.sent.Some? && oracle.Ok? ==> r.schedule == oracle.value)
            && (r.sent.None? || oracle.Failed? ==> r.schedule == schedule)
            && (r.sent.Some? && oracle.Ok? <==> r.log[0].kind != Warning)
            && (r.log[0].kind == Warning ==> r.log[0] == LogEntry(now, MsgScheduleFailed, Warning))
            && 2 <= |r.log| - |log| <= 4
            && r.log[|r.log| - |log|..] == log
            && r.log[|r.log| - |log| - 1] == LogEntry(now, MsgAnalyzing, Info)
  {
    var r := ScheduleRun(plan, fields, log, schedule, ndvi, oracle, now);
    assert MsgScheduleFailed != MsgSatelliteSchedule && MsgScheduleFailed != MsgBasicSchedule;
  }

  /**
   * On the basic plan the "Generated basic" action is logged before the
   * schedule call, so it is in the log even when that call fails, and the
   * fields go to the call as they are.
   */
  lemma BasicPlanLogsBeforeCall(plan: Option<UserPlan>, fields: seq<Field>, log: seq<LogEntry>,
                                schedule: seq<IrrigationEvent>, ndvi: Outcome<seq<real>>,
                                oracle: Outcome<seq<IrrigationEvent>>, now: int)
    requires plan != Some(ManajerPro)
    requires ndvi.Ok? ==> |ndvi.value| == |fields|
    ensures var r := ScheduleRun(plan, fields, log, schedule, ndvi, oracle, now);
            && r.sent == Some(fields)
            && r.log == (if oracle.Failed? then [LogEntry(now, MsgScheduleFailed, Warning)] else [])
                        + [LogEntry(now, MsgBasicSchedule, Action), LogEntry(now, MsgAnalyzing, Info)] + log
  {
  }

  /**
   * On the Pro plan the annotated copy is what the schedule call receives:
   * the same fields in the same order, differing only in their vegetation
   * index. A failed annotation skips the call and only logs the warning.
   */
  lemma ProPlanAnnotatesCopy(fields: seq<Field>, log: seq<LogEntry>, schedule: seq<IrrigationEvent>,
                             ndvi: Outcome<seq<real>>, oracle: Outcome<seq<IrrigationEvent>>, now: int)
    requires ndvi.Ok? ==> |ndvi.value| == |fields|
    ensures var r := ScheduleRun(Some(ManajerPro), fields, log, schedule, ndvi, oracle, now);
            && (ndvi.Failed? ==>
                  && r.sent.None? && r.schedule == schedule
                  && r.log == [LogEntry(now, MsgScheduleFailed, Warning),
                               LogEntry(now, MsgFetchingSatellite, Info),
                               LogEntry(now, MsgAnalyzing, Info)] + log)
            && (ndvi.Ok? ==>
                  && r.sent.Some? && |r.sent.value| == |fields|
                  && forall i :: 0 <= i < |fields| ==>
                       r.sent.value[i].(ndvi := fields[i].ndvi) == fields[i]
                       && r.sent.value[i].ndvi == Some(ndvi.value[i]))
  {
  }

  /** The data an environmental refresh ends with. */
  datatype FetchOutcome =
    | FetchFailed
      /** The response lacks its `current` or `daily` section. */
    | MissingSections
      /**
       * The weather was set, then reading the growth data threw (no
       * `daily.shortwave_radiation_sum`), so the catch logged the warning.
       */
    | WeatherThenFailed(weather: WeatherData)
    | Reading(weather: WeatherData, solarRadiation: real, temperature: int,
              soilSeries: Option<seq<Option<real>>>)

  /** The crop named in the image request: the first crop, or "farm field". */
  function ImageCropLabel(cropTypes: seq<string>): (r: string)
    ensures |cropTypes| > 0 && cropTypes[0] != "" ==> r == cropTypes[0]
    ensures |cropTypes| == 0 || cropTypes[0] == "" ==> r == "farm field"
  {
    if |cropTypes| > 0 && cropTypes[0] != "" then cropTypes[0] else "farm field"
  }

  /**
   * The record `handleAddField` stores for a new field: the form's details
   * and location, a 50% reading with a five-entry history of 50s, and the
   * generated image. The store supplies the id.
   */
  function NewFieldRecord(id: string, input: NewField, imageUrl: string): (r: Field)
    ensures r.id == id && DetailsOf(r) == input.details && r.location == input.location
    ensures r.imageUrl == imageUrl && r.ndvi.None?
    ensures HistoryConsistent(r, 5)
    ensures forall k :: 0 <= k < 5 ==> r.soilMoistureHistory[k] == 50
  {
    var d := input.details;
    Field(id, d.name, d.cropTypes, d.growthStage, d.soilType, d.irrigationSystemType, d.flowRate,
          input.location, 50, [50, 50, 50, 50, 50], imageUrl, None)
  }

  /** The root component's scheduling state. */
  class AppState {
    var fields: seq<Field>
    var schedule: seq<IrrigationEvent>
    var agentLog: seq<LogEntry>
    var weather: Option<WeatherData>
    var growth: Option<GrowthData>
    var isScheduleLoading: bool
    var initialScheduleGenerated: bool
    /** The signed-in user's plan; `None` while nobody is signed in. */
    var plan: Option<UserPlan>
    var isGuestMode: bool
    /** How many times the initial-schedule effect has started a generation. */
    ghost var initialRuns: nat

    ghost predicate Valid()
      reads this
    {
      initialRuns == if initialScheduleGenerated then 1 else 0
    }

    /** The component's first render: empty fields and schedule, the seeded log. */
    constructor (initialLog: seq<LogEntry>)
      ensures Valid()
      ensures fields == [] && schedule == [] && agentLog == initialLog
      ensures weather.None? && growth.None? && !isScheduleLoading && !initialScheduleGenerated
      ensures plan.None? && !isGuestMode && initialRuns == 0
    {
      fields, schedule, agentLog := [], [], initialLog;
      weather, growth := None, None;
      isScheduleLoading, initialScheduleGenerated := false, false;
      plan, isGuestMode := None, false;
      initialRuns := 0;
    }

    method AddAgentLogEntry(message: string, kind: LogKind, now: int)
      modifies this`agentLog
      ensures agentLog == AddEntry(old(agentLog), now, message, kind)
    {
      agentLog := [LogEntry(now, message, kind)] + agentLog;
    }

    /** The input guard of `generateSchedule`. */
    predicate InputsReady()
      reads this
    {
      weather.Some? && growth.Some? && |fields| > 0
    }

    /**
     * `generateSchedule`: nothing at all happens when weather, growth data or
     * fields are missing; otherwise the log and schedule end as `ScheduleRun`
     * says, the loading flag ends false, and the fields are never written.
     */
    method GenerateSchedule(ndvi: Outcome<seq<real>>, oracle: Outcome<seq<IrrigationEvent>>, now: int)
      returns (sent: Option<seq<Field>>)
      requires ndvi.Ok? ==> |ndvi.value| == |fields|
      modifies this`agentLog, this`schedule, this`isScheduleLoading
      ensures !old(InputsReady()) ==>
                sent.None? && agentLog == old(agentLog) && schedule == old(schedule)
                && isScheduleLoading == old(isScheduleLoading)
      ensures old(InputsReady()) ==>
                var r := ScheduleRun(plan, fields, old(agentLog), old(schedule), ndvi, oracle, now);
                agentLog == r.log && schedule == r.schedule && sent == r.sent && !isScheduleLoading
    {
      sent := None;
      if !(weather.Some? && growth.Some? && |fields| > 0) {
        return;
      }
      isScheduleLoading := true;
      AddAgentLogEntry(MsgAnalyzing, Info, now);
      var fieldsForCalculation := fields;
      var failed := false;
      if plan == Some(ManajerPro) {
        AddAgentLogEntry(MsgFetchingSatellite, Info, now);
        if ndvi.Failed? {
          failed := true;
        } else {
          fieldsForCalculation := WithNdvi(fields, ndvi.value);
          AddAgentLogEntry(MsgSatelliteSchedule, Action, now);
        }
      } else {
        AddAgentLogEntry(MsgBasicSchedule, Action, now);
      }
      if !failed {
        sent := Some(fieldsForCalculation);
        if oracle.Ok? {
          schedule := oracle.value;
        } else {
          failed := true;
        }
      }
      if failed {
        AddAgentLogEntry(MsgScheduleFailed, Warning, now);
      }
      isScheduleLoading := false;
    }

    /** The conditions of the initial-schedule effect. */
    predicate InitialConditions()
      reads this
    {
      InputsReady() && |schedule| == 0 && !isScheduleLoading && !initialScheduleGenerated
    }

    /**
     * The initial-schedule effect: it sets the latch before generating, so it
     * starts a generation at most once per session, whether that run succeeds
     * or fails.
     */
    method InitialScheduleEffect(ndvi: Outcome<seq<real>>, oracle: Outcome<seq<IrrigationEvent>>, now: int)
      returns (ran: bool)
      requires Valid()
      requires ndvi.Ok? ==> |ndvi.value| == |fields|
      modifies this`agentLog, this`schedule, this`isScheduleLoading, this`initialScheduleGenerated,
               this`initialRuns
      ensures Valid() && initialRuns <= 1
      ensures ran == old(InitialConditions())
      ensures ran ==> initialScheduleGenerated && old(initialRuns) == 0 && initialRuns == 1
      ensures !ran ==> agentLog == old(agentLog) && schedule == old(schedule)
                       && isScheduleLoading == old(isScheduleLoading)
                       && initialScheduleGenerated == old(initialScheduleGenerated)
      ensures ran ==>
                var r := ScheduleRun(plan, fields, old(agentLog), old(schedule), ndvi, oracle, now);
                agentLog == r.log && schedule == r.schedule && !isScheduleLoading
    {
      ran := weather.Some? && growth.Some? && |fields| > 0 && |schedule| == 0
             && !isScheduleLoading && !initialScheduleGenerated;
      if ran {
        initialScheduleGenerated := true;
        initialRuns := initialRuns + 1;
        var _ := GenerateSchedule(ndvi, oracle, now);
      }
    }

    /**
     * The environmental refresh: a failed fetch only logs a warning, a
     * response without its sections changes nothing, one that throws after
     * the weather is set keeps that weather and logs the warning, and a full response
     * replaces weather and growth data; a soil reading that is present, above
     * the -999 sentinel and not in guest mode also calibrates every field and
     * is logged. Without such a reading the fields are untouched and the
     * growth data carries no soil moisture.
     */
    method ApplyEnvironmentalData(fetch: FetchOutcome, now: int)
      modifies this`weather, this`growth, this`fields, this`agentLog
      ensures fetch.FetchFailed? ==>
                agentLog == AddEntry(old(agentLog), now, MsgFetchFailed, Warning)
                && fields == old(fields) && weather == old(weather) && growth == old(growth)
      ensures fetch.MissingSections? ==>
                agentLog == old(agentLog) && fields == old(fields)
                && weather == old(weather) && growth == old(growth)
      ensures fetch.WeatherThenFailed? ==>
                weather == Some(fetch.weather)
                && agentLog == AddEntry(old(agentLog), now, MsgFetchFailed, Warning)
                && fields == old(fields) && growth == old(growth)
      ensures fetch.Reading? ==>
                var p := CalibrationPercent(FirstReading(fetch.soilSeries), isGuestMode);
                && weather == Some(fetch.weather)
                && growth == Some(GrowthData(fetch.solarRadiation, fetch.temperature, p))
                && (p.Some? ==> fields == CalibrateFields(old(fields), p.value)
                                && agentLog == AddEntry(old(agentLog), now, MsgCalibrated(p.value), Info))
                && (p.None? ==> fields == old(fields) && agentLog == old(agentLog))
    {
      match fetch
      case FetchFailed =>
        AddAgentLogEntry(MsgFetchFailed, Warning, now);
      case MissingSections =>
      case WeatherThenFailed(w) =>
        weather := Some(w);
        AddAgentLogEntry(MsgFetchFailed, Warning, now);
      case Reading(w, solar, temperature, series) =>
        weather := Some(w);
        var newGrowth := GrowthData(solar, temperature, None);
        var vol := if series.Some? && |series.value| > 0 then series.value[0] else None;
        if vol.Some? && vol.value > -999.0 && !isGuestMode {
          var p := Round(vol.value * 100.0);
          newGrowth := newGrowth.(soilMoisture := Some(p));
          fields := CalibrateFields(fields, p);
          AddAgentLogEntry(MsgCalibrated(p), Info, now);
        }
        growth := Some(newGrowth);
    }
  }
}
