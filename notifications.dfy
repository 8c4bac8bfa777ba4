/**
 * The alert dedup engine (App.tsx, the two Pro notification effects). Two
 * key sets remember what has been announced: the ids of fields already
 * alerted for critical moisture, re-armed only once the moisture is back to
 * 40% or more, and the (field id, start time) identities of irrigation
 * events already reminded. Alerts are returned as records instead of being
 * handed to the browser.
 */
module Notifications {
  import opened Types

  /** Below this moisture a field is critical. */
  const CriticalMoisture := 35
  /** At or above this moisture a critical field is re-armed. */
  const RestoredMoisture := 40
  /** A reminder fires when the start is more than 5 and at most 10 minutes away. */
  const ReminderLeadMin := 5 * 60 * 1000
  const ReminderLeadMax := 10 * 60 * 1000

  /** The `${fieldId}-${startTime.toISOString()}` identity of an event. */
  datatype ReminderKey = ReminderKey(fieldId: string, startTime: Date)

  datatype Alert =
    | LowMoistureAlert(fieldId: string, fieldName: string, moisture: int)
    | ReminderAlert(key: ReminderKey, fieldName: string, minutes: int)

  /** Both effects act only for the Pro plan with notifications granted. */
  predicate AlertsEnabled(plan: Option<UserPlan>, permission: Permission) {
    plan == Some(ManajerPro) && permission == Granted
  }

  // ---------------------------------------------------------------------
  // Low-moisture alerts

  /** One field of the `forEach`: alert and remember, forget, or leave alone. */
  function LowMoistureStep(alerted: set<string>, f: Field): (r: (set<string>, seq<Alert>))
    ensures f.soilMoisture < CriticalMoisture && f.id !in alerted ==>
              r == (alerted + {f.id}, [LowMoistureAlert(f.id, f.name, f.soilMoisture)])
    ensures (f.soilMoisture >= CriticalMoisture || f.id in alerted) ==> r.1 == []
    ensures f.soilMoisture >= RestoredMoisture ==> r.0 == alerted - {f.id}
    ensures CriticalMoisture <= f.soilMoisture < RestoredMoisture ==> r.0 == alerted
    ensures f.soilMoisture < CriticalMoisture ==> f.id in r.0 && r.0 - {f.id} == alerted - {f.id}
  {
    if f.soilMoisture < CriticalMoisture && f.id !in alerted then
      (alerted + {f.id}, [LowMoistureAlert(f.id, f.name, f.soilMoisture)])
    else if f.soilMoisture >= RestoredMoisture then (alerted - {f.id}, [])
    else (alerted, [])
  }

  /** The `forEach` over the fields, in order, as a left fold. */
  function LowMoistureScan(alerted: set<string>, fields: seq<Field>): (r: (set<string>, seq<Alert>))
    decreases |fields|
  {
    if |fields| == 0 then (alerted, [])
    else
      var prev := LowMoistureScan(alerted, fields[..|fields| - 1]);
      var step := LowMoistureStep(prev.0, fields[|fields| - 1]);
      (step.0, prev.1 + step.1)
  }

  predicate DistinctIds(fields: seq<Field>) {
    forall i, j :: 0 <= i < j < |fields| ==> fields[i].id != fields[j].id
  }

  /** Reference definition: the fields that are critical and not yet alerted. */
  function ExpectedLowAlerts(alerted: set<string>, fields: seq<Field>): seq<Alert>
    decreases |fields|
  {
    if |fields| == 0 then []
    else
      var f := fields[|fields| - 1];
      ExpectedLowAlerts(alerted, fields[..|fields| - 1])
      + (if f.soilMoisture < CriticalMoisture && f.id !in alerted
         then [LowMoistureAlert(f.id, f.name, f.soilMoisture)] else [])
  }

  /**
   * Over fields with distinct ids, a tick alerts exactly the critical fields
   * not yet alerted, in field order; afterwards a listed field is in the
   * set iff it is critical, or it was in the set and has not reached 40%;
   * ids of fields not listed keep their membership.
   */
  lemma {:induction false} LowMoistureScanSpec(alerted: set<string>, fields: seq<Field>)
    requires DistinctIds(fields)
    ensures LowMoistureScan(alerted, fields).1 == ExpectedLowAlerts(alerted, fields)
    ensures forall i :: 0 <= i < |fields| ==>
              (fields[i].id in LowMoistureScan(alerted, fields).0 <==>
                 fields[i].soilMoisture < CriticalMoisture
                 || (fields[i].id in alerted && fields[i].soilMoisture < RestoredMoisture))
    ensures forall id :: (forall i :: 0 <= i < |fields| ==> fields[i].id != id) ==>
              (id in LowMoistureScan(alerted, fields).0 <==> id in alerted)
    decreases |fields|
  {
    if |fields| > 0 {
      var n := |fields| - 1;
      var init := fields[..n];
      var f := fields[n];
      assert DistinctIds(init);
      LowMoistureScanSpec(alerted, init);
      var prev := LowMoistureScan(alerted, init);
      assert forall i :: 0 <= i < n ==> init[i].id != f.id;
      assert f.id in prev.0 <==> f.id in alerted;
      assert forall i :: 0 <= i < n ==> fields[i] == init[i];
    }
  }

  /** How many alerts a scan raises. */
  function AlertCount(alerted: set<string>, fields: seq<Field>): nat {
    |LowMoistureScan(alerted, fields).1|
  }

  /**
   * Hysteresis: successive readings of one field that stay below 40% raise
   * at most one alert, and one exactly when the field was armed and some
   * reading fell below 35%; the field then stays in the set.
   */
  lemma {:induction false} HysteresisAlertsOnce(alerted: set<string>, id: string, readings: seq<Field>)
    requires forall i :: 0 <= i < |readings| ==> readings[i].id == id
    requires forall i :: 0 <= i < |readings| ==> readings[i].soilMoisture < RestoredMoisture
    ensures AlertCount(alerted, readings) <= 1
    ensures AlertCount(alerted, readings) == 1 <==>
              id !in alerted && exists i :: 0 <= i < |readings| && readings[i].soilMoisture < CriticalMoisture
    ensures id in LowMoistureScan(alerted, readings).0 <==>
              id in alerted || exists i :: 0 <= i < |readings| && readings[i].soilMoisture < CriticalMoisture
    decreases |readings|
  {
    if |readings| > 0 {
      var n := |readings| - 1;
      var init := readings[..n];
      HysteresisAlertsOnce(alerted, id, init);
      assert forall i :: 0 <= i < n ==> init[i] == readings[i];
      if exists i :: 0 <= i < n && init[i].soilMoisture < CriticalMoisture {
        var i :| 0 <= i < n && init[i].soilMoisture < CriticalMoisture;
        assert readings[i].soilMoisture < CriticalMoisture;
      }
    }
  }

  /** A reading of 40% or more re-arms the field, so the next drop alerts again. */
  lemma RestoredRearms(alerted: set<string>, restored: Field, critical: Field)
    requires restored.id == critical.id
    requires restored.soilMoisture >= RestoredMoisture
    requires critical.soilMoisture < CriticalMoisture
    ensures LowMoistureScan(alerted, [restored, critical]).1
            == [LowMoistureAlert(critical.id, critical.name, critical.soilMoisture)]
  {
    assert [restored, critical][..1] == [restored];
    assert [restored][..0] == [];
    assert LowMoistureScan(alerted, []) == (alerted, []);
    var first := LowMoistureScan(alerted, [restored]);
    assert first == (LowMoistureStep(alerted, restored).0, [] + LowMoistureStep(alerted, restored).1);
    assert first.0 == alerted - {restored.id};
    assert LowMoistureScan(alerted, [restored, critical]).1
           == first.1 + LowMoistureStep(first.0, critical).1;
  }

  // ---------------------------------------------------------------------
  // Irrigation reminders

  function KeyOf(e: IrrigationEvent): ReminderKey {
    ReminderKey(e.fieldId, e.startTime)
  }

  /** `5 < (start - now) / 60000 <= 10`, in whole milliseconds, for a valid start time. */
  predicate InReminderWindow(e: IrrigationEvent, now: int) {
    e.startTime.Time? && ReminderLeadMin < e.startTime.ms - now <= ReminderLeadMax
  }

  /** `Math.round(ms / 60000)`. */
  function RoundedMinutes(ms: int): (r: int)
    ensures r * 60000 - 30000 <= ms < r * 60000 + 30000
  {
    (ms + 30000) / 60000
  }

  /** One event of the sweep's `forEach`. */
  function ReminderStep(reminded: set<ReminderKey>, e: IrrigationEvent, fields: seq<Field>, now: int)
    : (r: (set<ReminderKey>, seq<Alert>))
    ensures (KeyOf(e) in reminded || e.status != Scheduled || !InReminderWindow(e, now)) ==>
              r == (reminded, [])
    ensures (KeyOf(e) !in reminded && e.status == Scheduled && InReminderWindow(e, now)) ==>
              && r.0 == reminded + {KeyOf(e)}
              && |r.1| == 1 && r.1[0].ReminderAlert? && r.1[0].key == KeyOf(e)
              && r.1[0].fieldName == FieldNameOr(fields, e.fieldId, "Unknown Field")
              && r.1[0].minutes == RoundedMinutes(e.startTime.ms - now)
  {
    var key := KeyOf(e);
    if key in reminded || e.status != Scheduled then (reminded, [])
    else if InReminderWindow(e, now) then
      (reminded + {key},
       [ReminderAlert(key, FieldNameOr(fields, e.fieldId, "Unknown Field"), RoundedMinutes(e.startTime.ms - now))])
    else (reminded, [])
  }

  /** The sweep over the schedule, in order, as a left fold. */
  function ReminderScan(reminded: set<ReminderKey>, schedule: seq<IrrigationEvent>, fields: seq<Field>, now: int)
    : (r: (set<ReminderKey>, seq<Alert>))
    decreases |schedule|
  {
    if |schedule| == 0 then (reminded, [])
    else
      var prev := ReminderScan(reminded, schedule[..|schedule| - 1], fields, now);
      var step := ReminderStep(prev.0, schedule[|schedule| - 1], fields, now);
      (step.0, prev.1 + step.1)
  }

  /** The identities a list of alerts reminds about. */
  function RemindedKeys(alerts: seq<Alert>): set<ReminderKey> {
    set i | 0 <= i < |alerts| && alerts[i].ReminderAlert? :: alerts[i].key
  }

  /** Only reminder alerts, with pairwise distinct identities, none in `reminded`. */
  predicate FreshReminders(reminded: set<ReminderKey>, alerts: seq<Alert>) {
    && (forall i :: 0 <= i < |alerts| ==> alerts[i].ReminderAlert? && alerts[i].key !in reminded)
    && (forall i, j :: 0 <= i < j < |alerts| ==> alerts[i].key != alerts[j].key)
  }

  /**
   * A sweep reminds each identity at most once, never one already
   * reminded, and afterwards the set holds exactly the old identities and
   * the new ones.
   */
  lemma {:induction false} ReminderScanFresh(reminded: set<ReminderKey>, schedule: seq<IrrigationEvent>,
                                            fields: seq<Field>, now: int)
    ensures FreshReminders(reminded, ReminderScan(reminded, schedule, fields, now).1)
    ensures ReminderScan(reminded, schedule, fields, now).0
            == reminded + RemindedKeys(ReminderScan(reminded, schedule, fields, now).1)
    decreases |schedule|
  {
    if |schedule| > 0 {
      var n := |schedule| - 1;
      ReminderScanFresh(reminded, schedule[..n], fields, now);
      var prev := ReminderScan(reminded, schedule[..n], fields, now);
      var step := ReminderStep(prev.0, schedule[n], fields, now);
      var all := prev.1 + step.1;
      if |step.1| == 1 {
        assert all[|prev.1|] == step.1[0];
        assert forall i :: 0 <= i < |prev.1| ==> all[i] == prev.1[i];
        assert forall i :: 0 <= i < |prev.1| ==> prev.1[i].key in prev.0;
        assert RemindedKeys(all) == RemindedKeys(prev.1) + {KeyOf(schedule[n])};
      } else {
        assert all == prev.1;
      }
    }
  }

  /** What a reminder sweep is owed: the Scheduled, un-reminded events in the window. */
  function ExpectedReminderKeys(reminded: set<ReminderKey>, schedule: seq<IrrigationEvent>, now: int)
    : seq<ReminderKey>
    decreases |schedule|
  {
    if |schedule| == 0 then []
    else
      var e := schedule[|schedule| - 1];
      ExpectedReminderKeys(reminded, schedule[..|schedule| - 1], now)
      + (if e.status == Scheduled && KeyOf(e) !in reminded && InReminderWindow(e, now) then [KeyOf(e)] else [])
  }

  function AlertKeys(alerts: seq<Alert>): (r: seq<ReminderKey>)
    requires forall i :: 0 <= i < |alerts| ==> alerts[i].ReminderAlert?
    ensures |r| == |alerts| && forall i :: 0 <= i < |alerts| ==> r[i] == alerts[i].key
  {
    if |alerts| == 0 then [] else AlertKeys(alerts[..|alerts| - 1]) + [alerts[|alerts| - 1].key]
  }

  predicate DistinctKeys(schedule: seq<IrrigationEvent>) {
    forall i, j :: 0 <= i < j < |schedule| ==> KeyOf(schedule[i]) != KeyOf(schedule[j])
  }

  /**
   * Over a schedule whose identities are distinct, a sweep reminds exactly
   * the Scheduled events that are in the window and not yet reminded, in
   * schedule order.
   */
  lemma {:induction false} ReminderScanSpec(reminded: set<ReminderKey>, schedule: seq<IrrigationEvent>,
                                           fields: seq<Field>, now: int)
    requires DistinctKeys(schedule)
    ensures forall i :: 0 <= i < |ReminderScan(reminded, schedule, fields, now).1| ==>
              ReminderScan(reminded, schedule, fields, now).1[i].ReminderAlert?
    ensures AlertKeys(ReminderScan(reminded, schedule, fields, now).1)
            == ExpectedReminderKeys(reminded, schedule, now)
    decreases |schedule|, 0
  {
    ReminderScanFresh(reminded, schedule, fields, now);
    if |schedule| > 0 {
      var n := |schedule| - 1;
      var init := schedule[..n];
      var e := schedule[n];
      assert DistinctKeys(init);
      ReminderScanSpec(reminded, init, fields, now);
      var prev := ReminderScan(reminded, init, fields, now);
      UnlistedKeyNotReminded(reminded, init, fields, now, KeyOf(e));
      var step := ReminderStep(prev.0, e, fields, now);
      AlertKeysAppend(prev.1, step.1);
    }
  }

  lemma AlertKeysAppend(a: seq<Alert>, b: seq<Alert>)
    requires forall i :: 0 <= i < |a| ==> a[i].ReminderAlert?
    requires forall i :: 0 <= i < |b| ==> b[i].ReminderAlert?
    ensures AlertKeys(a + b) == AlertKeys(a) + AlertKeys(b)
  {
    assert forall i :: 0 <= i < |a + b| ==> (a + b)[i].ReminderAlert?;
  }

  /** A sweep over events none of which carries `key` leaves `key`'s membership alone. */
  lemma UnlistedKeyNotReminded(reminded: set<ReminderKey>, schedule: seq<IrrigationEvent>,
                               fields: seq<Field>, now: int, key: ReminderKey)
    requires forall i :: 0 <= i < |schedule| ==> KeyOf(schedule[i]) != key
    requires DistinctKeys(schedule)
    ensures key in ReminderScan(reminded, schedule, fields, now).0 <==> key in reminded
    decreases |schedule|, 1
  {
    ReminderScanFresh(reminded, schedule, fields, now);
    ReminderScanSpec(reminded, schedule, fields, now);
    NoExpectedKeyOutside(reminded, schedule, now, key);
    var r := ReminderScan(reminded, schedule, fields, now);
  }

  /** An identity that no event of the schedule carries is never owed a reminder. */
  lemma {:induction false} NoExpectedKeyOutside(reminded: set<ReminderKey>, schedule: seq<IrrigationEvent>,
                                               now: int, key: ReminderKey)
    requires forall i :: 0 <= i < |schedule| ==> KeyOf(schedule[i]) != key
    ensures forall i :: 0 <= i < |ExpectedReminderKeys(reminded, schedule, now)| ==>
              ExpectedReminderKeys(reminded, schedule, now)[i] != key
    decreases |schedule|
  {
    if |schedule| > 0 {
      NoExpectedKeyOutside(reminded, schedule[..|schedule| - 1], now, key);
    }
  }

  /**
   * How far a sweep gets: `toISOString()` throws on the first event whose
   * start time is the invalid date, which ends the `forEach` there.
   */
  function SweepLength(schedule: seq<IrrigationEvent>): (n: nat)
    ensures n <= |schedule|
    ensures forall i :: 0 <= i < n ==> schedule[i].startTime.Time?
    ensures n < |schedule| ==> schedule[n].startTime.InvalidDate?
  {
    if |schedule| == 0 || schedule[0].startTime.InvalidDate? then 0
    else
      assert forall i :: 1 <= i < |schedule| ==> schedule[i] == schedule[1..][i - 1];
      1 + SweepLength(schedule[1..])
  }

  /** One sweep as it happens: the fold over the events before the first invalid start time. */
  function SweepScan(reminded: set<ReminderKey>, schedule: seq<IrrigationEvent>, fields: seq<Field>, now: int)
    : (set<ReminderKey>, seq<Alert>)
  {
    ReminderScan(reminded, schedule[..SweepLength(schedule)], fields, now)
  }

  /**
   * An invalid start time cuts the sweep short: the events after it are
   * never looked at, whatever they are, and those before it are swept as
   * usual.
   */
  lemma InvalidStartStopsSweep(reminded: set<ReminderKey>, before: seq<IrrigationEvent>, bad: IrrigationEvent,
                               after: seq<IrrigationEvent>, fields: seq<Field>, now: int)
    requires forall i :: 0 <= i < |before| ==> before[i].startTime.Time?
    requires bad.startTime.InvalidDate?
    ensures SweepScan(reminded, before + [bad] + after, fields, now) == ReminderScan(reminded, before, fields, now)
  {
    var s := before + [bad] + after;
    var n := SweepLength(s);
    assert s[|before|] == bad;
    assert n == |before|;
    assert s[..n] == before;
  }

  /** With every start time valid, a sweep covers the whole schedule. */
  lemma ValidStartsSweepAll(reminded: set<ReminderKey>, schedule: seq<IrrigationEvent>, fields: seq<Field>, now: int)
    requires forall i :: 0 <= i < |schedule| ==> schedule[i].startTime.Time?
    ensures SweepScan(reminded, schedule, fields, now) == ReminderScan(reminded, schedule, fields, now)
  {
    assert schedule[..|schedule|] == schedule;
  }

  /** One firing of the 30-second interval: the schedule, fields and clock it sees. */
  datatype Sweep = Sweep(schedule: seq<IrrigationEvent>, fields: seq<Field>, now: int)

  /** Successive sweeps with no clearing in between. */
  function Sweeps(reminded: set<ReminderKey>, sweeps: seq<Sweep>): (set<ReminderKey>, seq<Alert>)
    decreases |sweeps|
  {
    if |sweeps| == 0 then (reminded, [])
    else
      var prev := Sweeps(reminded, sweeps[..|sweeps| - 1]);
      var w := sweeps[|sweeps| - 1];
      var next := SweepScan(prev.0, w.schedule, w.fields, w.now);
      (next.0, prev.1 + next.1)
  }

  /**
   * Until the set is cleared, each (field id, start time) identity is
   * reminded at most once, however the schedule is recomputed between
   * sweeps: a recomputed event with an unchanged start time never re-fires.
   */
  lemma {:induction false} SweepsRemindOnce(reminded: set<ReminderKey>, sweeps: seq<Sweep>)
    ensures FreshReminders(reminded, Sweeps(reminded, sweeps).1)
    ensures Sweeps(reminded, sweeps).0 == reminded + RemindedKeys(Sweeps(reminded, sweeps).1)
    decreases |sweeps|
  {
    if |sweeps| > 0 {
      var n := |sweeps| - 1;
      SweepsRemindOnce(reminded, sweeps[..n]);
      var prev := Sweeps(reminded, sweeps[..n]);
      var w := sweeps[n];
      ReminderScanFresh(prev.0, w.schedule[..SweepLength(w.schedule)], w.fields, w.now);
      var next := SweepScan(prev.0, w.schedule, w.fields, w.now);
      RemindedKeysAppend(prev.1, next.1);
      FreshAppend(reminded, prev.1, next.1);
    }
  }

  /** The identities of two lists of alerts run one after the other. */
  lemma RemindedKeysAppend(a: seq<Alert>, b: seq<Alert>)
    ensures RemindedKeys(a + b) == RemindedKeys(a) + RemindedKeys(b)
  {
    var all := a + b;
    forall k | k in RemindedKeys(b) ensures k in RemindedKeys(all) {
      var i :| 0 <= i < |b| && b[i].ReminderAlert? && b[i].key == k;
      assert all[|a| + i] == b[i];
    }
    forall k | k in RemindedKeys(a) ensures k in RemindedKeys(all) {
      var i :| 0 <= i < |a| && a[i].ReminderAlert? && a[i].key == k;
      assert all[i] == a[i];
    }
    forall k | k in RemindedKeys(all) ensures k in RemindedKeys(a) + RemindedKeys(b) {
      var i :| 0 <= i < |all| && all[i].ReminderAlert? && all[i].key == k;
      if i < |a| {
        assert all[i] == a[i];
      } else {
        assert all[i] == b[i - |a|];
      }
    }
  }

  /** Fresh alerts followed by alerts fresh against everything reminded so far stay fresh together. */
  lemma FreshAppend(reminded: set<ReminderKey>, a: seq<Alert>, b: seq<Alert>)
    requires FreshReminders(reminded, a)
    requires FreshReminders(reminded + RemindedKeys(a), b)
    ensures FreshReminders(reminded, a + b)
  {
    var all := a + b;
    forall i | 0 <= i < |a| ensures all[i] == a[i] && a[i].key in RemindedKeys(a) {
    }
    forall i | |a| <= i < |all| ensures all[i] == b[i - |a|] {
    }
  }

  // ---------------------------------------------------------------------
  // The engine: the two sets and the effects that read and update them

  class Notifier {
    var lowMoisture: set<string>
    var reminded: set<ReminderKey>

    constructor ()
      ensures lowMoisture == {} && reminded == {}
    {
      lowMoisture := {};
      reminded := {};
    }

    /** The low-moisture effect, run whenever the fields, user or permission change. */
    method LowMoistureEffect(plan: Option<UserPlan>, permission: Permission, fields: seq<Field>)
      returns (alerts: seq<Alert>)
      modifies this`lowMoisture
      ensures !AlertsEnabled(plan, permission) ==> alerts == [] && lowMoisture == old(lowMoisture)
      ensures AlertsEnabled(plan, permission) ==>
                (lowMoisture, alerts) == LowMoistureScan(old(lowMoisture), fields)
    {
      alerts := [];
      if !AlertsEnabled(plan, permission) {
        return;
      }
      var i := 0;
      while i < |fields|
        invariant 0 <= i <= |fields|
        invariant (lowMoisture, alerts) == LowMoistureScan(old(lowMoisture), fields[..i])
      {
        assert fields[..i + 1][..i] == fields[..i] && fields[..i + 1][i] == fields[i];
        var f := fields[i];
        ghost var step := LowMoistureStep(lowMoisture, f);
        ghost var before := alerts;
        assert LowMoistureScan(old(lowMoisture), fields[..i + 1]) == (step.0, alerts + step.1);
        if f.soilMoisture < CriticalMoisture && f.id !in lowMoisture {
          alerts := alerts + [LowMoistureAlert(f.id, f.name, f.soilMoisture)];
          lowMoisture := lowMoisture + {f.id};
        } else if f.soilMoisture >= RestoredMoisture {
          lowMoisture := lowMoisture - {f.id};
        }
        assert lowMoisture == step.0 && alerts == before + step.1;
        i := i + 1;
      }
      assert fields[..|fields|] == fields;
    }

    /**
     * The reminder effect's body: when alerts are disabled or the schedule is
     * empty it clears the reminded set and arms no timer; the low-moisture
     * set is never touched.
     */
    method ReminderEffect(plan: Option<UserPlan>, permission: Permission, schedule: seq<IrrigationEvent>)
      returns (armed: bool)
      modifies this`reminded
      ensures armed <==> AlertsEnabled(plan, permission) && |schedule| > 0
      ensures !armed ==> reminded == {}
      ensures armed ==> reminded == old(reminded)
    {
      armed := AlertsEnabled(plan, permission) && |schedule| > 0;
      if !armed {
        reminded := {};
      }
    }

    /**
     * One firing of the armed 30-second interval. `thrown` reports the
     * `RangeError` that an invalid start time raises; the alerts shown
     * before it stay shown and the identities stay remembered.
     */
    method ReminderSweep(schedule: seq<IrrigationEvent>, fields: seq<Field>, now: int)
      returns (alerts: seq<Alert>, thrown: bool)
      modifies this`reminded
      ensures (reminded, alerts) == SweepScan(old(reminded), schedule, fields, now)
      ensures thrown <==> exists i :: 0 <= i < |schedule| && schedule[i].startTime.InvalidDate?
    {
      alerts := [];
      var i := 0;
      while i < |schedule| && schedule[i].startTime.Time?
        invariant 0 <= i <= SweepLength(schedule)
        invariant (reminded, alerts) == ReminderScan(old(reminded), schedule[..i], fields, now)
      {
        assert schedule[..i + 1][..i] == schedule[..i] && schedule[..i + 1][i] == schedule[i];
        var e := schedule[i];
        ghost var step := ReminderStep(reminded, e, fields, now);
        ghost var before := alerts;
        assert ReminderScan(old(reminded), schedule[..i + 1], fields, now) == (step.0, alerts + step.1);
        var key := ReminderKey(e.fieldId, e.startTime);
        if key !in reminded && e.status == Scheduled {
          var diff := e.startTime.ms - now;
          if ReminderLeadMin < diff <= ReminderLeadMax {
            var name := FieldNameOr(fields, e.fieldId, "Unknown Field");
            alerts := alerts + [ReminderAlert(key, name, (diff + 30000) / 60000)];
            reminded := reminded + {key};
          }
        }
        assert reminded == step.0 && alerts == before + step.1;
        i := i + 1;
      }
      assert i == SweepLength(schedule);
      thrown := i < |schedule|;
    }
  }
}
