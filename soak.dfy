/** The heat-soak app (apps/peakefficiency/main.py): while the home is in away
    mode it heats the zones that are in "heat" mode one after the other,
    holding each above its setback for a fixed time, then restores it.  One
    zone is in flight at a time; its `ClimateState` sits in a single cache slot
    and a Home Assistant timer marks when to restore it, so a restart can pick
    up the run where it stopped.

    Every callback is a pure step from one `AppState` to the next, reading one
    snapshot of Home Assistant; the class `PeakEfficiency` performs the same
    steps on its fields and is proved equal to them. */
module PeakEfficiencyApp {
  import opened Common
  import opened HomeAssistant
  import Forecast

  const RestoreTemperatureTimer := "timer.peak_efficiency_retore_temperature"
  const DryRun := "input_boolean.peak_efficiency_dry_run"
  const OutdoorTemperatureSensor := "sensor.condenser_temperature_sensor_temperature"
  const AwayModeEnabled := "input_boolean.home_away_mode_enabled"
  const PeakEfficiencyDisabled := "input_boolean.peak_efficiency_disabled"
  const SetTemperatureService := "climate/set_temperature"

  /** 15:00 as seconds after midnight. */
  const DefaultRunAt := 15 * 3600
  /** Seconds a zone is heated when it has no duration of its own. */
  const DefaultHeatingDuration := 20 * 60

  const HeatDurations: map<string, int> := map[
    "climate.main_floor" := 40 * 60,
    "climate.master_bedroom" := 20 * 60,
    "climate.basement_master" := 20 * 60,
    "climate.basement_bunk_rooms" := 30 * 60,
    "climate.ski_room" := 10 * 60]

  /** `list(heat_durations.keys())`, in insertion order. */
  const FullEntityList: seq<string> := [
    "climate.main_floor",
    "climate.master_bedroom",
    "climate.basement_master",
    "climate.basement_bunk_rooms",
    "climate.ski_room"]

  /** What `initialize` fixes once: the zones, their durations and the two
      temperatures read from the away-mode helpers. */
  datatype Config = Config(
    fullEntityList: seq<string>,
    heatDurations: map<string, int>,
    heatToTemp: real,
    restoreTemp: real)

  function DefaultConfig(heatToTemp: real, restoreTemp: real): Config {
    Config(FullEntityList, HeatDurations, heatToTemp, restoreTemp)
  }

  /** The zone list is the key set of the duration map, without repeats. */
  ghost predicate ValidConfig(c: Config) {
    Distinct(c.fullEntityList) &&
    forall e :: e in c.fullEntityList <==> e in c.heatDurations
  }

  /** `heat_durations.get(climate, DEFAULT_HEATING_DURATION)`. */
  function HeatDuration(c: Config, climate: string): int {
    if climate in c.heatDurations then c.heatDurations[climate] else DefaultHeatingDuration
  }

  /** Sum of the durations of `zones`, in seconds. */
  function SumDurations(c: Config, zones: seq<string>): int {
    if zones == [] then 0 else HeatDuration(c, zones[0]) + SumDurations(c, zones[1..])
  }

  /** `sum(heat_durations.values()) / 60`: the whole run, in minutes. */
  function TotalRunMinutes(c: Config): real {
    SumDurations(c, c.fullEntityList) as real / 60.0
  }

  /** The built-in configuration is valid and a full run takes two hours. */
  lemma DefaultConfigFacts(heatToTemp: real, restoreTemp: real)
    ensures ValidConfig(DefaultConfig(heatToTemp, restoreTemp))
    ensures TotalRunMinutes(DefaultConfig(heatToTemp, restoreTemp)) == 120.0
  {
    var c := DefaultConfig(heatToTemp, restoreTemp);
    var l := c.fullEntityList;
    assert l[5..] == [] && l[4..][1..] == l[5..] && l[3..][1..] == l[4..];
    assert l[2..][1..] == l[3..] && l[1..][1..] == l[2..] && l[1..] == l[1..];
    assert SumDurations(c, l[4..]) == 600;
    assert SumDurations(c, l[3..]) == 2400;
    assert SumDurations(c, l[2..]) == 3600;
    assert SumDurations(c, l[1..]) == 4800;
    assert SumDurations(c, l) == 7200;
  }

  // ---------------------------------------------------------------------------
  // The in-flight slot

  /** The zone being heated, with the readings taken when it started. */
  datatype ClimateState = ClimateState(climate: string, outsideTemp: Option<string>, startTemp: Option<real>)

  /** A JSON scalar as `asdict` and `json.loads` see it. */
  datatype Value = Str(text: string) | Num(number: real) | Null

  /** The decoded JSON object stored in the slot. */
  type Record = map<string, Value>

  const ClimateStateFields: set<string> := {"climate", "outside_temp", "start_temp"}

  /** `asdict(state)`, the object `to_json` writes. */
  function ToRecord(cs: ClimateState): (r: Record)
    ensures r.Keys == ClimateStateFields
    ensures r["climate"] == Str(cs.climate)
  {
    map[
      "climate" := Str(cs.climate),
      "outside_temp" := if cs.outsideTemp.Some? then Str(cs.outsideTemp.value) else Null,
      "start_temp" := if cs.startTemp.Some? then Num(cs.startTemp.value) else Null]
  }

  /** `ClimateState(**data)`: a missing or unexpected key is a TypeError. */
  function FromRecord(r: Record): (res: Result<ClimateState>)
    ensures r.Keys != ClimateStateFields ==> res == Err(TypeError)
    ensures res.Err? ==> res.error == TypeError
    ensures res.Ok? ==> ToRecord(res.value) == r
  {
    if r.Keys != ClimateStateFields then Err(TypeError)
    else
      var climate, outside, start := r["climate"], r["outside_temp"], r["start_temp"];
      if !climate.Str? || outside.Num? || start.Str? then Err(TypeError)
      else
        var cs := ClimateState(
          climate.text,
          if outside.Str? then Some(outside.text) else None,
          if start.Num? then Some(start.number) else None);
        assert ToRecord(cs).Keys == r.Keys;
        Ok(cs)
  }

  /** `from_json(to_json(state)) == state`. */
  lemma RecordRoundTrip(cs: ClimateState)
    ensures FromRecord(ToRecord(cs)) == Ok(cs)
  {
  }

  // ---------------------------------------------------------------------------
  // What the app does to the outside world

  /** Service calls and scheduler requests, in the order they are made. */
  datatype Call =
    | SetTemperature(service: string, entity: string, temperature: real)
    | StartTimer(timer: string, duration: int)
    | RunDaily(handle: nat, at: int)
    | CancelTimer(handle: nat)

  /** The log lines, by kind and the values they mention. */
  datatype Note =
    | DisabledNote
    | NothingToDo
    | StartingOverride(count: nat)
    | AllProcessed
    | Overriding(climate: string, temperature: real, minutes: int)
    | SettingTemperature(dryRun: bool, climate: string, temperature: real)
    | StateSaved(state: ClimateState)
    | ZoneStateUnavailable
    | Restored(dryRun: bool, climate: string, temperature: real,
               outside: Option<string>, start: Option<real>, end: Option<real>)
    | NoLocation
    | BestStart(bestStart: Option<int>)
    | AlreadyScheduled(handle: nat)
    | WillRun(at: int)
    | WillNotRun
    | NoFinishesAt
    | TimerActive(climate: string, hours: int, minutes: int, seconds: int)

  /** The app's state: the queue, the cache slot, the daily-run handle, the
      next handle the scheduler will hand out, and what has been done. */
  datatype AppState = AppState(
    queue: seq<string>,
    slot: Option<Record>,
    scheduleHandle: Option<nat>,
    nextHandle: nat,
    calls: seq<Call>,
    logs: seq<Note>)

  function AddLog(s: AppState, n: Note): AppState {
    s.(logs := s.logs + [n])
  }

  /** The override call, which a dry run leaves out. */
  function Override(c: Config, climate: string, dry: bool): seq<Call> {
    if dry then [] else [SetTemperature(SetTemperatureService, climate, c.heatToTemp)]
  }

  /** The restore call, which a dry run leaves out. */
  function Restore(c: Config, climate: string, dry: bool): seq<Call> {
    if dry then [] else [SetTemperature(SetTemperatureService, climate, c.restoreTemp)]
  }

  // ---------------------------------------------------------------------------
  // The callbacks as steps

  /** `save_climate_state`: refuses to overwrite an occupied slot. */
  function SaveClimateStateStep(s: AppState, cs: ClimateState): (r: (AppState, Outcome))
    ensures r.1 == Pass <==> s.slot.None?
    ensures r.1.Fail? ==> r.1.error == ValueError && r.0 == s
    ensures r.1.Pass? ==> r.0.slot == Some(ToRecord(cs))
    ensures r.0.queue == s.queue && r.0.calls == s.calls && r.0.scheduleHandle == s.scheduleHandle
  {
    if s.slot.Some? then (s, Fail(ValueError))
    else (AddLog(s.(slot := Some(ToRecord(cs))), StateSaved(cs)), Pass)
  }

  /** `get_climate_state(clear_after_reading)`: ValueError on an empty slot;
      the slot is emptied only when asked, and before it is decoded. */
  function GetClimateStateStep(s: AppState, clear: bool): (r: (AppState, Result<ClimateState>))
    ensures r.1.Err? <==> s.slot.None? || FromRecord(s.slot.value).Err?
    ensures s.slot.None? ==> r.1 == Err(ValueError)
    ensures r.1.Ok? ==> s.slot == Some(ToRecord(r.1.value))
    ensures r.0.slot == if clear then None else s.slot
    ensures r.0.queue == s.queue && r.0.calls == s.calls && r.0.scheduleHandle == s.scheduleHandle
  {
    if s.slot.None? then (AddLog(s, ZoneStateUnavailable), Err(ValueError))
    else
      var s1 := if clear then s.(slot := None) else s;
      var got := FromRecord(s.slot.value);
      if got.Err? then (AddLog(s1, ZoneStateUnavailable), got) else (s1, got)
  }

  /** `process_next_zone`: pops the head, overrides it unless dry-running,
      saves it in the slot and starts the restore timer with its duration. */
  function ProcessNextZoneStep(c: Config, s: AppState, h: Home): (r: (AppState, Outcome))
    ensures s.queue == [] ==>
              r.1 == Pass && r.0.queue == [] && r.0.slot == s.slot && r.0.calls == s.calls
    ensures s.queue != [] ==> r.0.queue == s.queue[1..]
    ensures s.queue != [] ==> (r.1 == Pass <==> s.slot.None?)
    ensures s.queue != [] && r.1.Fail? ==>
              r.1.error == ValueError && r.0.slot == s.slot &&
              r.0.calls == s.calls + Override(c, s.queue[0], IsOn(h, DryRun))
    ensures s.queue != [] && r.1.Pass? ==>
              && r.0.slot == Some(ToRecord(ClimateState(s.queue[0],
                                   State(h, OutdoorTemperatureSensor),
                                   CurrentTemperature(h, s.queue[0]))))
              && r.0.calls == s.calls + Override(c, s.queue[0], IsOn(h, DryRun))
                              + [StartTimer(RestoreTemperatureTimer, HeatDuration(c, s.queue[0]))]
    ensures r.0.scheduleHandle == s.scheduleHandle && r.0.nextHandle == s.nextHandle
  {
    if s.queue == [] then (AddLog(s, AllProcessed), Pass)
    else
      var climate := s.queue[0];
      var duration := HeatDuration(c, climate);
      var dry := IsOn(h, DryRun);
      var s1 := AddLog(s.(queue := s.queue[1..]), Overriding(climate, c.heatToTemp, duration / 60));
      var s2 := AddLog(s1.(calls := s1.calls + Override(c, climate, dry)),
                       SettingTemperature(dry, climate, c.heatToTemp));
      var state := ClimateState(climate, State(h, OutdoorTemperatureSensor), CurrentTemperature(h, climate));
      var saved := SaveClimateStateStep(s2, state);
      if saved.1.Fail? then saved
      else (saved.0.(calls := saved.0.calls + [StartTimer(RestoreTemperatureTimer, duration)]), Pass)
  }

  /** `start_heat_soak`: unless disabled, queue the zones in "heat" mode in
      list order and start the first one. */
  function StartHeatSoakStep(c: Config, s: AppState, h: Home): (r: (AppState, Outcome))
    ensures IsOn(h, PeakEfficiencyDisabled) ==>
              r.1 == Pass && r.0.queue == s.queue && r.0.slot == s.slot && r.0.calls == s.calls
    ensures !IsOn(h, PeakEfficiencyDisabled) && HeatQueue(c.fullEntityList, h) == [] ==>
              r.1 == Pass && r.0.queue == [] && r.0.slot == s.slot && r.0.calls == s.calls
    ensures !IsOn(h, PeakEfficiencyDisabled) && HeatQueue(c.fullEntityList, h) != [] ==>
              var q := HeatQueue(c.fullEntityList, h);
              && r.0.queue == q[1..]
              && (r.1 == Pass <==> s.slot.None?)
              && (r.1.Pass? ==>
                    r.0.slot == Some(ToRecord(ClimateState(q[0],
                                  State(h, OutdoorTemperatureSensor), CurrentTemperature(h, q[0])))) &&
                    r.0.calls == s.calls + Override(c, q[0], IsOn(h, DryRun))
                                 + [StartTimer(RestoreTemperatureTimer, HeatDuration(c, q[0]))])
    ensures r.0.scheduleHandle == s.scheduleHandle && r.0.nextHandle == s.nextHandle
  {
    if IsOn(h, PeakEfficiencyDisabled) then (AddLog(s, DisabledNote), Pass)
    else
      var q := HeatQueue(c.fullEntityList, h);
      if q == [] then (AddLog(s.(queue := q), NothingToDo), Pass)
      else ProcessNextZoneStep(c, AddLog(s.(queue := q), StartingOverride(|q|)), h)
  }

  /** `stop_heat_soak`, run when the restore timer finishes: take the zone out
      of the slot, restore it unless dry-running, and start the next one. */
  function StopHeatSoakStep(c: Config, s: AppState, h: Home): (r: (AppState, Outcome))
    ensures r.1.Fail? <==> s.slot.None? || FromRecord(s.slot.value).Err?
    ensures r.1.Fail? ==> r.0.queue == s.queue && r.0.calls == s.calls &&
                          (s.slot.None? ==> r.1.error == ValueError)
    ensures r.1.Pass? ==>
              var done := FromRecord(s.slot.value).value;
              var dry := IsOn(h, DryRun);
              if s.queue == [] then
                r.0.queue == [] && r.0.slot == None &&
                r.0.calls == s.calls + Restore(c, done.climate, dry)
              else
                && r.0.queue == s.queue[1..]
                && r.0.slot == Some(ToRecord(ClimateState(s.queue[0],
                                      State(h, OutdoorTemperatureSensor), CurrentTemperature(h, s.queue[0]))))
                && r.0.calls == s.calls + Restore(c, done.climate, dry) + Override(c, s.queue[0], dry)
                                + [StartTimer(RestoreTemperatureTimer, HeatDuration(c, s.queue[0]))]
    ensures r.0.scheduleHandle == s.scheduleHandle && r.0.nextHandle == s.nextHandle
  {
    var got := GetClimateStateStep(s, true);
    if got.1.Err? then (got.0, Fail(got.1.error))
    else
      var done := got.1.value;
      var dry := IsOn(h, DryRun);
      var s1 := got.0.(calls := got.0.calls + Restore(c, done.climate, dry));
      var s2 := AddLog(s1, Restored(dry, done.climate, c.restoreTemp, done.outsideTemp, done.startTemp,
                                    CurrentTemperature(h, done.climate)));
      ProcessNextZoneStep(c, s2, h)
  }

  /** `datetime.time()` of a timestamp: seconds after midnight. */
  function TimeOfDay(t: int): (r: int)
    ensures 0 <= r < Forecast.SecondsPerDay
    ensures (t - r) % Forecast.SecondsPerDay == 0
  {
    t % Forecast.SecondsPerDay
  }

  /** The cancel request for the handle kept from an earlier schedule. */
  function CancelOld(s: AppState): seq<Call> {
    if s.scheduleHandle.Some? then [CancelTimer(s.scheduleHandle.value)] else []
  }

  /** The run time `schedule_energy_soak_run` picks, with the log line that
      reports it. */
  function PlanRun(c: Config, forecast: Option<seq<Forecast.Entry>>, now: int): Result<(int, Note)>
    requires TotalRunMinutes(c) > 0.0
  {
    if forecast.None? then Ok((DefaultRunAt, NoLocation))
    else
      match Forecast.WarmestStart(forecast.value, TotalRunMinutes(c), now)
      case Err(e) => Err(e)
      case Ok((best, _)) =>
        Ok((if best.Some? then TimeOfDay(best.value) else DefaultRunAt, BestStart(best)))
  }

  /** `schedule_energy_soak_run`.  `forecast` is the hourly forecast, None
      when no location is configured.  The run time is the time of day of
      the warmest window's start, or 15:00; any earlier handle is cancelled
      (and kept), and a daily run is armed only in away mode. */
  function ScheduleSoakRunStep(c: Config, s: AppState, h: Home,
                               forecast: Option<seq<Forecast.Entry>>, now: int): (AppState, Outcome)
    requires TotalRunMinutes(c) > 0.0
  {
    var planned := PlanRun(c, forecast, now);
    if planned.Err? then (s, Fail(planned.error))
    else
      (ArmDaily(s, h, planned.value.0, planned.value.1), Pass)
  }

  /** The rest of `schedule_energy_soak_run` once the run time is chosen:
      report it, cancel any earlier handle, and arm a daily run at `runAt`
      only in away mode. */
  function ArmDaily(s: AppState, h: Home, runAt: int, note: Note): AppState {
    var s1 := AddLog(s, note);
    var s2 := if s.scheduleHandle.Some? then
                AddLog(s1, AlreadyScheduled(s.scheduleHandle.value)).(calls := s1.calls + CancelOld(s))
              else s1;
    if IsOn(h, AwayModeEnabled) then
      AddLog(s2.(scheduleHandle := Some(s2.nextHandle), nextHandle := s2.nextHandle + 1,
                 calls := s2.calls + [RunDaily(s2.nextHandle, runAt)]), WillRun(runAt))
    else AddLog(s2, WillNotRun)
  }

  /** Field by field: `ArmDaily` reports the run time, cancels the earlier
      handle (keeping it), and arms a new handle only in away mode. */
  lemma ArmDailyFields(s: AppState, h: Home, runAt: int, note: Note)
    ensures var r := ArmDaily(s, h, runAt, note);
            var away := IsOn(h, AwayModeEnabled);
            && r.queue == s.queue && r.slot == s.slot
            && r.scheduleHandle == (if away then Some(s.nextHandle) else s.scheduleHandle)
            && r.nextHandle == (if away then s.nextHandle + 1 else s.nextHandle)
            && r.calls == s.calls + CancelOld(s) + (if away then [RunDaily(s.nextHandle, runAt)] else [])
            && r.logs == s.logs + [note]
                         + (if s.scheduleHandle.Some? then [AlreadyScheduled(s.scheduleHandle.value)] else [])
                         + [if away then WillRun(runAt) else WillNotRun]
  {
  }

  /** `schedule_energy_soak_run` fails only when the forecast is shorter than
      one window, and then changes nothing; otherwise it cancels any earlier
      handle without forgetting it, and arms a new daily run only in away
      mode. */
  lemma ScheduleCancelsThenArms(c: Config, s: AppState, h: Home,
                                forecast: Option<seq<Forecast.Entry>>, now: int)
    requires TotalRunMinutes(c) > 0.0
    ensures var r := ScheduleSoakRunStep(c, s, h, forecast, now);
            && (r.1.Fail? <==>
                forecast.Some? && |forecast.value| < Forecast.BlockSize(TotalRunMinutes(c)))
            && (r.1.Fail? ==> r.0 == s && r.1.error == ValueError)
            && (r.0.queue == s.queue && r.0.slot == s.slot)
            && (r.1.Pass? ==>
                r.0.scheduleHandle == if IsOn(h, AwayModeEnabled) then Some(s.nextHandle) else s.scheduleHandle)
            && (r.1.Pass? && !IsOn(h, AwayModeEnabled) ==> r.0.calls == s.calls + CancelOld(s))
            && (r.1.Pass? && IsOn(h, AwayModeEnabled) ==>
                && |r.0.calls| == |s.calls + CancelOld(s)| + 1
                && r.0.calls[..|r.0.calls| - 1] == s.calls + CancelOld(s)
                && r.0.calls[|r.0.calls| - 1].RunDaily?
                && r.0.calls[|r.0.calls| - 1].handle == s.nextHandle)
  {
  }

  /** The daily run is armed at 15:00 without a forecast; with one, at the
      time of day of the warmest window that starts today and not before
      `now`, or at 15:00 when there is no such window. */
  lemma ScheduledAtWarmestStart(c: Config, s: AppState, h: Home,
                                forecast: Option<seq<Forecast.Entry>>, now: int)
    requires TotalRunMinutes(c) > 0.0
    requires IsOn(h, AwayModeEnabled) && ScheduleSoakRunStep(c, s, h, forecast, now).1.Pass?
    ensures var calls := ScheduleSoakRunStep(c, s, h, forecast, now).0.calls;
            var at := calls[|calls| - 1].at;
            && (forecast.None? ==> at == DefaultRunAt)
            && (forecast.Some? ==>
                  var f, n := forecast.value, Forecast.BlockSize(TotalRunMinutes(c));
                  || (at == DefaultRunAt &&
                      forall i :: Forecast.IsBestWindow(f, n, Forecast.Date(now), i) ==> f[i].time < now)
                  || (exists i :: Forecast.IsBestWindow(f, n, Forecast.Date(now), i) &&
                                  now <= f[i].time && TimeOfDay(f[i].time) == at))
  {
  }

  // ---------------------------------------------------------------------------
  // Restart

  /** The time-left split of `initialize`: whole hours, minutes and seconds
      of a positive time left, zeros otherwise. */
  function SplitTimeLeft(total: int): (r: (int, int, int))
    ensures total > 0 ==>
              r.0 * 3600 + r.1 * 60 + r.2 == total &&
              0 <= r.0 && 0 <= r.1 < 60 && 0 <= r.2 < 60
    ensures total <= 0 ==> r == (0, 0, 0)
  {
    if total > 0 then
      var hours, remainder := total / 3600, total % 3600;
      (hours, remainder / 60, remainder % 60)
    else (0, 0, 0)
  }

  /** The `found_current` scan of `initialize` over `entities`: the queue it
      builds and whether it has passed the current zone. */
  function Rebuild(entities: seq<string>, current: string, h: Home): (r: (seq<string>, bool))
    ensures r.1 <==> current in entities
  {
    if entities == [] then ([], false)
    else
      var prev := Rebuild(entities[..|entities| - 1], current, h);
      var e := entities[|entities| - 1];
      assert entities == entities[..|entities| - 1] + [e];
      if e == current then (prev.0, true)
      else if prev.1 && InHeat(h, e) then (prev.0 + [e], prev.1)
      else prev
  }

  /** Before the current zone is met nothing is queued. */
  lemma {:induction false} RebuildBeforeCurrent(entities: seq<string>, current: string, h: Home)
    requires current !in entities
    ensures Rebuild(entities, current, h).0 == []
  {
    if entities != [] {
      RebuildBeforeCurrent(entities[..|entities| - 1], current, h);
    }
  }

  /** The rebuilt queue is the zones strictly after the current one that are
      in "heat" mode, in list order. */
  lemma {:induction false} RebuildAfterCurrent(entities: seq<string>, k: nat, h: Home)
    requires Distinct(entities) && k < |entities|
    ensures Rebuild(entities, entities[k], h).0 == HeatQueue(entities[k + 1..], h)
  {
    var n := |entities|;
    var current := entities[k];
    var init := entities[..n - 1];
    var e := entities[n - 1];
    if k == n - 1 {
      assert current !in init by {
        forall j | 0 <= j < |init| ensures init[j] != current {
          assert init[j] == entities[j];
        }
      }
      RebuildBeforeCurrent(init, current, h);
      assert entities[k + 1..] == [];
    } else {
      assert Distinct(init) by {
        forall i, j | 0 <= i < j < |init| ensures init[i] != init[j] {
          assert init[i] == entities[i] && init[j] == entities[j];
        }
      }
      assert init[k] == current;
      RebuildAfterCurrent(init, k, h);
      assert e != current;
      assert entities[k + 1..] == init[k + 1..] + [e];
      HeatQueueAppend(init[k + 1..], [e], h);
      assert current in init;
    }
  }

  /** What `initialize` does with an interrupted run: when the restore timer
      is active it reads the slot without clearing it (ValueError when it is
      empty); given the timer's end it splits the time left and, when the
      current zone is in the list, re-queues the zones after it. */
  function RestartStep(c: Config, s: AppState, h: Home, finishesAt: Option<int>, now: int): (r: (AppState, Outcome))
    ensures State(h, RestoreTemperatureTimer) != Some("active") ==> r == (s, Pass)
    ensures r.0.slot == s.slot && r.0.calls == s.calls && r.0.scheduleHandle == s.scheduleHandle
    ensures State(h, RestoreTemperatureTimer) == Some("active") ==>
              (r.1.Fail? <==> s.slot.None? || FromRecord(s.slot.value).Err?)
    ensures r.1.Fail? ==> r.0.queue == s.queue
    ensures r.1.Pass? && State(h, RestoreTemperatureTimer) == Some("active") ==>
              var current := FromRecord(s.slot.value).value.climate;
              r.0.queue == if finishesAt.Some? && current in c.fullEntityList
                           then Rebuild(c.fullEntityList, current, h).0 else s.queue
  {
    if State(h, RestoreTemperatureTimer) != Some("active") then (s, Pass)
    else
      var got := GetClimateStateStep(s, false);
      if got.1.Err? then (got.0, Fail(got.1.error))
      else
        var current := got.1.value.climate;
        if finishesAt.None? then
          (AddLog(AddLog(got.0, NoFinishesAt), TimerActive(current, 0, 0, 0)), Pass)
        else
          var left := SplitTimeLeft(finishesAt.value - now);
          var queue := if current in c.fullEntityList then Rebuild(c.fullEntityList, current, h).0 else got.0.queue;
          (AddLog(got.0.(queue := queue), TimerActive(current, left.0, left.1, left.2)), Pass)
  }

  /** After a restart mid-run the queue holds the zones that follow the
      interrupted one in the list and are in "heat" mode. */
  lemma RestartQueuesZonesAfterCurrent(c: Config, s: AppState, h: Home, finishesAt: int, now: int, k: nat)
    requires ValidConfig(c) && k < |c.fullEntityList|
    requires State(h, RestoreTemperatureTimer) == Some("active")
    requires s.slot.Some? && FromRecord(s.slot.value).Ok?
    requires FromRecord(s.slot.value).value.climate == c.fullEntityList[k]
    ensures RestartStep(c, s, h, Some(finishesAt), now).1 == Pass
    ensures RestartStep(c, s, h, Some(finishesAt), now).0.queue == HeatQueue(c.fullEntityList[k + 1..], h)
  {
    RebuildAfterCurrent(c.fullEntityList, k, h);
  }

  // ---------------------------------------------------------------------------
  // A whole run

  /** `n` restore-timer completions handled against the same snapshot,
      stopping at the first that fails. */
  function Completions(c: Config, s: AppState, h: Home, n: nat): (AppState, Outcome)
    decreases n
  {
    if n == 0 then (s, Pass)
    else
      var r := StopHeatSoakStep(c, s, h);
      if r.1.Fail? then r else Completions(c, r.0, h, n - 1)
  }

  /** The calls a run over `q` makes, zone by zone: override, timer, restore. */
  function ZoneCycles(c: Config, q: seq<string>, dry: bool): seq<Call> {
    if q == [] then []
    else Override(c, q[0], dry) + [StartTimer(RestoreTemperatureTimer, HeatDuration(c, q[0]))]
         + Restore(c, q[0], dry) + ZoneCycles(c, q[1..], dry)
  }

  /** The readings `process_next_zone` saves for `climate`. */
  function Started(h: Home, climate: string): ClimateState {
    ClimateState(climate, State(h, OutdoorTemperatureSensor), CurrentTemperature(h, climate))
  }

  /** One completion with zones still queued: the zone in flight is restored
      and the next one is heated and takes the slot. */
  lemma StopAdvances(c: Config, s: AppState, h: Home, inFlight: ClimateState)
    requires s.slot == Some(ToRecord(inFlight)) && s.queue != []
    ensures var r := StopHeatSoakStep(c, s, h);
            && r.1 == Pass && r.0.queue == s.queue[1..]
            && r.0.slot == Some(ToRecord(Started(h, s.queue[0])))
            && r.0.calls == s.calls + Restore(c, inFlight.climate, IsOn(h, DryRun))
                            + (Override(c, s.queue[0], IsOn(h, DryRun))
                               + [StartTimer(RestoreTemperatureTimer, HeatDuration(c, s.queue[0]))])
  {
    RecordRoundTrip(inFlight);
  }

  /** The last completion: the zone in flight is restored and the slot is
      left empty. */
  lemma StopFinishes(c: Config, s: AppState, h: Home, inFlight: ClimateState)
    requires s.slot == Some(ToRecord(inFlight)) && s.queue == []
    ensures var r := StopHeatSoakStep(c, s, h);
            && r.1 == Pass && r.0.queue == [] && r.0.slot == None
            && r.0.calls == s.calls + Restore(c, inFlight.climate, IsOn(h, DryRun))
  {
    RecordRoundTrip(inFlight);
  }

  /** With a zone in flight and `q` queued, |q| + 1 completions restore it and
      then heat and restore every queued zone in order, emptying the slot. */
  lemma {:induction false} CompletionsFollowQueue(c: Config, s: AppState, h: Home, inFlight: ClimateState)
    requires s.slot == Some(ToRecord(inFlight))
    ensures var r := Completions(c, s, h, |s.queue| + 1);
            && r.1 == Pass && r.0.queue == [] && r.0.slot == None
            && r.0.calls == s.calls + Restore(c, inFlight.climate, IsOn(h, DryRun))
                            + ZoneCycles(c, s.queue, IsOn(h, DryRun))
    decreases |s.queue|
  {
    var dry := IsOn(h, DryRun);
    var q := s.queue;
    var r1 := StopHeatSoakStep(c, s, h);
    if q == [] {
      StopFinishes(c, s, h, inFlight);
      assert Completions(c, s, h, 1) == Completions(c, r1.0, h, 0);
    } else {
      StopAdvances(c, s, h, inFlight);
      assert Completions(c, s, h, |q| + 1) == Completions(c, r1.0, h, |q|);
      var cycle := Override(c, q[0], dry) + [StartTimer(RestoreTemperatureTimer, HeatDuration(c, q[0]))];
      CompletionsFollowQueue(c, r1.0, h, Started(h, q[0]));
      Regroup(s.calls + Restore(c, inFlight.climate, dry), cycle, Restore(c, q[0], dry), ZoneCycles(c, q[1..], dry));
    }
  }

  /** Starting with an empty slot heats the first queued zone and puts it
      in the slot. */
  lemma StartHeatsHead(c: Config, s: AppState, h: Home)
    requires !IsOn(h, PeakEfficiencyDisabled) && s.slot.None?
    requires HeatQueue(c.fullEntityList, h) != []
    ensures var q := HeatQueue(c.fullEntityList, h);
            var r := StartHeatSoakStep(c, s, h);
            && r.1 == Pass && r.0.queue == q[1..]
            && r.0.slot == Some(ToRecord(Started(h, q[0])))
            && r.0.calls == s.calls + (Override(c, q[0], IsOn(h, DryRun))
                                       + [StartTimer(RestoreTemperatureTimer, HeatDuration(c, q[0]))])
  {
  }

  /** A run started with an empty slot heats and restores every zone in
      "heat" mode, in list order; a dry run makes only the timer calls. */
  lemma SoakRunFollowsHeatQueue(c: Config, s: AppState, h: Home)
    requires !IsOn(h, PeakEfficiencyDisabled) && s.slot.None?
    ensures var q := HeatQueue(c.fullEntityList, h);
            var started := StartHeatSoakStep(c, s, h);
            var r := Completions(c, started.0, h, |q|);
            && started.1 == Pass && r.1 == Pass && r.0.queue == [] && r.0.slot == None
            && r.0.calls == s.calls + ZoneCycles(c, q, IsOn(h, DryRun))
  {
    var q := HeatQueue(c.fullEntityList, h);
    var dry := IsOn(h, DryRun);
    var started := StartHeatSoakStep(c, s, h);
    if q != [] {
      StartHeatsHead(c, s, h);
      CompletionsFollowQueue(c, started.0, h, Started(h, q[0]));
      var cycle := Override(c, q[0], dry) + [StartTimer(RestoreTemperatureTimer, HeatDuration(c, q[0]))];
      Regroup(s.calls, cycle, Restore(c, q[0], dry), ZoneCycles(c, q[1..], dry));
    }
  }

  /** Zone `i` of the queue owns calls 3i, 3i+1 and 3i+2 of a live run:
      its override, its timer and its restore. */
  lemma {:induction false} ZoneCyclesLive(c: Config, q: seq<string>)
    ensures |ZoneCycles(c, q, false)| == 3 * |q|
    ensures forall i :: 0 <= i < |q| ==>
              && ZoneCycles(c, q, false)[3 * i] == SetTemperature(SetTemperatureService, q[i], c.heatToTemp)
              && ZoneCycles(c, q, false)[3 * i + 1] == StartTimer(RestoreTemperatureTimer, HeatDuration(c, q[i]))
              && ZoneCycles(c, q, false)[3 * i + 2] == SetTemperature(SetTemperatureService, q[i], c.restoreTemp)
  {
    if q != [] {
      ZoneCyclesLive(c, q[1..]);
      var head := Override(c, q[0], false) + [StartTimer(RestoreTemperatureTimer, HeatDuration(c, q[0]))]
                  + Restore(c, q[0], false);
      var rest := ZoneCycles(c, q[1..], false);
      assert |head| == 3;
      forall i | 0 <= i < |q|
        ensures ZoneCycles(c, q, false)[3 * i] == SetTemperature(SetTemperatureService, q[i], c.heatToTemp)
        ensures ZoneCycles(c, q, false)[3 * i + 1] == StartTimer(RestoreTemperatureTimer, HeatDuration(c, q[i]))
        ensures ZoneCycles(c, q, false)[3 * i + 2] == SetTemperature(SetTemperatureService, q[i], c.restoreTemp)
      {
        if i > 0 {
          assert q[1..][i - 1] == q[i];
          assert 3 * i == 3 * (i - 1) + 3;
        }
      }
    }
  }

  /** A dry run makes one timer call per zone and no temperature calls. */
  lemma {:induction false} ZoneCyclesDry(c: Config, q: seq<string>)
    ensures |ZoneCycles(c, q, true)| == |q|
    ensures forall i :: 0 <= i < |q| ==>
              ZoneCycles(c, q, true)[i] == StartTimer(RestoreTemperatureTimer, HeatDuration(c, q[i]))
  {
    if q != [] {
      ZoneCyclesDry(c, q[1..]);
      forall i | 0 < i < |q|
        ensures ZoneCycles(c, q, true)[i] == StartTimer(RestoreTemperatureTimer, HeatDuration(c, q[i]))
      {
        assert q[1..][i - 1] == q[i];
      }
    }
  }

  // ---------------------------------------------------------------------------
  // The app object

  /** The app object; its methods perform the steps above on its fields. */
  class PeakEfficiency {
    const config: Config
    var activeQueue: seq<string>
    /** The `zone_state` entry of the on-disk cache. */
    var slot: Option<Record>
    var scheduleHandle: Option<nat>
    var nextHandle: nat
    var calls: seq<Call>
    var logs: seq<Note>

    function State(): AppState
      reads this
    {
      AppState(activeQueue, slot, scheduleHandle, nextHandle, calls, logs)
    }

    /** The part of `initialize` that sets up the object: the built-in zones,
        the two temperatures, an empty queue, no daily handle, and the slot
        as the on-disk cache kept it. */
    constructor(heatToTemp: real, restoreTemp: real, storedSlot: Option<Record>)
      ensures config == DefaultConfig(heatToTemp, restoreTemp)
      ensures State() == AppState([], storedSlot, None, 0, [], [])
    {
      config := DefaultConfig(heatToTemp, restoreTemp);
      activeQueue := [];
      slot := storedSlot;
      scheduleHandle := None;
      nextHandle := 0;
      calls := [];
      logs := [];
    }

    method SaveClimateState(cs: ClimateState) returns (o: Outcome)
      modifies this
      ensures (State(), o) == SaveClimateStateStep(old(State()), cs)
    {
      if slot.Some? {
        return Fail(ValueError);
      }
      slot := Some(ToRecord(cs));
      logs := logs + [StateSaved(cs)];
      return Pass;
    }

    method GetClimateState(clear: bool) returns (r: Result<ClimateState>)
      modifies this
      ensures (State(), r) == GetClimateStateStep(old(State()), clear)
    {
      if slot.None? {
        logs := logs + [ZoneStateUnavailable];
        return Err(ValueError);
      }
      var raw := slot.value;
      if clear {
        slot := None;
      }
      r := FromRecord(raw);
      if r.Err? {
        logs := logs + [ZoneStateUnavailable];
      }
    }

    method ProcessNextZone(h: Home) returns (o: Outcome)
      modifies this
      ensures (State(), o) == ProcessNextZoneStep(config, old(State()), h)
    {
      if activeQueue == [] {
        logs := logs + [AllProcessed];
        return Pass;
      }
      var climate := activeQueue[0];
      activeQueue := activeQueue[1..];
      var duration := HeatDuration(config, climate);
      logs := logs + [Overriding(climate, config.heatToTemp, duration / 60)];
      var dry := IsOn(h, DryRun);
      if !dry {
        calls := calls + [SetTemperature(SetTemperatureService, climate, config.heatToTemp)];
      }
      assert calls == old(calls) + Override(config, climate, dry);
      logs := logs + [SettingTemperature(dry, climate, config.heatToTemp)];
      var outsideTemp := HomeAssistant.State(h, OutdoorTemperatureSensor);
      var currentTemp := CurrentTemperature(h, climate);
      o := SaveClimateState(ClimateState(climate, outsideTemp, currentTemp));
      if o.Fail? {
        return;
      }
      calls := calls + [StartTimer(RestoreTemperatureTimer, duration)];
    }

    method StartHeatSoak(h: Home) returns (o: Outcome)
      modifies this
      ensures (State(), o) == StartHeatSoakStep(config, old(State()), h)
    {
      if IsOn(h, PeakEfficiencyDisabled) {
        logs := logs + [DisabledNote];
        return Pass;
      }
      activeQueue := HeatQueue(config.fullEntityList, h);
      if activeQueue == [] {
        logs := logs + [NothingToDo];
        return Pass;
      }
      logs := logs + [StartingOverride(|activeQueue|)];
      o := ProcessNextZone(h);
    }

    method StopHeatSoak(h: Home) returns (o: Outcome)
      modifies this
      ensures (State(), o) == StopHeatSoakStep(config, old(State()), h)
    {
      var got := GetClimateState(true);
      if got.Err? {
        return Fail(got.error);
      }
      var done := got.value;
      var current := CurrentTemperature(h, done.climate);
      var dry := IsOn(h, DryRun);
      if !dry {
        calls := calls + [SetTemperature(SetTemperatureService, done.climate, config.restoreTemp)];
      }
      assert calls == old(calls) + Restore(config, done.climate, dry);
      logs := logs + [Restored(dry, done.climate, config.restoreTemp, done.outsideTemp, done.startTemp, current)];
      o := ProcessNextZone(h);
    }

    method ScheduleEnergySoakRun(h: Home, forecast: Option<seq<Forecast.Entry>>, now: int) returns (o: Outcome)
      requires TotalRunMinutes(config) > 0.0
      modifies this
      ensures (State(), o) == ScheduleSoakRunStep(config, old(State()), h, forecast, now)
    {
      var runAt := DefaultRunAt;
      var note := NoLocation;
      if forecast.Some? {
        var totalRunTime := TotalRunMinutes(config);
        var best := Forecast.WarmestHours(forecast.value, totalRunTime, now);
        if best.Err? {
          return Fail(best.error);
        }
        note := BestStart(best.value.0);
        if best.value.0.Some? {
          runAt := TimeOfDay(best.value.0.value);
        }
      }
      assert PlanRun(config, forecast, now) == Ok((runAt, note));
      ghost var s0 := State();
      ArmDailyFields(s0, h, runAt, note);
      logs := logs + [note];
      if scheduleHandle.Some? {
        logs := logs + [AlreadyScheduled(scheduleHandle.value)];
        calls := calls + [CancelTimer(scheduleHandle.value)];
      }
      if IsOn(h, AwayModeEnabled) {
        scheduleHandle := Some(nextHandle);
        calls := calls + [RunDaily(nextHandle, runAt)];
        nextHandle := nextHandle + 1;
        logs := logs + [WillRun(runAt)];
      } else {
        logs := logs + [WillNotRun];
      }
      assert State() == ArmDaily(s0, h, runAt, note);
      return Pass;
    }

    /** The restart branch of `initialize`, with the timer's end time and
        the current time passed in. */
    method Restart(h: Home, finishesAt: Option<int>, now: int) returns (o: Outcome)
      modifies this
      ensures (State(), o) == RestartStep(config, old(State()), h, finishesAt, now)
    {
      if HomeAssistant.State(h, RestoreTemperatureTimer) != Some("active") {
        return Pass;
      }
      var got := GetClimateState(false);
      if got.Err? {
        return Fail(got.error);
      }
      var current := got.value.climate;
      var hours, minutes, seconds := 0, 0, 0;
      if finishesAt.Some? {
        var timeLeft := finishesAt.value - now;
        if timeLeft > 0 {
          var remainder;
          hours, remainder := timeLeft / 3600, timeLeft % 3600;
          minutes, seconds := remainder / 60, remainder % 60;
        }
        if current in config.fullEntityList {
          var entities := config.fullEntityList;
          ghost var before := State();
          activeQueue := [];
          var foundCurrent := false;
          var i := 0;
          while i < |entities|
            invariant 0 <= i <= |entities|
            invariant (activeQueue, foundCurrent) == Rebuild(entities[..i], current, h)
            invariant slot == before.slot && calls == before.calls && logs == before.logs
            invariant scheduleHandle == before.scheduleHandle && nextHandle == before.nextHandle
          {
            var entity := entities[i];
            assert entities[..i + 1][..i] == entities[..i];
            if entity == current {
              foundCurrent := true;
            } else if foundCurrent && InHeat(h, entity) {
              activeQueue := activeQueue + [entity];
            }
            i := i + 1;
          }
          assert entities[..i] == entities;
        }
      } else {
        logs := logs + [NoFinishesAt];
      }
      logs := logs + [TimerActive(current, hours, minutes, seconds)];
      return Pass;
    }
  }
}
