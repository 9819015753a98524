/** The earlier revision of the heat-soak app (apps/PeakEfficiency.py): every
    zone is heated for a fixed 20 minutes, and the restore is a delayed
    callback that carries the zone and its readings, instead of a cache slot
    and a Home Assistant timer.  As in `PeakEfficiencyApp`, each callback is a
    pure step and the class performs it on its fields. */
module PeakEfficiencyLegacy {
  import opened Common
  import opened HomeAssistant

  const DryRun := "input_boolean.peak_efficiency_dry_run"
  const OutdoorTemperatureSensor := "sensor.condenser_temperature_sensor_temperature"
  /** The service name of the override call. */
  const OverrideService := "climate/set_temperature"
  /** The service name of the restore call (a dot where the override has a slash). */
  const RestoreService := "climate.set_temperature"
  /** Every zone is heated for 20 minutes. */
  const HeatDuration := 20 * 60
  /** The daily start, 15:00, as seconds after midnight. */
  const DailyStart := 15 * 3600

  const FullEntityList: seq<string> := [
    "climate.main_floor",
    "climate.master_bedroom",
    "climate.basement_master",
    "climate.basement_bunk_rooms",
    "climate.ski_room"]

  datatype Config = Config(fullEntityList: seq<string>, heatToTemp: real, restoreTemp: real)

  /** The keyword arguments `run_in` hands to `restore_temperature`. */
  datatype RestorePayload = RestorePayload(climate: string, outsideTemp: Option<string>, startTemp: Option<real>)

  datatype Call =
    | SetTemperature(service: string, entity: string, temperature: real)
    | RunIn(delay: int, payload: RestorePayload)
    | RunDaily(at: int)

  datatype Note =
    | Initialized
    | NothingToDo
    | StartingOverride(count: nat)
    | AllProcessed
    | Overriding(climate: string, temperature: real, minutes: int)
    | DryRunSkip(climate: string)
    | Restored(climate: string, temperature: real, outside: Option<string>, start: Option<real>, end: Option<real>)

  /** The exact text of the log lines that mention no temperature. */
  function FixedText(n: Note): Option<string> {
    match n
    case NothingToDo => Some("No climate entities in heat mode — nothing to do.")
    case AllProcessed => Some("All climate entities have been processed.")
    case DryRunSkip(climate) => Some(climate + ": Not modifying temperature as Dry Run mode is enabled")
    case _ => None
  }

  datatype AppState = AppState(queue: seq<string>, calls: seq<Call>, logs: seq<Note>)

  function AddLog(s: AppState, n: Note): AppState {
    s.(logs := s.logs + [n])
  }

  function Override(c: Config, climate: string, dry: bool): seq<Call> {
    if dry then [] else [SetTemperature(OverrideService, climate, c.heatToTemp)]
  }

  function Restore(c: Config, climate: string, dry: bool): seq<Call> {
    if dry then [] else [SetTemperature(RestoreService, climate, c.restoreTemp)]
  }

  /** The payload scheduled for `climate`: the outdoor reading and the zone's
      current temperature when it started. */
  function PayloadFor(h: Home, climate: string): RestorePayload {
    RestorePayload(climate, State(h, OutdoorTemperatureSensor), CurrentTemperature(h, climate))
  }

  /** `process_next_climate`: pop the head, override it unless dry-running
      (then say so instead), and schedule its restore after 20 minutes. */
  function ProcessNextClimateStep(c: Config, s: AppState, h: Home): (r: AppState)
    ensures s.queue == [] ==> r.queue == [] && r.calls == s.calls
    ensures s.queue != [] ==>
              && r.queue == s.queue[1..]
              && r.calls == s.calls + Override(c, s.queue[0], IsOn(h, DryRun))
                            + [RunIn(HeatDuration, PayloadFor(h, s.queue[0]))]
  {
    if s.queue == [] then AddLog(s, AllProcessed)
    else
      var climate := s.queue[0];
      var dry := IsOn(h, DryRun);
      var s1 := AddLog(s.(queue := s.queue[1..]), Overriding(climate, c.heatToTemp, HeatDuration / 60));
      var s2 := if dry then AddLog(s1, DryRunSkip(climate))
                else s1.(calls := s1.calls + Override(c, climate, dry));
      s2.(calls := s2.calls + [RunIn(HeatDuration, PayloadFor(h, climate))])
  }

  /** `start_override`: queue the zones in "heat" mode in list order and
      start the first one; with none, say so and do nothing else. */
  function StartOverrideStep(c: Config, s: AppState, h: Home): (r: AppState)
    ensures var q := HeatQueue(c.fullEntityList, h);
            q == [] ==> r.queue == [] && r.calls == s.calls
    ensures var q := HeatQueue(c.fullEntityList, h);
            q != [] ==>
              && r.queue == q[1..]
              && r.calls == s.calls + Override(c, q[0], IsOn(h, DryRun))
                            + [RunIn(HeatDuration, PayloadFor(h, q[0]))]
  {
    var q := HeatQueue(c.fullEntityList, h);
    if q == [] then AddLog(s.(queue := q), NothingToDo)
    else ProcessNextClimateStep(c, AddLog(s.(queue := q), StartingOverride(|q|)), h)
  }

  /** `restore_temperature`: restore the zone named in the payload unless
      dry-running, then start the next one. */
  function RestoreTemperatureStep(c: Config, s: AppState, h: Home, p: RestorePayload): (r: AppState)
    ensures s.queue == [] ==>
              r.queue == [] && r.calls == s.calls + Restore(c, p.climate, IsOn(h, DryRun))
    ensures s.queue != [] ==>
              && r.queue == s.queue[1..]
              && r.calls == s.calls + Restore(c, p.climate, IsOn(h, DryRun))
                            + (Override(c, s.queue[0], IsOn(h, DryRun))
                               + [RunIn(HeatDuration, PayloadFor(h, s.queue[0]))])
  {
    var current := CurrentTemperature(h, p.climate);
    var dry := IsOn(h, DryRun);
    var s1 := if dry then AddLog(s, DryRunSkip(p.climate))
              else s.(calls := s.calls + Restore(c, p.climate, dry));
    var s2 := AddLog(s1, Restored(p.climate, c.restoreTemp, p.outsideTemp, p.startTemp, current));
    ProcessNextClimateStep(c, s2, h)
  }

  /** The last log line of each quiet outcome: nothing in "heat" mode, an
      empty queue, and a dry-run override. */
  lemma QuietOutcomesAreLogged(c: Config, s: AppState, h: Home)
    ensures HeatQueue(c.fullEntityList, h) == [] ==>
              var r := StartOverrideStep(c, s, h);
              |r.logs| > 0 &&
              FixedText(r.logs[|r.logs| - 1]) == Some("No climate entities in heat mode — nothing to do.")
    ensures s.queue == [] ==>
              var r := ProcessNextClimateStep(c, s, h);
              |r.logs| > 0 &&
              FixedText(r.logs[|r.logs| - 1]) == Some("All climate entities have been processed.")
    ensures s.queue != [] && IsOn(h, DryRun) ==>
              var r := ProcessNextClimateStep(c, s, h);
              |r.logs| > 0 &&
              FixedText(r.logs[|r.logs| - 1]) ==
                Some(s.queue[0] + ": Not modifying temperature as Dry Run mode is enabled")
  {
  }

  /** The override and the restore of one zone go to different service
      names; a dry run calls neither. */
  lemma OverrideAndRestoreServices(c: Config, s: AppState, h: Home, p: RestorePayload)
    requires s.queue != [] && !IsOn(h, DryRun)
    ensures var r := ProcessNextClimateStep(c, s, h);
            r.calls[|s.calls|] == SetTemperature("climate/set_temperature", s.queue[0], c.heatToTemp)
    ensures var r := RestoreTemperatureStep(c, s, h, p);
            r.calls[|s.calls|] == SetTemperature("climate.set_temperature", p.climate, c.restoreTemp)
  {
  }

  // ---------------------------------------------------------------------------
  // A whole run

  /** The restore that fires next: the payload of the last call when it is a
      scheduled restore. */
  function Pending(calls: seq<Call>): Option<RestorePayload> {
    if calls != [] && calls[|calls| - 1].RunIn? then Some(calls[|calls| - 1].payload) else None
  }

  /** `n` scheduled restores firing one after the other, against the same
      snapshot. */
  function Restores(c: Config, s: AppState, h: Home, n: nat): AppState
    decreases n
  {
    if n == 0 then s
    else
      match Pending(s.calls)
      case None => s
      case Some(p) => Restores(c, RestoreTemperatureStep(c, s, h, p), h, n - 1)
  }

  /** The calls a run over `q` makes, zone by zone: override, scheduled
      restore, restore. */
  function Cycles(c: Config, h: Home, q: seq<string>, dry: bool): seq<Call> {
    if q == [] then []
    else Override(c, q[0], dry) + [RunIn(HeatDuration, PayloadFor(h, q[0]))]
         + Restore(c, q[0], dry) + Cycles(c, h, q[1..], dry)
  }

  /** With a restore pending for `p` and `q` queued, |q| + 1 restores restore
      `p`'s zone and then heat and restore every queued zone in order. */
  lemma {:induction false} RestoresFollowQueue(c: Config, s: AppState, h: Home, p: RestorePayload)
    requires Pending(s.calls) == Some(p)
    ensures var r := Restores(c, s, h, |s.queue| + 1);
            && r.queue == []
            && r.calls == s.calls + Restore(c, p.climate, IsOn(h, DryRun)) + Cycles(c, h, s.queue, IsOn(h, DryRun))
    decreases |s.queue|
  {
    var dry := IsOn(h, DryRun);
    var q := s.queue;
    var r1 := RestoreTemperatureStep(c, s, h, p);
    assert Restores(c, s, h, |q| + 1) == Restores(c, r1, h, |q|);
    if q != [] {
      var cycle := Override(c, q[0], dry) + [RunIn(HeatDuration, PayloadFor(h, q[0]))];
      assert Pending(r1.calls) == Some(PayloadFor(h, q[0]));
      RestoresFollowQueue(c, r1, h, PayloadFor(h, q[0]));
      Regroup(s.calls + Restore(c, p.climate, dry), cycle, Restore(c, q[0], dry), Cycles(c, h, q[1..], dry));
    }
  }

  /** A start with zones in "heat" mode leaves the first one's restore
      pending. */
  lemma StartSchedulesHead(c: Config, s: AppState, h: Home)
    requires HeatQueue(c.fullEntityList, h) != []
    ensures var q := HeatQueue(c.fullEntityList, h);
            var r := StartOverrideStep(c, s, h);
            && Pending(r.calls) == Some(PayloadFor(h, q[0]))
            && r.queue == q[1..]
            && r.calls == s.calls + (Override(c, q[0], IsOn(h, DryRun)) + [RunIn(HeatDuration, PayloadFor(h, q[0]))])
  {
  }

  /** With N zones in "heat" mode and every scheduled restore firing, the run
      pops each of them once, in list order, scheduling one restore per zone;
      the override and restore calls are made exactly when not dry-running. */
  lemma RunFollowsHeatQueue(c: Config, s: AppState, h: Home)
    ensures var q := HeatQueue(c.fullEntityList, h);
            var r := Restores(c, StartOverrideStep(c, s, h), h, |q|);
            r.queue == [] && r.calls == s.calls + Cycles(c, h, q, IsOn(h, DryRun))
  {
    var q := HeatQueue(c.fullEntityList, h);
    var dry := IsOn(h, DryRun);
    var started := StartOverrideStep(c, s, h);
    if q != [] {
      var cycle := Override(c, q[0], dry) + [RunIn(HeatDuration, PayloadFor(h, q[0]))];
      StartSchedulesHead(c, s, h);
      RestoresFollowQueue(c, started, h, PayloadFor(h, q[0]));
      Regroup(s.calls, cycle, Restore(c, q[0], dry), Cycles(c, h, q[1..], dry));
    }
  }

  /** Zone `i` owns calls 3i, 3i+1 and 3i+2 of a live run: its override, its
      scheduled restore and its restore. */
  lemma {:induction false} CyclesLive(c: Config, h: Home, q: seq<string>)
    ensures |Cycles(c, h, q, false)| == 3 * |q|
    ensures forall i :: 0 <= i < |q| ==>
              && Cycles(c, h, q, false)[3 * i] == SetTemperature(OverrideService, q[i], c.heatToTemp)
              && Cycles(c, h, q, false)[3 * i + 1] == RunIn(HeatDuration, PayloadFor(h, q[i]))
              && Cycles(c, h, q, false)[3 * i + 2] == SetTemperature(RestoreService, q[i], c.restoreTemp)
  {
    if q != [] {
      CyclesLive(c, h, q[1..]);
      forall i | 0 <= i < |q|
        ensures Cycles(c, h, q, false)[3 * i] == SetTemperature(OverrideService, q[i], c.heatToTemp)
        ensures Cycles(c, h, q, false)[3 * i + 1] == RunIn(HeatDuration, PayloadFor(h, q[i]))
        ensures Cycles(c, h, q, false)[3 * i + 2] == SetTemperature(RestoreService, q[i], c.restoreTemp)
      {
        if i > 0 {
          assert q[1..][i - 1] == q[i];
          assert 3 * i == 3 * (i - 1) + 3;
        }
      }
    }
  }

  /** A dry run only schedules: one restore per zone, in order. */
  lemma {:induction false} CyclesDry(c: Config, h: Home, q: seq<string>)
    ensures |Cycles(c, h, q, true)| == |q|
    ensures forall i :: 0 <= i < |q| ==> Cycles(c, h, q, true)[i] == RunIn(HeatDuration, PayloadFor(h, q[i]))
  {
    if q != [] {
      CyclesDry(c, h, q[1..]);
      forall i | 0 < i < |q|
        ensures Cycles(c, h, q, true)[i] == RunIn(HeatDuration, PayloadFor(h, q[i]))
      {
        assert q[1..][i - 1] == q[i];
      }
    }
  }

  // ---------------------------------------------------------------------------
  // The app object

  class PeakEfficiency {
    const config: Config
    var activeQueue: seq<string>
    var calls: seq<Call>
    var logs: seq<Note>

    function State(): AppState
      reads this
    {
      AppState(activeQueue, calls, logs)
    }

    /** `initialize`: the zone list, the two temperatures, an empty queue and
        the daily start at 15:00. */
    constructor(heatToTemp: real, restoreTemp: real)
      ensures config == Config(FullEntityList, heatToTemp, restoreTemp)
      ensures State() == AppState([], [RunDaily(DailyStart)], [Initialized])
    {
      config := Config(FullEntityList, heatToTemp, restoreTemp);
      activeQueue := [];
      calls := [RunDaily(DailyStart)];
      logs := [Initialized];
    }

    method ProcessNextClimate(h: Home)
      modifies this
      ensures State() == ProcessNextClimateStep(config, old(State()), h)
    {
      if activeQueue == [] {
        logs := logs + [AllProcessed];
        return;
      }
      var climate := activeQueue[0];
      activeQueue := activeQueue[1..];
      logs := logs + [Overriding(climate, config.heatToTemp, HeatDuration / 60)];
      var dry := IsOn(h, DryRun);
      if !dry {
        calls := calls + [SetTemperature(OverrideService, climate, config.heatToTemp)];
      } else {
        logs := logs + [DryRunSkip(climate)];
      }
      var outsideTemp := HomeAssistant.State(h, OutdoorTemperatureSensor);
      var currentTemp := CurrentTemperature(h, climate);
      calls := calls + [RunIn(HeatDuration, RestorePayload(climate, outsideTemp, currentTemp))];
    }

    method StartOverride(h: Home)
      modifies this
      ensures State() == StartOverrideStep(config, old(State()), h)
    {
      activeQueue := HeatQueue(config.fullEntityList, h);
      if activeQueue == [] {
        logs := logs + [NothingToDo];
        return;
      }
      logs := logs + [StartingOverride(|activeQueue|)];
      ProcessNextClimate(h);
    }

    method RestoreTemperature(h: Home, p: RestorePayload)
      modifies this
      ensures State() == RestoreTemperatureStep(config, old(State()), h, p)
    {
      var current := CurrentTemperature(h, p.climate);
      var dry := IsOn(h, DryRun);
      if !dry {
        calls := calls + [SetTemperature(RestoreService, p.climate, config.restoreTemp)];
      } else {
        logs := logs + [DryRunSkip(p.climate)];
      }
      logs := logs + [Restored(p.climate, config.restoreTemp, p.outsideTemp, p.startTemp, current)];
      ProcessNextClimate(h);
    }
  }
}
