/** The persisted daily summary of the heat-soak app: one record per zone
    (planned run, completion temperature, temperature samples taken after the
    run, unplanned heating or cooling noticed outside the schedule), saved as a
    whole to a key/value store after every change and exported as one table
    row per zone. */
module Summary {
  import opened Common
  import Forecast

  /** A temperature sample taken after a zone's planned end. */
  datatype TemperatureRecord = TemperatureRecord(temperature: real, timestamp: int, secondsAfterEnd: int)

  /** Heating or cooling that started outside the schedule; open until it is
      finalized. */
  datatype UnplannedHvacAction = UnplannedHvacAction(
    hvacAction: Option<string>,
    startTime: Option<int>,
    endTime: Option<int>,
    duration: Option<int>,
    completed: bool)

  /** The stored form of one zone's summary. */
  datatype ZoneData = ZoneData(
    zone: Option<string>,
    startTime: Option<int>,
    endTime: Option<int>,
    hvacAction: Option<string>,
    targetTemp: Option<real>,
    duration: Option<int>,
    startTemp: Option<real>,
    outsideTemp: Option<real>,
    endTemp: Option<real>,
    completed: bool,
    temperatureRecords: seq<TemperatureRecord>,
    unplannedHvacActions: seq<UnplannedHvacAction>)

  /** The stored form of the daily summary; `zoneOrder` is the insertion order
      of the zone dictionary. */
  datatype SummaryData = SummaryData(
    date: Option<int>,
    forecast: Option<Forecast.DailyForecast>,
    zoneOrder: seq<string>,
    zones: map<string, ZoneData>)

  /** The order lists every zone exactly once. */
  ghost predicate WellFormed(d: SummaryData) {
    Distinct(d.zoneOrder) && forall k :: k in d.zoneOrder <==> k in d.zones
  }

  /** The summary of a fresh instance: no date, no forecast, no zones. */
  const Default := SummaryData(None, None, [], map[])

  /** `d` with zone `k` set to `z`: a new key goes to the end of the order, an
      existing key keeps its place (Python dictionary assignment). */
  function WithZone(d: SummaryData, k: string, z: ZoneData): (r: SummaryData)
    requires WellFormed(d)
    ensures WellFormed(r)
    ensures r.date == d.date && r.forecast == d.forecast
    ensures r.zones.Keys == d.zones.Keys + {k} && r.zones[k] == z
    ensures forall j :: j in d.zones && j != k ==> r.zones[j] == d.zones[j]
    ensures k in d.zones ==> r.zoneOrder == d.zoneOrder
    ensures k !in d.zones ==> r.zoneOrder == d.zoneOrder + [k]
  {
    d.(zones := d.zones[k := z], zoneOrder := if k in d.zones then d.zoneOrder else d.zoneOrder + [k])
  }

  /** `add_end_temperature`: a sample with its distance from the planned end,
      or ValueError when the zone has no end time. */
  function EndTemperatureRecord(z: ZoneData, temperature: real, timestamp: int): (r: Result<TemperatureRecord>)
    ensures r.Err? <==> z.endTime.None?
    ensures r.Err? ==> r.error == ValueError
    ensures r.Ok? ==> r.value.temperature == temperature && r.value.timestamp == timestamp
                      && z.endTime.value + r.value.secondsAfterEnd == timestamp
  {
    if z.endTime.None? then Err(ValueError)
    else Ok(TemperatureRecord(temperature, timestamp, timestamp - z.endTime.value))
  }

  /** `finalize_unplanned_hvac_action` on the list of actions: only the last
      action is touched.  An open one is closed with its duration; a completed
      one raises AttributeError (the warning it would log goes through an
      attribute a zone summary does not have); an open one without a start time
      gets its end time and then raises TypeError. */
  function FinalizeLast(actions: seq<UnplannedHvacAction>, endTime: int): (r: (seq<UnplannedHvacAction>, Outcome))
    ensures |r.0| == |actions|
    ensures forall i :: 0 <= i < |actions| - 1 ==> r.0[i] == actions[i]
    ensures actions == [] ==> r == ([], Pass)
    ensures actions != [] && actions[|actions| - 1].completed ==> r == (actions, Fail(AttributeError))
    ensures r.1 == Pass && actions != [] ==>
              var last := r.0[|actions| - 1];
              && last.completed && last.endTime == Some(endTime)
              && last.startTime == actions[|actions| - 1].startTime && last.startTime.Some?
              && last.duration == Some(endTime - last.startTime.value)
    ensures r.1 == Pass <==> actions == [] || (!actions[|actions| - 1].completed && actions[|actions| - 1].startTime.Some?)
  {
    if actions == [] then (actions, Pass)
    else
      var n := |actions| - 1;
      var action := actions[n];
      if action.completed then (actions, Fail(AttributeError))
      else if action.startTime.None? then (actions[n := action.(endTime := Some(endTime))], Fail(TypeError))
      else
        var closed := action.(endTime := Some(endTime), duration := Some(endTime - action.startTime.value),
                              completed := true);
        (actions[n := closed], Pass)
  }

  /** Repeated finalizing after a successful one changes nothing in the list. */
  lemma FinalizeTwice(actions: seq<UnplannedHvacAction>, t1: int, t2: int)
    requires FinalizeLast(actions, t1).1 == Pass && actions != []
    ensures FinalizeLast(FinalizeLast(actions, t1).0, t2) == (FinalizeLast(actions, t1).0, Fail(AttributeError))
  {
  }

  /** One zone's summary, updated in place. */
  class ZoneSummary {
    var zone: Option<string>
    var startTime: Option<int>
    var endTime: Option<int>
    var hvacAction: Option<string>
    var targetTemp: Option<real>
    var duration: Option<int>
    var startTemp: Option<real>
    var outsideTemp: Option<real>
    var endTemp: Option<real>
    var completed: bool
    var temperatureRecords: seq<TemperatureRecord>
    var unplannedHvacActions: seq<UnplannedHvacAction>

    function Data(): ZoneData
      reads this
    {
      ZoneData(zone, startTime, endTime, hvacAction, targetTemp, duration, startTemp, outsideTemp,
               endTemp, completed, temperatureRecords, unplannedHvacActions)
    }

    constructor (d: ZoneData)
      ensures Data() == d
    {
      zone, startTime, endTime, hvacAction := d.zone, d.startTime, d.endTime, d.hvacAction;
      targetTemp, duration, startTemp, outsideTemp := d.targetTemp, d.duration, d.startTemp, d.outsideTemp;
      endTemp, completed := d.endTemp, d.completed;
      temperatureRecords, unplannedHvacActions := d.temperatureRecords, d.unplannedHvacActions;
    }

    /** Append one sample taken at `timestamp` (or `now`) and return it. */
    method AddEndTemperature(temperature: real, timestamp: Option<int>, now: int) returns (r: Result<TemperatureRecord>)
      modifies this
      ensures r == EndTemperatureRecord(old(Data()), temperature, timestamp.GetOr(now))
      ensures r.Err? ==> Data() == old(Data())
      ensures r.Ok? ==> Data() == old(Data()).(temperatureRecords := old(temperatureRecords) + [r.value])
    {
      if endTime.None? {
        return Err(ValueError);
      }
      var ts := timestamp.GetOr(now);
      var record := TemperatureRecord(temperature, ts, ts - endTime.value);
      temperatureRecords := temperatureRecords + [record];
      return Ok(record);
    }

    /** Append an open unplanned action. */
    method AddUnplannedHvacAction(action: string, start: int)
      modifies this
      ensures Data() == old(Data()).(unplannedHvacActions :=
                old(unplannedHvacActions) + [UnplannedHvacAction(Some(action), Some(start), None, None, false)])
    {
      unplannedHvacActions := unplannedHvacActions + [UnplannedHvacAction(Some(action), Some(start), None, None, false)];
    }

    /** Close the last unplanned action at `endTime` (or `now`). */
    method FinalizeUnplannedHvacAction(endTime: Option<int>, now: int) returns (o: Outcome)
      modifies this
      ensures (unplannedHvacActions, o) == FinalizeLast(old(unplannedHvacActions), endTime.GetOr(now))
      ensures Data() == old(Data()).(unplannedHvacActions := unplannedHvacActions)
    {
      var end := endTime.GetOr(now);
      if unplannedHvacActions == [] {
        return Pass;
      }
      var n := |unplannedHvacActions| - 1;
      var action := unplannedHvacActions[n];
      if action.completed {
        return Fail(AttributeError);
      }
      if action.startTime.None? {
        unplannedHvacActions := unplannedHvacActions[n := action.(endTime := Some(end))];
        return Fail(TypeError);
      }
      action := action.(endTime := Some(end), duration := Some(end - action.startTime.value), completed := true);
      unplannedHvacActions := unplannedHvacActions[n := action];
      return Pass;
    }
  }

  /** The cache directory of the summary: every instance opened on it sees
      the same entries. */
  class Cache {
    var entries: map<string, SummaryData>

    ghost predicate Valid()
      reads this
    {
      forall k :: k in entries ==> WellFormed(entries[k])
    }

    constructor (entries: map<string, SummaryData>)
      requires forall k :: k in entries ==> WellFormed(entries[k])
      ensures this.entries == entries && Valid()
    {
      this.entries := entries;
    }
  }

  /** The zone summary `start_zone` creates: started now, not completed, no
      samples or unplanned actions, planned duration from the given times. */
  function StartedZone(entity: string, hvacAction: string, startTime: Option<int>, endTime: Option<int>,
                       targetTemp: Option<real>, startTemp: Option<real>, outsideTemp: Option<real>,
                       now: int): (z: ZoneData)
    requires endTime.Some? ==> startTime.Some?
    ensures !z.completed && z.temperatureRecords == [] && z.unplannedHvacActions == []
    ensures z.zone == Some(entity) && z.startTime == Some(now) && z.endTime == endTime && z.endTemp == None
    ensures z.hvacAction == Some(hvacAction) && z.targetTemp == targetTemp
    ensures z.startTemp == startTemp && z.outsideTemp == outsideTemp
    ensures endTime.Some? ==> z.duration == Some(endTime.value - startTime.value)
    ensures endTime.None? ==> z.duration == Some(0)
  {
    var runDuration := if endTime.Some? then endTime.value - startTime.value else 0;
    ZoneData(Some(entity), Some(now), endTime, Some(hvacAction), targetTemp, Some(runDuration),
             startTemp, outsideTemp, None, false, [], [])
  }

  /** The zones of `order` whose summary is completed, in order. */
  function CompletedOf(order: seq<string>, zones: map<string, ZoneData>): (r: seq<string>)
    ensures |r| <= |order|
    ensures forall k :: k in r <==> k in order && k in zones && zones[k].completed
  {
    if order == [] then []
    else
      var rest := CompletedOf(order[1..], zones);
      if order[0] in zones && zones[order[0]].completed then [order[0]] + rest else rest
  }

  /** The completed zones keep the order in which the zones were started. */
  lemma {:induction false} CompletedOfAppend(a: seq<string>, b: seq<string>, zones: map<string, ZoneData>)
    ensures CompletedOf(a + b, zones) == CompletedOf(a, zones) + CompletedOf(b, zones)
  {
    if a == [] {
      assert a + b == b;
    } else {
      assert (a + b)[1..] == a[1..] + b;
      assert (a + b)[0] == a[0];
      CompletedOfAppend(a[1..], b, zones);
    }
  }

  /** A table cell. */
  datatype Cell = Null | Text(text: string) | Number(x: real) | Integer(n: int)

  function OptReal(x: Option<real>): Cell {
    if x.Some? then Number(x.value) else Null
  }

  function OptInt(x: Option<int>): Cell {
    if x.Some? then Integer(x.value) else Null
  }

  function OptText(x: Option<string>): Cell {
    if x.Some? then Text(x.value) else Null
  }

  /** One exported row. */
  datatype ZoneEvent = ZoneEvent(
    date: Option<int>,
    forecastMinTemp: Option<real>,
    forecastMaxTemp: Option<real>,
    forecastAvgTemp: Option<real>,
    forecastTotalSolarRadiation: Option<real>,
    forecastAvgHumidity: Option<real>,
    zoneName: string,
    hvacAction: Option<string>,
    hvacActionDuration: Option<int>,
    unexpectedHvacActionEvents: int,
    unexpectedHvacActionDuration: int,
    zoneTargetTemp: Option<real>,
    zoneStartingTemp: Option<real>,
    zoneCompletionTemp: Option<real>,
    zonePostCompletionTemp1: Option<real>,
    zonePostCompletionTemp2: Option<real>,
    zoneFinalTemp: Option<real>,
    zoneTempError: Option<real>)

  /** The fields of a row, as `dataclasses.fields` lists them. */
  datatype Field =
    | DateField | ForecastMinTemp | ForecastMaxTemp | ForecastAvgTemp | ForecastTotalSolarRadiation
    | ForecastAvgHumidity | ZoneName | HvacActionField | HvacActionDuration | UnexpectedHvacActionEvents
    | UnexpectedHvacActionDuration | ZoneTargetTemp | ZoneStartingTemp | ZoneCompletionTemp
    | ZonePostCompletionTemp1 | ZonePostCompletionTemp2 | ZoneFinalTemp | ZoneTempError

  /** The fields in declaration order. */
  const ZoneEventFields: seq<Field> := [
    DateField, ForecastMinTemp, ForecastMaxTemp, ForecastAvgTemp, ForecastTotalSolarRadiation,
    ForecastAvgHumidity, ZoneName, HvacActionField, HvacActionDuration, UnexpectedHvacActionEvents,
    UnexpectedHvacActionDuration, ZoneTargetTemp, ZoneStartingTemp, ZoneCompletionTemp,
    ZonePostCompletionTemp1, ZonePostCompletionTemp2, ZoneFinalTemp, ZoneTempError]

  /** A field's name, which is its column header (the misspelt duration
      column included). */
  function FieldName(f: Field): string {
    match f
    case DateField => "date"
    case ForecastMinTemp => "forecast_min_temp"
    case ForecastMaxTemp => "forecast_max_temp"
    case ForecastAvgTemp => "forecast_avg_temp"
    case ForecastTotalSolarRadiation => "forecast_total_solar_radiation"
    case ForecastAvgHumidity => "forecast_avg_humidity"
    case ZoneName => "zone_name"
    case HvacActionField => "hvac_action"
    case HvacActionDuration => "hvac_action_duration"
    case UnexpectedHvacActionEvents => "unexpected_hvac_action_events"
    case UnexpectedHvacActionDuration => "unexpected_hvac_action_duartion"
    case ZoneTargetTemp => "zone_target_temp"
    case ZoneStartingTemp => "zone_starting_temp"
    case ZoneCompletionTemp => "zone_completion_temp"
    case ZonePostCompletionTemp1 => "zone_post_completion_temp_1"
    case ZonePostCompletionTemp2 => "zone_post_completion_temp_2"
    case ZoneFinalTemp => "zone_final_temp"
    case ZoneTempError => "zone_temp_error"
  }

  /** `getattr(event, field)`. */
  function GetAttr(e: ZoneEvent, f: Field): Cell {
    match f
    case DateField => OptInt(e.date)
    case ForecastMinTemp => OptReal(e.forecastMinTemp)
    case ForecastMaxTemp => OptReal(e.forecastMaxTemp)
    case ForecastAvgTemp => OptReal(e.forecastAvgTemp)
    case ForecastTotalSolarRadiation => OptReal(e.forecastTotalSolarRadiation)
    case ForecastAvgHumidity => OptReal(e.forecastAvgHumidity)
    case ZoneName => Text(e.zoneName)
    case HvacActionField => OptText(e.hvacAction)
    case HvacActionDuration => OptInt(e.hvacActionDuration)
    case UnexpectedHvacActionEvents => Integer(e.unexpectedHvacActionEvents)
    case UnexpectedHvacActionDuration => Integer(e.unexpectedHvacActionDuration)
    case ZoneTargetTemp => OptReal(e.zoneTargetTemp)
    case ZoneStartingTemp => OptReal(e.zoneStartingTemp)
    case ZoneCompletionTemp => OptReal(e.zoneCompletionTemp)
    case ZonePostCompletionTemp1 => OptReal(e.zonePostCompletionTemp1)
    case ZonePostCompletionTemp2 => OptReal(e.zonePostCompletionTemp2)
    case ZoneFinalTemp => OptReal(e.zoneFinalTemp)
    case ZoneTempError => OptReal(e.zoneTempError)
  }

  /** `[field.name for field in fields]` as header cells. */
  function HeaderCells(fields: seq<Field>): (r: seq<Cell>)
    ensures |r| == |fields|
  {
    if fields == [] then [] else [Text(FieldName(fields[0]))] + HeaderCells(fields[1..])
  }

  /** `[getattr(e, field.name) for field in fields]`. */
  function AttrCells(e: ZoneEvent, fields: seq<Field>): (r: seq<Cell>)
    ensures |r| == |fields|
  {
    if fields == [] then [] else [GetAttr(e, fields[0])] + AttrCells(e, fields[1..])
  }

  /** `get_headers`: the header row. */
  function Headers(): seq<Cell> {
    HeaderCells(ZoneEventFields)
  }

  /** `get_values`: the row's values, in header order. */
  function Values(e: ZoneEvent): seq<Cell> {
    AttrCells(e, ZoneEventFields)
  }

  /** Column `i` of the header row names field `i`, and column `i` of the
      values row holds that field's attribute. */
  lemma {:induction false} CellsLineUp(e: ZoneEvent, fields: seq<Field>)
    ensures |HeaderCells(fields)| == |AttrCells(e, fields)| == |fields|
    ensures forall i :: 0 <= i < |fields| ==>
              HeaderCells(fields)[i] == Text(FieldName(fields[i])) && AttrCells(e, fields)[i] == GetAttr(e, fields[i])
  {
    if fields != [] {
      CellsLineUp(e, fields[1..]);
    }
  }

  /** No two fields share a name, so each header identifies one column. */
  lemma FieldNamesDistinct(f: Field, g: Field)
    requires f != g
    ensures FieldName(f) != FieldName(g)
  {
  }

  /** The sum of the durations of the unplanned actions; None where Python's
      `sum` meets a None duration (an action still open) and raises TypeError. */
  function TotalDuration(actions: seq<UnplannedHvacAction>): (r: Option<int>)
    ensures r.None? <==> exists i :: 0 <= i < |actions| && actions[i].duration.None?
    ensures r.Some? && (forall i :: 0 <= i < |actions| ==> actions[i].duration.value >= 0) ==> r.value >= 0
  {
    if actions == [] then Some(0)
    else
      var rest := TotalDuration(actions[1..]);
      if actions[0].duration.None? || rest.None? then
        assert rest.None? ==> exists i :: 1 <= i < |actions| && actions[i].duration.None? by {
          if rest.None? {
            var j :| 0 <= j < |actions[1..]| && actions[1..][j].duration.None?;
            assert actions[j + 1].duration.None?;
          }
        }
        None
      else
        assert forall i :: 1 <= i < |actions| ==> actions[i] == actions[1..][i - 1];
        Some(actions[0].duration.value + rest.value)
  }

  /** Adding a closed action adds its duration to the total. */
  lemma {:induction false} TotalDurationAppend(a: seq<UnplannedHvacAction>, x: UnplannedHvacAction)
    requires TotalDuration(a).Some? && x.duration.Some?
    ensures TotalDuration(a + [x]) == Some(TotalDuration(a).value + x.duration.value)
  {
    if a != [] {
      assert (a + [x])[1..] == a[1..] + [x];
      TotalDurationAppend(a[1..], x);
    }
  }

  /** `end_temp - start_temp` when both are set and non-zero (truthy). */
  function TempError(z: ZoneData): (r: Option<real>)
    ensures r.Some? <==> z.endTemp.Some? && z.endTemp.value != 0.0 && z.startTemp.Some? && z.startTemp.value != 0.0
    ensures r.Some? ==> z.startTemp.value + r.value == z.endTemp.value
  {
    if z.endTemp.Some? && z.endTemp.value != 0.0 && z.startTemp.Some? && z.startTemp.value != 0.0
    then Some(z.endTemp.value - z.startTemp.value)
    else None
  }

  /** The zone dictionary's items, in insertion order. */
  function Items(d: SummaryData): (r: seq<(string, ZoneData)>)
    requires WellFormed(d)
    ensures |r| == |d.zoneOrder|
    ensures forall i :: 0 <= i < |r| ==> r[i].0 == d.zoneOrder[i] && r[i].1 == d.zones[d.zoneOrder[i]]
  {
    seq(|d.zoneOrder|, i requires 0 <= i < |d.zoneOrder| => (d.zoneOrder[i], d.zones[d.zoneOrder[i]]))
  }

  /** The row of zone `name`.  A stored forecast raises AttributeError (the
      row reads forecast attributes the forecast summary does not have); an
      open unplanned action raises TypeError in the duration sum. */
  function ZoneEventFor(date: Option<int>, forecast: Option<Forecast.DailyForecast>, name: string, z: ZoneData)
    : (r: Result<ZoneEvent>)
    ensures r.Err? <==> forecast.Some? || TotalDuration(z.unplannedHvacActions).None?
    ensures r.Err? ==> r.error == (if forecast.Some? then AttributeError else TypeError)
  {
    if forecast.Some? then Err(AttributeError)
    else
      var total := TotalDuration(z.unplannedHvacActions);
      if total.None? then Err(TypeError)
      else
        var recs := z.temperatureRecords;
        Ok(ZoneEvent(
          date, None, None, None, None, None,
          name, z.hvacAction, z.duration,
          |z.unplannedHvacActions|, total.value,
          z.targetTemp, z.startTemp, z.endTemp,
          if |recs| > 0 then Some(recs[0].temperature) else None,
          if |recs| > 1 then Some(recs[1].temperature) else None,
          if |recs| > 0 then Some(recs[|recs| - 1].temperature) else None,
          TempError(z)))
  }

  /** Without a stored forecast, the row of a zone has no forecast values
      and carries the zone's name, planned run and target, starting and
      completion temperatures, the count and total duration of its unplanned
      actions, its first, second
      and last post-completion samples and its temperature error. */
  lemma ZoneEventRow(date: Option<int>, name: string, z: ZoneData)
    requires TotalDuration(z.unplannedHvacActions).Some?
    ensures ZoneEventFor(date, None, name, z).Ok?
    ensures var ev := ZoneEventFor(date, None, name, z).value;
              var recs := z.temperatureRecords;
              && ev.zoneName == name && ev.date == date
              && ev.hvacAction == z.hvacAction && ev.hvacActionDuration == z.duration
              && ev.forecastMinTemp.None? && ev.forecastMaxTemp.None? && ev.forecastAvgTemp.None?
              && ev.forecastTotalSolarRadiation.None? && ev.forecastAvgHumidity.None?
              && ev.zoneTargetTemp == z.targetTemp
              && ev.zoneStartingTemp == z.startTemp && ev.zoneCompletionTemp == z.endTemp
              && ev.unexpectedHvacActionEvents == |z.unplannedHvacActions|
              && Some(ev.unexpectedHvacActionDuration) == TotalDuration(z.unplannedHvacActions)
              && ev.zonePostCompletionTemp1 == (if |recs| > 0 then Some(recs[0].temperature) else None)
              && ev.zonePostCompletionTemp2 == (if |recs| > 1 then Some(recs[1].temperature) else None)
              && ev.zoneFinalTemp == (if |recs| > 0 then Some(recs[|recs| - 1].temperature) else None)
              && ev.zoneTempError == TempError(z)
  {
  }

  /** What `write_summary_to_csv` writes for the zone items: the rows up to
      the first zone whose row raises, and how the export ends. */
  function Export(date: Option<int>, forecast: Option<Forecast.DailyForecast>, items: seq<(string, ZoneData)>)
    : (r: (seq<ZoneEvent>, Outcome))
    ensures |r.0| <= |items|
    ensures r.1.Pass? <==> |r.0| == |items|
  {
    if items == [] then ([], Pass)
    else
      match ZoneEventFor(date, forecast, items[0].0, items[0].1)
      case Err(e) => ([], Fail(e))
      case Ok(ev) =>
        var rest := Export(date, forecast, items[1..]);
        ([ev] + rest.0, rest.1)
  }

  /** The exported rows are the rows of the leading zone items, in order,
      and a failed export stops at the first item whose row raises, with that
      row's exception. */
  lemma {:induction false} ExportRowsInOrder(date: Option<int>, forecast: Option<Forecast.DailyForecast>,
                                             items: seq<(string, ZoneData)>)
    ensures var (events, outcome) := Export(date, forecast, items);
      && (forall i :: 0 <= i < |events| ==> ZoneEventFor(date, forecast, items[i].0, items[i].1) == Ok(events[i]))
      && (outcome.Fail? ==> ZoneEventFor(date, forecast, items[|events|].0, items[|events|].1) == Err(outcome.error))
  {
    if items != [] && ZoneEventFor(date, forecast, items[0].0, items[0].1).Ok? {
      ExportRowsInOrder(date, forecast, items[1..]);
    }
  }

  /** With no forecast stored and every unplanned action closed, every zone
      gets its row. */
  lemma {:induction false} ExportComplete(date: Option<int>, items: seq<(string, ZoneData)>)
    requires forall k, i :: 0 <= k < |items| && 0 <= i < |items[k].1.unplannedHvacActions| ==>
               items[k].1.unplannedHvacActions[i].duration.Some?
    ensures Export(date, None, items).1 == Pass && |Export(date, None, items).0| == |items|
  {
    if items != [] {
      ExportComplete(date, items[1..]);
    }
  }

  /** A line of the exported table: the header row, or the values row of
      an event. */
  datatype Line = HeaderLine | ValuesLine(event: ZoneEvent)

  /** The cells the CSV writer writes for a line. */
  function Cells(l: Line): seq<Cell> {
    match l
    case HeaderLine => Headers()
    case ValuesLine(e) => Values(e)
  }

  /** Every line of the table has one cell per column. */
  lemma LinesHaveAllColumns(l: Line)
    ensures |Cells(l)| == |ZoneEventFields| == 18
  {
  }

  /** The values lines of a sequence of events, one per event, in order. */
  function ValueLines(events: seq<ZoneEvent>): (r: seq<Line>)
    ensures |r| == |events|
  {
    if events == [] then [] else ValueLines(events[..|events| - 1]) + [ValuesLine(events[|events| - 1])]
  }

  /** The file's lines after exporting `events` to a file that held `lines`
      (and existed iff `present`): the header goes first when the file was
      new and at least one row is written. */
  function CsvAfter(present: bool, lines: seq<Line>, events: seq<ZoneEvent>): seq<Line> {
    lines + (if present || events == [] then [] else [HeaderLine]) + ValueLines(events)
  }

  lemma CsvAfterAppend(present: bool, lines: seq<Line>, events: seq<ZoneEvent>, e: ZoneEvent)
    ensures CsvAfter(present, lines, events + [e]) ==
            CsvAfter(present, lines, events) + (if present || events != [] then [] else [HeaderLine]) + [ValuesLine(e)]
  {
    assert (events + [e])[..|events|] == events;
  }

  /** Unfolding the export one zone item at a time: the export of the
      whole list is the rows written so far followed by the export of the
      remaining items. */
  predicate ExportSplit(date: Option<int>, forecast: Option<Forecast.DailyForecast>, items: seq<(string, ZoneData)>,
                        written: seq<ZoneEvent>, i: nat)
    requires i <= |items|
  {
    var whole := Export(date, forecast, items);
    var rest := Export(date, forecast, items[i..]);
    whole.0 == written + rest.0 && whole.1 == rest.1
  }

  lemma ExportStart(date: Option<int>, forecast: Option<Forecast.DailyForecast>, items: seq<(string, ZoneData)>)
    ensures ExportSplit(date, forecast, items, [], 0)
  {
    assert items[0..] == items;
  }

  lemma ExportAdvance(date: Option<int>, forecast: Option<Forecast.DailyForecast>, items: seq<(string, ZoneData)>,
                      written: seq<ZoneEvent>, i: nat)
    requires i < |items| && ExportSplit(date, forecast, items, written, i)
    requires ZoneEventFor(date, forecast, items[i].0, items[i].1).Ok?
    ensures ExportSplit(date, forecast, items, written + [ZoneEventFor(date, forecast, items[i].0, items[i].1).value], i + 1)
  {
    assert items[i..][0] == items[i];
    assert items[i..][1..] == items[i + 1..];
    var ev := ZoneEventFor(date, forecast, items[i].0, items[i].1).value;
    var rest := Export(date, forecast, items[i + 1..]).0;
    assert written + ([ev] + rest) == (written + [ev]) + rest;
  }

  lemma ExportStops(date: Option<int>, forecast: Option<Forecast.DailyForecast>, items: seq<(string, ZoneData)>,
                    written: seq<ZoneEvent>, i: nat)
    requires i < |items| && ExportSplit(date, forecast, items, written, i)
    requires ZoneEventFor(date, forecast, items[i].0, items[i].1).Err?
    ensures Export(date, forecast, items) == (written, Fail(ZoneEventFor(date, forecast, items[i].0, items[i].1).error))
  {
    assert items[i..][0] == items[i];
    assert written + [] == written;
  }

  lemma ExportEnd(date: Option<int>, forecast: Option<Forecast.DailyForecast>, items: seq<(string, ZoneData)>,
                  written: seq<ZoneEvent>)
    requires ExportSplit(date, forecast, items, written, |items|)
    ensures Export(date, forecast, items) == (written, Pass)
  {
    assert items[|items|..] == [];
    assert written + [] == written;
  }

  /** The export table: whether the file exists, and the lines written to
      it. */
  class CsvFile {
    var present: bool
    var lines: seq<Line>

    constructor (present: bool, lines: seq<Line>)
      ensures this.present == present && this.lines == lines
    {
      this.present := present;
      this.lines := lines;
    }
  }

  /** `ZoneEvent.write_to_csv`: append the event's values line, with the
      header line first when the file did not exist. */
  method WriteToCsv(e: ZoneEvent, file: CsvFile)
    modifies file
    ensures file.present
    ensures file.lines == old(file.lines) + (if old(file.present) then [] else [HeaderLine]) + [ValuesLine(e)]
  {
    var fileExists := file.present;
    if !fileExists {
      file.lines := file.lines + [HeaderLine];
    }
    file.lines := file.lines + [ValuesLine(e)];
    file.present := true;
  }

  /** The loop of `write_summary_to_csv`: one row per zone item in order,
      the header only when the file is new; an error stops the export after
      the rows already written. */
  method WriteRows(date: Option<int>, forecast: Option<Forecast.DailyForecast>, items: seq<(string, ZoneData)>,
                   file: CsvFile)
    returns (o: Outcome)
    modifies file
    ensures o == Export(date, forecast, items).1
    ensures file.present == (old(file.present) || Export(date, forecast, items).0 != [])
    ensures file.lines == CsvAfter(old(file.present), old(file.lines), Export(date, forecast, items).0)
  {
    ghost var written: seq<ZoneEvent> := [];
    var i := 0;
    ExportStart(date, forecast, items);
    while i < |items|
      invariant 0 <= i <= |items|
      invariant ExportSplit(date, forecast, items, written, i)
      invariant file.present == (old(file.present) || written != [])
      invariant file.lines == CsvAfter(old(file.present), old(file.lines), written)
    {
      var (name, z) := items[i];
      var event := ZoneEventFor(date, forecast, name, z);
      if event.Err? {
        ExportStops(date, forecast, items, written, i);
        return Fail(event.error);
      }
      WriteToCsv(event.value, file);
      CsvAfterAppend(old(file.present), old(file.lines), written, event.value);
      ExportAdvance(date, forecast, items, written, i);
      written := written + [event.value];
      i := i + 1;
    }
    ExportEnd(date, forecast, items, written);
    return Pass;
  }

  /** The day's summary, a persisted record whose zone dictionary maps each
      started zone to its summary. */
  class DailySummary {
    var date: Option<int>
    var forecast: Option<Forecast.DailyForecast>
    var zones: map<string, ZoneData>
    var zoneOrder: seq<string>
    const cache: Cache
    const cacheKey: string

    /** `model_dump()`: the summary as it is stored. */
    function Snapshot(): SummaryData
      reads this
    {
      SummaryData(date, forecast, zoneOrder, zones)
    }

    /** The order lists every zone once and the cache holds well-formed
        summaries. */
    ghost predicate Valid()
      reads this, cache
    {
      cache.Valid() && WellFormed(Snapshot())
    }

    /** A default instance on the given cache key. */
    constructor (cache: Cache, cacheKey: string)
      requires cache.Valid()
      ensures Valid() && this.cache == cache && this.cacheKey == cacheKey
      ensures Snapshot() == Default
    {
      this.cache := cache;
      this.cacheKey := cacheKey;
      date, forecast, zones, zoneOrder := None, None, map[], [];
    }

    /** An instance built from stored data. */
    constructor FromData(cache: Cache, cacheKey: string, d: SummaryData)
      requires cache.Valid() && WellFormed(d)
      ensures Valid() && this.cache == cache && this.cacheKey == cacheKey
      ensures Snapshot() == d
    {
      this.cache := cache;
      this.cacheKey := cacheKey;
      date, forecast, zones, zoneOrder := d.date, d.forecast, d.zones, d.zoneOrder;
    }

    /** `PersistentBase.load`: the stored summary, or a default one. */
    static method Load(cache: Cache, cacheKey: string) returns (s: DailySummary)
      requires cache.Valid()
      ensures fresh(s) && s.Valid() && s.cache == cache && s.cacheKey == cacheKey
      ensures s.Snapshot() == if cacheKey in cache.entries then cache.entries[cacheKey] else Default
    {
      if cacheKey in cache.entries {
        s := new DailySummary.FromData(cache, cacheKey, cache.entries[cacheKey]);
      } else {
        s := new DailySummary(cache, cacheKey);
      }
    }

    /** `save`: write the whole summary under its key. */
    method Save()
      requires Valid()
      modifies cache
      ensures Valid()
      ensures cache.entries == old(cache.entries)[cacheKey := Snapshot()]
    {
      cache.entries := cache.entries[cacheKey := Snapshot()];
    }

    /** `clear`: delete the stored summary. */
    method Clear()
      requires Valid()
      modifies cache
      ensures Valid()
      ensures cache.entries == old(cache.entries) - {cacheKey}
    {
      cache.entries := cache.entries - {cacheKey};
    }

    /** `cache_exists`: whether a summary is stored under the key. */
    method CacheExists() returns (b: bool)
      ensures b <==> cacheKey in cache.entries
    {
      b := cacheKey in cache.entries;
    }

    /** `get_started_zones`: every zone, in the order it was started. */
    function StartedZones(): (r: seq<string>)
      reads this, cache
      requires Valid()
      ensures Distinct(r) && forall k :: k in r <==> k in zones
      ensures r == zoneOrder
    {
      zoneOrder
    }

    /** `get_completed_zones`: the started zones whose summary is completed. */
    function CompletedZones(): (r: seq<string>)
      reads this
      ensures forall k :: k in r <==> k in zoneOrder && k in zones && zones[k].completed
      ensures r == CompletedOf(zoneOrder, zones)
    {
      CompletedOf(zoneOrder, zones)
    }

    /** `set_start_time`: stamp the summary with the day it started and save. */
    method SetStartTime(now: int)
      requires Valid()
      modifies this, cache
      ensures Valid()
      ensures Snapshot() == old(Snapshot()).(date := Some(now))
      ensures cache.entries == old(cache.entries)[cacheKey := Snapshot()]
    {
      date := Some(now);
      Save();
    }

    /** `start_zone`: create or replace the zone's summary and save. */
    method StartZone(entity: string, hvacAction: string, startTime: Option<int>, endTime: Option<int>,
                     targetTemp: Option<real>, startTemp: Option<real>, outsideTemp: Option<real>, now: int)
      returns (o: Outcome)
      requires Valid()
      modifies this, cache
      ensures Valid()
      ensures o.Fail? <==> endTime.Some? && startTime.None?
      ensures o.Fail? ==> o.error == TypeError && Snapshot() == old(Snapshot()) && cache.entries == old(cache.entries)
      ensures o.Pass? ==>
                && Snapshot() == WithZone(old(Snapshot()), entity,
                                          StartedZone(entity, hvacAction, startTime, endTime, targetTemp,
                                                      startTemp, outsideTemp, now))
                && cache.entries == old(cache.entries)[cacheKey := Snapshot()]
    {
      if endTime.Some? && startTime.None? {
        return Fail(TypeError);
      }
      var zone := StartedZone(entity, hvacAction, startTime, endTime, targetTemp, startTemp, outsideTemp, now);
      if entity !in zones {
        zoneOrder := zoneOrder + [entity];
      }
      zones := zones[entity := zone];
      Save();
      return Pass;
    }

    /** `complete_zone`: record the end temperature and mark the zone
        completed; KeyError for an unknown zone. */
    method CompleteZone(entity: string, endTemp: real) returns (o: Outcome)
      requires Valid()
      modifies this, cache
      ensures Valid()
      ensures o.Fail? <==> entity !in old(zones)
      ensures o.Fail? ==> o.error == KeyError && Snapshot() == old(Snapshot()) && cache.entries == old(cache.entries)
      ensures o.Pass? ==>
                && Snapshot() == WithZone(old(Snapshot()), entity,
                                          old(zones[entity]).(endTemp := Some(endTemp), completed := true))
                && cache.entries == old(cache.entries)[cacheKey := Snapshot()]
    {
      if entity !in zones {
        return Fail(KeyError);
      }
      zones := zones[entity := zones[entity].(endTemp := Some(endTemp), completed := true)];
      Save();
      return Pass;
    }

    /** `start_unplanned_hvac_action`: open an unplanned action on a known
        zone and save; ValueError and nothing saved otherwise. */
    method StartUnplannedHvacAction(entity: string, hvacAction: string, startTime: Option<int>, now: int)
      returns (o: Outcome)
      requires Valid()
      modifies this, cache
      ensures Valid()
      ensures o.Fail? <==> entity !in old(zones)
      ensures o.Fail? ==> o.error == ValueError && Snapshot() == old(Snapshot()) && cache.entries == old(cache.entries)
      ensures o.Pass? ==>
                var z := old(zones[entity]);
                && Snapshot() == WithZone(old(Snapshot()), entity,
                     z.(unplannedHvacActions := z.unplannedHvacActions +
                          [UnplannedHvacAction(Some(hvacAction), Some(startTime.GetOr(now)), None, None, false)]))
                && cache.entries == old(cache.entries)[cacheKey := Snapshot()]
    {
      if entity !in zones {
        return Fail(ValueError);
      }
      var z := zones[entity];
      var action := UnplannedHvacAction(Some(hvacAction), Some(startTime.GetOr(now)), None, None, false);
      zones := zones[entity := z.(unplannedHvacActions := z.unplannedHvacActions + [action])];
      Save();
      return Pass;
    }

    /** `complete_unplanned_hvac_action`: finalize the zone's last unplanned
        action and save; ValueError for an unknown zone.  An error raised while
        finalizing leaves the store as it was, while the in-memory summary
        keeps whatever the zone update did before the error. */
    method CompleteUnplannedHvacAction(entity: string, endTime: Option<int>, now: int) returns (o: Outcome)
      requires Valid()
      modifies this, cache
      ensures Valid()
      ensures entity !in old(zones) ==>
                o == Fail(ValueError) && Snapshot() == old(Snapshot()) && cache.entries == old(cache.entries)
      ensures entity in old(zones) ==>
                var z := old(zones[entity]);
                var (actions, outcome) := FinalizeLast(z.unplannedHvacActions, endTime.GetOr(now));
                && o == outcome
                && Snapshot() == WithZone(old(Snapshot()), entity, z.(unplannedHvacActions := actions))
                && cache.entries == if o.Pass? then old(cache.entries)[cacheKey := Snapshot()] else old(cache.entries)
    {
      if entity !in zones {
        return Fail(ValueError);
      }
      var z := zones[entity];
      var finalized := FinalizeLast(z.unplannedHvacActions, endTime.GetOr(now));
      zones := zones[entity := z.(unplannedHvacActions := finalized.0)];
      o := finalized.1;
      if o.Pass? {
        Save();
      }
    }

    /** `add_delay_temperature`: add a post-completion sample to a known zone
        and save; ValueError for an unknown zone or a zone without end time,
        and nothing changed then. */
    method AddDelayTemperature(entity: string, temperature: real, timestamp: Option<int>, now: int)
      returns (r: Result<TemperatureRecord>)
      requires Valid()
      modifies this, cache
      ensures Valid()
      ensures entity !in old(zones) ==> r == Err(ValueError)
      ensures entity in old(zones) ==> r == EndTemperatureRecord(old(zones[entity]), temperature, timestamp.GetOr(now))
      ensures r.Err? ==> Snapshot() == old(Snapshot()) && cache.entries == old(cache.entries)
      ensures r.Ok? ==>
                var z := old(zones[entity]);
                && Snapshot() == WithZone(old(Snapshot()), entity,
                                          z.(temperatureRecords := z.temperatureRecords + [r.value]))
                && cache.entries == old(cache.entries)[cacheKey := Snapshot()]
    {
      if entity !in zones {
        return Err(ValueError);
      }
      var z := zones[entity];
      r := EndTemperatureRecord(z, temperature, timestamp.GetOr(now));
      if r.Err? {
        return;
      }
      zones := zones[entity := z.(temperatureRecords := z.temperatureRecords + [r.value])];
      Save();
    }

    /** `write_summary_to_csv` on this summary's zones. */
    method WriteSummaryToCsv(file: CsvFile) returns (o: Outcome)
      requires Valid()
      modifies file
      ensures o == Export(date, forecast, Items(Snapshot())).1
      ensures file.present == (old(file.present) || Export(date, forecast, Items(Snapshot())).0 != [])
      ensures file.lines == CsvAfter(old(file.present), old(file.lines), Export(date, forecast, Items(Snapshot())).0)
    {
      o := WriteRows(date, forecast, Items(Snapshot()), file);
    }
  }

  /** Saving and loading back under the same key gives the same summary. */
  method SaveLoadRoundTrip(s: DailySummary) returns (t: DailySummary)
    requires s.Valid()
    modifies s.cache
    ensures fresh(t) && t.Valid() && t.Snapshot() == s.Snapshot()
  {
    s.Save();
    t := DailySummary.Load(s.cache, s.cacheKey);
  }

  /** After `clear` the summary no longer exists, and a load gives the
      default summary. */
  method ClearThenLoad(s: DailySummary) returns (stored: bool, t: DailySummary)
    requires s.Valid()
    modifies s.cache
    ensures !stored && t.Snapshot() == Default
  {
    s.Clear();
    stored := s.CacheExists();
    t := DailySummary.Load(s.cache, s.cacheKey);
  }
}
