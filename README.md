# Peak-efficiency heat soak, modelled in Dafny

The peak-efficiency apps run under AppDaemon and drive Home Assistant thermostats.
While the house is in away mode they pre-heat ("heat-soak") every zone that is in
"heat" mode, one zone after the other, ahead of the evening electricity peak. Each
zone is held at a heat-to temperature for its own duration. The zone is then
restored to its setback temperature and the next zone starts.

The model covers five parts of the repository:

- `Forecast` (forecast.dfy, `apps/peakefficiency/forecast.py`): the warmest-window
  search that picks today's start time, the overnight-hours filter, and the
  min/count/first/last parts of the overnight summary.
- `PersistentScheduling` (scheduler.dfy, `apps/peakefficiency/persistent_scheduler.py`):
  the durable job scheduler. Jobs live in a key/value store under `job:<id>`, next to
  an in-memory table from job id to timer handle. It is a class whose methods are
  proved equal to pure step functions on a `SchedulerState`.
- `Summary` (summary.dfy, `apps/peakefficiency/summary.py`): the persisted daily
  summary with one record per zone, its zone summaries, and the CSV export of one
  row per zone. These are classes updated in place, plus the store (`Cache`) and the
  export file (`CsvFile`).
- `PeakEfficiencyApp` (soak.dfy, `apps/peakefficiency/main.py`): the current app. It
  has a zone queue, a single in-flight `ClimateState` slot in the on-disk cache, a
  Home Assistant restore timer, restart recovery, and the daily scheduling decision.
- `PeakEfficiencyLegacy` (legacy.dfy, `apps/PeakEfficiency.py`): the earlier
  revision. Every zone gets a fixed 20 minutes, and the restore is a delayed callback
  that carries the zone's readings.

`HomeAssistant` (hass.dfy) holds the snapshot of entity states that a callback reads,
and the "heat"-mode filter both app revisions use. `Common` (common.dfy) holds
`Option`, `Result`, the Python exceptions that can be raised (`Error`), and the
success-or-exception `Outcome` of a callback.

How the model represents the system:

- Time is integer seconds. A date is `t / 86400` and an hour is `(t % 86400) / 3600`.
- Temperatures are `real`.
- Home Assistant is a `Home` value of entity states and current temperatures. Each
  callback is given one snapshot, because AppDaemon runs callbacks one at a time.
- Service calls, timers and scheduler requests are appended to a `calls` sequence.
  Log lines go to a separate `logs` sequence, as a datatype naming the line and the
  values it mentions. Timer handles come from a counter.
- Each callback is a pure step function from one state to the next. The app classes
  carry the same fields, and their methods are proved to perform exactly those
  steps. The whole-run properties are then proved as lemmas over the step functions.

Where the code does something other than what its comments or the design describe,
the model follows the code:

- Expired jobs stay in the store (`RestoreKeepsCache`).
- Rescheduling an armed id does not cancel its earlier timer (`RescheduleKeepsOldTimer`).
- Finalizing an already completed unplanned action raises `AttributeError`
  (`FinalizeLast`).
- A stored forecast makes every export row raise `AttributeError` (`ZoneEventFor`).
- `complete_zone` on an unknown zone raises `KeyError`, not `ValueError`
  (`DailySummary.CompleteZone`).
- The earlier revision restores through the service named `climate.set_temperature`
  (dot), while its test at tests/test_peakefficiency.py:71 expects `climate/set_temperature`
  (`OverrideAndRestoreServices`).

## Model

| member | source | states |
|---|---|---|
| Forecast.Hour | apps/peakefficiency/forecast.py:141-142 | the hour of a timestamp is between 0 and 23 |
| Forecast.BlockSize | apps/peakefficiency/forecast.py:105 | the window is the least whole number of hours that covers `minutes` (ceiling) |
| Forecast.BestAmong | apps/peakefficiency/forecast.py:114-125 | the scan over the first k windows returns a window that starts today, that no considered window beats, and that is strictly warmer than every earlier considered window; None means that no window starts today |
| Forecast.BestWindowUnique | apps/peakefficiency/forecast.py:123-125 | the strict comparison makes the best window unique (ties go to the earliest) |
| Forecast.WarmestStart | apps/peakefficiency/forecast.py:104-132 | ValueError exactly when the forecast is shorter than one window. Otherwise the block size comes second, and the start is that of the unique best window that starts today, or None when there is no such window or it starts before now |
| Forecast.WarmestHours | apps/peakefficiency/forecast.py:104-132 | the sliding-window loop with `max_sum` and `best_start_time` returns exactly `WarmestStart` |
| Forecast.Overnight | apps/peakefficiency/forecast.py:134-144 | the result holds only entries whose hour is at least 20 or at most 8; every such entry of the input is kept |
| Forecast.OvernightAppend | apps/peakefficiency/forecast.py:139-144 | filtering distributes over concatenation, so the input order is kept |
| Forecast.FilterOvernightHours | apps/peakefficiency/forecast.py:134-144 | the appending loop returns exactly the order-preserving overnight subsequence |
| Forecast.Temps | apps/peakefficiency/forecast.py:153 | the temperatures, position for position |
| Forecast.MinTemp | apps/peakefficiency/forecast.py:157 | `min` is an element of the list and no element is smaller |
| Forecast.IndexOf | apps/peakefficiency/forecast.py:165 | `index` finds the first position that holds the value |
| Forecast.CountBelowZero | apps/peakefficiency/forecast.py:162 | the count is zero iff no temperature is below zero, and equals the length iff all are |
| Forecast.CountBelowZeroAppend | apps/peakefficiency/forecast.py:162 | the count adds up over concatenation |
| Forecast.CountBelowZeroSingle | apps/peakefficiency/forecast.py:162 | a single temperature counts 1 iff it is below zero, and 0 otherwise; with the previous row, the count is the number of temperatures below zero |
| Forecast.Summarize | apps/peakefficiency/forecast.py:146-180 | no summary iff there are no overnight entries. Otherwise: start and end are the first and last overnight entries; the minimum bounds every overnight temperature; the hour is that of its first occurrence; the below-zero count is within the number of entries |
| Forecast.SummarizeCountsBelowZero | apps/peakefficiency/forecast.py:162 | `duration_below_zero` is the number of overnight temperatures below zero |
| HomeAssistant.HeatQueue | apps/peakefficiency/main.py:183 | the queue holds exactly the listed entities in "heat" mode, and no more of them than the list |
| HomeAssistant.HeatQueueAppend | apps/peakefficiency/main.py:183 | the filter keeps the order of the entity list |
| HomeAssistant.HeatQueueDistinct | apps/PeakEfficiency.py:37 | a list without repeats gives a queue without repeats, so no zone is heated twice in one run |
| PersistentScheduling.DeserializeSerialize | apps/peakefficiency/persistent_scheduler.py:17-25 | deserializing a serialized job gives back its handler name, run time and kwargs |
| PersistentScheduling.DeserializeWithoutKwargs | apps/peakefficiency/persistent_scheduler.py:25 | a record without kwargs reads as an empty map |
| PersistentScheduling.Find | apps/peakefficiency/persistent_scheduler.py:69 | the first occurrence of a pattern, or proof that there is none |
| PersistentScheduling.IdFromJobKey | apps/peakefficiency/persistent_scheduler.py:14-15 | an id without `job:` inside is recovered unchanged from its key by the prefix split |
| PersistentScheduling.IdFromJobKeyCut | apps/peakefficiency/persistent_scheduler.py:69 | an id that contains `job:` comes back cut at its first occurrence, so it differs from the scheduled id |
| PersistentScheduling.JobKeyInjective | apps/peakefficiency/persistent_scheduler.py:14-15 | different ids have different store keys |
| PersistentScheduling.Delay | apps/peakefficiency/persistent_scheduler.py:36-37 | the delay is never negative: 0 for a past run time, otherwise the time left |
| PersistentScheduling.ScheduleStep | apps/peakefficiency/persistent_scheduler.py:27-42 | returns the given non-empty id or a fresh one, overwrites its record and handle, and writes the record before arming the timer with `Delay` |
| PersistentScheduling.RunJobStep | apps/peakefficiency/persistent_scheduler.py:44-61 | with no stored record it only logs a warning. Otherwise it calls the named handler exactly once with the stored kwargs (or `{}`) when the name resolves, and logs an error and calls nothing when it does not. It then deletes the record last and forgets the handle; the log only grows |
| PersistentScheduling.Fired | apps/peakefficiency/persistent_scheduler.py:54-60 | one firing calls the handler once with its kwargs when the name resolves; otherwise it starts with the error log and calls nothing; the record delete comes last |
| PersistentScheduling.CancelStep | apps/peakefficiency/persistent_scheduler.py:83-89 | always deletes the record; cancels and forgets the handle only when one is held |
| PersistentScheduling.FutureJobs | apps/peakefficiency/persistent_scheduler.py:75-76 | the jobs to re-arm each have a positive delay, at most one per key |
| PersistentScheduling.RestoreKeepsCache | apps/peakefficiency/persistent_scheduler.py:80-81 | restoring never deletes from the store: expired jobs stay |
| PersistentScheduling.RestoreOneArms | apps/peakefficiency/persistent_scheduler.py:66-81 | one loop turn arms the key's job iff it holds a job due strictly after now, and calls no handler |
| PersistentScheduling.RestoreArmsFutureJobs | apps/peakefficiency/persistent_scheduler.py:63-81 | restoring arms exactly the future jobs, in key order, each with its time left, one handle each, and calls no handler |
| PersistentScheduling.RestoreTracksFutureJobs | apps/peakefficiency/persistent_scheduler.py:63-81 | afterwards the handle table holds the earlier ids plus the id of every future job, and nothing else |
| PersistentScheduling.ScheduleKeepsTracked | apps/peakefficiency/persistent_scheduler.py:27-42 | scheduling keeps every held handle backed by a stored record |
| PersistentScheduling.RunJobKeepsTracked | apps/peakefficiency/persistent_scheduler.py:44-61 | running a job keeps every held handle backed by a stored record |
| PersistentScheduling.CancelKeepsTracked | apps/peakefficiency/persistent_scheduler.py:83-89 | cancelling keeps every held handle backed by a stored record |
| PersistentScheduling.RestoreKeepsTracked | apps/peakefficiency/persistent_scheduler.py:63-81 | restoring over well-formed keys keeps every held handle backed by a stored record |
| PersistentScheduling.SchedulePastFiresNow | apps/peakefficiency/persistent_scheduler.py:33-38 | a past run time is armed with delay 0, right after the record is written |
| PersistentScheduling.ScheduleThenRun | apps/peakefficiency/persistent_scheduler.py:27-61 | firing a freshly scheduled job calls its handler exactly once with its kwargs when the handler resolves, and none otherwise. It leaves the store and the handle table as before, minus that job, for a handler that does not call back into the scheduler |
| PersistentScheduling.RunTwiceRunsOnce | apps/peakefficiency/persistent_scheduler.py:46-50 | a second firing finds no record and only logs a warning |
| PersistentScheduling.RescheduleKeepsOldTimer | apps/peakefficiency/persistent_scheduler.py:33-40 | rescheduling an armed id overwrites its record and handle without cancelling the first timer. That timer runs the new record, and the new timer then finds nothing |
| PersistentScheduling.CancelIdempotent | apps/peakefficiency/persistent_scheduler.py:83-89 | cancelling twice leaves the same store and table as cancelling once |
| PersistentScheduling.PersistentScheduler.constructor | apps/peakefficiency/persistent_scheduler.py:8-12 | opening the store restores its jobs over the store's key listing |
| PersistentScheduling.PersistentScheduler.Schedule | apps/peakefficiency/persistent_scheduler.py:27-42 | performs `ScheduleStep` on the object's store, table and handle supply |
| PersistentScheduling.PersistentScheduler.RunJob | apps/peakefficiency/persistent_scheduler.py:44-61 | performs `RunJobStep` |
| PersistentScheduling.PersistentScheduler.RestoreJobs | apps/peakefficiency/persistent_scheduler.py:63-81 | the loop over the keys performs `RestoreAll` |
| PersistentScheduling.PersistentScheduler.CancelJob | apps/peakefficiency/persistent_scheduler.py:83-89 | performs `CancelStep` |
| Summary.WithZone | apps/peakefficiency/summary.py:182 | dictionary assignment sets exactly that zone and leaves the others unchanged. A new key goes last in insertion order, an existing key keeps its place |
| Summary.EndTemperatureRecord | apps/peakefficiency/summary.py:82-99 | ValueError iff the zone has no end time; otherwise the sample's distance from the end time is `timestamp - end_time` |
| Summary.FinalizeLast | apps/peakefficiency/summary.py:111-125 | only the last action can change. An empty list is a no-op. A completed last action raises AttributeError and is left alone. An open one with a start time is closed with `duration = end - start` |
| Summary.FinalizeTwice | apps/peakefficiency/summary.py:119-125 | a second finalize after a successful one changes nothing and raises AttributeError |
| Summary.ZoneSummary.constructor | apps/peakefficiency/summary.py:68-80 | the zone summary holds the given record |
| Summary.ZoneSummary.AddEndTemperature | apps/peakefficiency/summary.py:82-99 | appends exactly the returned record, and nothing on ValueError |
| Summary.ZoneSummary.AddUnplannedHvacAction | apps/peakefficiency/summary.py:101-109 | appends one open action and changes nothing else |
| Summary.ZoneSummary.FinalizeUnplannedHvacAction | apps/peakefficiency/summary.py:111-125 | performs `FinalizeLast` on the action list and changes nothing else |
| Summary.Cache.constructor | apps/peakefficiency/summary.py:29 | the store opened on the cache directory holds its entries |
| Summary.StartedZone | apps/peakefficiency/summary.py:169-180 | a started zone is not completed and has no samples or actions. Its start time is now, not the parameter, and its duration is `end - start` or 0 without an end time. The action, target, start and outside temperatures are stored as given |
| Summary.CompletedOf | apps/peakefficiency/summary.py:151 | exactly the zones whose summary is completed |
| Summary.CompletedOfAppend | apps/peakefficiency/summary.py:151 | the completed zones keep insertion order |
| Summary.HeaderCells | apps/peakefficiency/summary.py:296 | one header per field |
| Summary.AttrCells | apps/peakefficiency/summary.py:302 | one value per field |
| Summary.CellsLineUp | apps/peakefficiency/summary.py:291-302 | column i of the header names field i, and column i of the values holds that field's attribute |
| Summary.FieldNamesDistinct | apps/peakefficiency/summary.py:272-289 | no two columns share a header |
| Summary.LinesHaveAllColumns | apps/peakefficiency/summary.py:346-349 | the header line and every values line have all 18 columns |
| Summary.TotalDuration | apps/peakefficiency/summary.py:244 | the sum fails (TypeError in Python) iff some action has no duration; durations that are not negative give a total that is not negative |
| Summary.TotalDurationAppend | apps/peakefficiency/summary.py:244 | closing one more action adds its duration to the total |
| Summary.TempError | apps/peakefficiency/summary.py:251 | present iff both temperatures are set and non-zero, and then `start + error = end` |
| Summary.Items | apps/peakefficiency/summary.py:232 | the zone items in insertion order |
| Summary.ZoneEventFor | apps/peakefficiency/summary.py:233-252 | a row fails iff a forecast is stored (AttributeError) or an unplanned action is open (TypeError) |
| Summary.ZoneEventRow | apps/peakefficiency/summary.py:232-251 | with no stored forecast the five forecast columns are None; the row carries the zone's name, planned run, target, starting and completion temperatures, action count and total, samples [0], [1] and [-1] (or None), and temperature error |
| Summary.Export | apps/peakefficiency/summary.py:229-256 | the export succeeds iff every zone gets its row |
| Summary.ExportRowsInOrder | apps/peakefficiency/summary.py:232-254 | the rows are those of the zones in insertion order, and a failure stops at the first failing zone with its exception |
| Summary.ExportComplete | apps/peakefficiency/summary.py:232-254 | with no forecast and every action closed, every zone gets its row |
| Summary.WriteToCsv | apps/peakefficiency/summary.py:331-351 | appends one values line, preceded by the header only when the file did not exist |
| Summary.WriteRows | apps/peakefficiency/summary.py:232-254 | the loop writes exactly the rows of `Export`, with one header when the file was new and anything was written |
| Summary.DailySummary.constructor | apps/peakefficiency/summary.py:127-133 | a fresh summary has no date, no forecast and no zones |
| Summary.DailySummary.FromData | apps/peakefficiency/summary.py:46-47 | an instance built from stored data holds that data |
| Summary.DailySummary.Load | apps/peakefficiency/summary.py:36-50 | loads the stored summary under the key, or the default one |
| Summary.DailySummary.Save | apps/peakefficiency/summary.py:32-34 | stores the whole summary under its key and touches no other key |
| Summary.DailySummary.Clear | apps/peakefficiency/summary.py:52-53 | deletes exactly its key |
| Summary.DailySummary.CacheExists | apps/peakefficiency/summary.py:135-139 | true iff a summary is stored under the key |
| Summary.DailySummary.StartedZones | apps/peakefficiency/summary.py:141-145 | every zone, once each, in insertion order (the order `WithZone` maintains) |
| Summary.DailySummary.CompletedZones | apps/peakefficiency/summary.py:147-151 | exactly the started zones whose summary is completed, as the order-preserving filter `CompletedOf` of the insertion order |
| Summary.DailySummary.SetStartTime | apps/peakefficiency/summary.py:153-155 | sets the date to now and saves |
| Summary.DailySummary.StartZone | apps/peakefficiency/summary.py:165-183 | sets exactly that zone to `StartedZone` and saves. An end time without a start time raises TypeError and changes nothing |
| Summary.DailySummary.CompleteZone | apps/peakefficiency/summary.py:185-188 | sets the end temperature and completed on that zone only, then saves. KeyError and nothing changed for an unknown zone |
| Summary.DailySummary.StartUnplannedHvacAction | apps/peakefficiency/summary.py:190-201 | appends an open action to that zone and saves. ValueError and nothing saved for an unknown zone |
| Summary.DailySummary.CompleteUnplannedHvacAction | apps/peakefficiency/summary.py:203-214 | performs `FinalizeLast` on that zone and saves only on success. ValueError and nothing changed for an unknown zone |
| Summary.DailySummary.AddDelayTemperature | apps/peakefficiency/summary.py:216-227 | appends and returns the sample and saves. ValueError for an unknown zone or one without end time, and nothing changed |
| Summary.DailySummary.WriteSummaryToCsv | apps/peakefficiency/summary.py:229-256 | writes the rows of `Export` over the zone items to the file |
| Summary.SaveLoadRoundTrip | apps/peakefficiency/summary.py:32-50 | load after save under the same key gives the same summary |
| Summary.ClearThenLoad | apps/peakefficiency/summary.py:36-53 | after clear the summary does not exist and a load gives the default summary |
| PeakEfficiencyApp.DefaultConfigFacts | apps/peakefficiency/main.py:81-89 | the zone list is the duration map's keys without repeats, and a full run takes 120 minutes |
| PeakEfficiencyApp.ToRecord | apps/peakefficiency/main.py:38-40 | the stored object has exactly the three fields of `ClimateState` |
| PeakEfficiencyApp.FromRecord | apps/peakefficiency/main.py:42-46 | a missing or unexpected field raises TypeError, and a decoded state re-encodes to the same object |
| PeakEfficiencyApp.RecordRoundTrip | apps/peakefficiency/main.py:38-46 | decoding an encoded state gives it back |
| PeakEfficiencyApp.SaveClimateStateStep | apps/peakefficiency/main.py:231-247 | saving succeeds iff the slot is empty. An occupied slot raises ValueError and nothing changes, so at most one zone is in flight |
| PeakEfficiencyApp.GetClimateStateStep | apps/peakefficiency/main.py:249-265 | fails iff the slot is empty (ValueError) or undecodable. It returns the saved state and empties the slot only when asked |
| PeakEfficiencyApp.ProcessNextZoneStep | apps/peakefficiency/main.py:192-211 | an empty queue changes nothing but the log. Otherwise it pops exactly the head, overrides it iff not dry-running, saves its readings in the slot, and starts the timer with the zone's duration (default 1200 s) |
| PeakEfficiencyApp.StartHeatSoakStep | apps/peakefficiency/main.py:176-190 | disabled leaves everything unchanged. Otherwise the queue becomes the "heat" zones in list order; none means no zone is processed, and otherwise the first is started |
| PeakEfficiencyApp.StopHeatSoakStep | apps/peakefficiency/main.py:213-229 | consumes the slot, restores its zone iff not dry-running, then starts the next queued zone. An empty or undecodable slot fails and issues nothing |
| PeakEfficiencyApp.TimeOfDay | apps/peakefficiency/main.py:157 | the time of day is within one day and differs from the timestamp by whole days |
| PeakEfficiencyApp.ArmDailyFields | apps/peakefficiency/main.py:161-173 | once the run time is chosen: the log reports the start, then the cancel notice when a handle is held, then whether it will run. The held handle is cancelled but kept unless away mode re-arms it, and away mode arms one new daily run at that time with a fresh handle |
| PeakEfficiencyApp.ScheduleCancelsThenArms | apps/peakefficiency/main.py:137-173 | fails only on a forecast shorter than one window, then changing nothing. Otherwise it cancels any earlier handle without forgetting it, and arms a new daily run iff away mode is on. Queue and slot are untouched |
| PeakEfficiencyApp.ScheduledAtWarmestStart | apps/peakefficiency/main.py:140-157 | the daily run is at 15:00 without a forecast. With one, it is at the time of day of the best window that starts today and not before now, or at 15:00 when there is none |
| PeakEfficiencyApp.SplitTimeLeft | apps/peakefficiency/main.py:101-110 | `hours*3600 + minutes*60 + seconds = total` with minutes and seconds below 60 when time is left, and all zero otherwise |
| PeakEfficiencyApp.Rebuild | apps/peakefficiency/main.py:116-122 | the `found_current` flag ends true iff the current zone is in the list |
| PeakEfficiencyApp.RebuildBeforeCurrent | apps/peakefficiency/main.py:118-122 | nothing is queued before the current zone is met |
| PeakEfficiencyApp.RebuildAfterCurrent | apps/peakefficiency/main.py:112-122 | for a list without repeats, the rebuilt queue is the "heat" zones strictly after the current one, in list order |
| PeakEfficiencyApp.RestartStep | apps/peakefficiency/main.py:95-126 | without an active timer nothing changes. Otherwise the slot is read without clearing, failing on an empty slot. Given the timer's end, the queue is rebuilt when the current zone is in the list, and is kept otherwise |
| PeakEfficiencyApp.RestartQueuesZonesAfterCurrent | apps/peakefficiency/main.py:112-122 | after a restart mid-run the queue is exactly the "heat" zones that follow the interrupted one |
| PeakEfficiencyApp.StopAdvances | apps/peakefficiency/main.py:213-229 | a completion with zones queued restores the zone in flight, then heats the next zone and puts it in the slot |
| PeakEfficiencyApp.StopFinishes | apps/peakefficiency/main.py:213-229 | the last completion restores the zone in flight and leaves the slot empty |
| PeakEfficiencyApp.CompletionsFollowQueue | apps/peakefficiency/main.py:192-229 | with a zone in flight and q queued, \|q\|+1 completions restore it and then heat and restore each queued zone in order, leaving the slot empty |
| PeakEfficiencyApp.StartHeatsHead | apps/peakefficiency/main.py:176-211 | a start with zones in "heat" mode heats the first and puts it in the slot |
| PeakEfficiencyApp.SoakRunFollowsHeatQueue | apps/peakefficiency/main.py:176-229 | with N zones in "heat" mode, a start and N completions make one override/timer/restore cycle per zone, in list order, and end with an empty queue and slot |
| PeakEfficiencyApp.ZoneCyclesLive | apps/peakefficiency/main.py:201-224 | in a live run, calls 3i, 3i+1 and 3i+2 are zone i's override, timer start with its duration, and restore |
| PeakEfficiencyApp.ZoneCyclesDry | apps/peakefficiency/main.py:201-211 | a dry run makes only the timer starts, one per zone in order |
| PeakEfficiencyApp.PeakEfficiency.constructor | apps/peakefficiency/main.py:77-90 | the built-in zones and durations, the two temperatures, an empty queue, no daily handle, and the slot as the cache kept it |
| PeakEfficiencyApp.PeakEfficiency.SaveClimateState | apps/peakefficiency/main.py:231-247 | performs `SaveClimateStateStep` on the object |
| PeakEfficiencyApp.PeakEfficiency.GetClimateState | apps/peakefficiency/main.py:249-265 | performs `GetClimateStateStep` |
| PeakEfficiencyApp.PeakEfficiency.ProcessNextZone | apps/peakefficiency/main.py:192-211 | performs `ProcessNextZoneStep` |
| PeakEfficiencyApp.PeakEfficiency.StartHeatSoak | apps/peakefficiency/main.py:176-190 | performs `StartHeatSoakStep` |
| PeakEfficiencyApp.PeakEfficiency.StopHeatSoak | apps/peakefficiency/main.py:213-229 | performs `StopHeatSoakStep` |
| PeakEfficiencyApp.PeakEfficiency.ScheduleEnergySoakRun | apps/peakefficiency/main.py:137-173 | performs `ScheduleSoakRunStep`, with the window search done by the `WarmestHours` loop |
| PeakEfficiencyApp.PeakEfficiency.Restart | apps/peakefficiency/main.py:95-126 | the restart branch, with its `found_current` loop, performs `RestartStep` |
| PeakEfficiencyLegacy.ProcessNextClimateStep | apps/PeakEfficiency.py:46-64 | an empty queue makes no call. Otherwise it pops exactly the head, overrides iff not dry-running, and always schedules the restore after 1200 s with the zone's readings |
| PeakEfficiencyLegacy.StartOverrideStep | apps/PeakEfficiency.py:35-44 | the queue becomes the "heat" zones in list order; none means no call, and otherwise the first is started |
| PeakEfficiencyLegacy.RestoreTemperatureStep | apps/PeakEfficiency.py:66-80 | restores the payload's zone iff not dry-running, then advances the queue |
| PeakEfficiencyLegacy.QuietOutcomesAreLogged | apps/PeakEfficiency.py:40-58 | the exact last log line when nothing is in "heat" mode, when the queue is empty, and for a dry-run override |
| PeakEfficiencyLegacy.OverrideAndRestoreServices | apps/PeakEfficiency.py:56-73 | the override goes to `climate/set_temperature` and the restore to `climate.set_temperature` |
| PeakEfficiencyLegacy.RestoresFollowQueue | apps/PeakEfficiency.py:46-80 | with a restore pending and q queued, \|q\|+1 restores restore that zone and then heat and restore each queued zone in order |
| PeakEfficiencyLegacy.StartSchedulesHead | apps/PeakEfficiency.py:35-64 | a start with zones in "heat" mode leaves the first one's restore pending |
| PeakEfficiencyLegacy.RunFollowsHeatQueue | apps/PeakEfficiency.py:35-80 | with N zones in "heat" mode and every restore firing, N pops and N scheduled restores happen, one cycle per zone in list order |
| PeakEfficiencyLegacy.CyclesLive | apps/PeakEfficiency.py:46-80 | in a live run, calls 3i, 3i+1 and 3i+2 are zone i's override, scheduled restore and restore |
| PeakEfficiencyLegacy.CyclesDry | apps/PeakEfficiency.py:54-64 | a dry run only schedules, one restore per zone in order |
| PeakEfficiencyLegacy.PeakEfficiency.constructor | apps/PeakEfficiency.py:6-26 | the zone list, the two temperatures, an empty queue and the daily start at 15:00 |
| PeakEfficiencyLegacy.PeakEfficiency.ProcessNextClimate | apps/PeakEfficiency.py:46-64 | performs `ProcessNextClimateStep` on the object |
| PeakEfficiencyLegacy.PeakEfficiency.StartOverride | apps/PeakEfficiency.py:35-44 | performs `StartOverrideStep` |
| PeakEfficiencyLegacy.PeakEfficiency.RestoreTemperature | apps/PeakEfficiency.py:66-80 | performs `RestoreTemperatureStep` |

## Left out

- Home Assistant, AppDaemon and HTTP I/O. `get_state` is a snapshot passed to each step. `call_service`, `run_in`, `run_daily`, `cancel_timer` and timer starts are recorded as calls. Log lines are recorded as values, not as formatted text.
- The registrations in both `initialize` methods (`listen_state`, `listen_event`) and the 08:00 daily re-plan (apps/peakefficiency/main.py:93, 129-133). Callbacks are invoked directly.
- The latitude/longitude arguments: a forecast is passed in, or None when no location is configured.
- The entity checks and the temperature reading in both `initialize` methods. In the earlier revision this is `safe_get_float` (apps/PeakEfficiency.py:28-33): it falls back to 13 and 19.5 when a reading does not parse, and logs a warning. In the current app it is `HelperUtils`. The two temperatures are constructor parameters, so neither the defaults nor the warning are modelled. apps/PeakEfficiency/utils.py and apps/peakefficiency_/utils.py are not part of this model.
- The forecast fetch (`_get_hourly_forecast`, `get_forecast_data`) and the forecast debug logs. The hourly forecast is a parameter.
- The floating-point means in `summarize`.
- Timezones, ISO-8601 text, `str(timedelta)`, JSON text and `__str__`. Times are integer seconds, and the slot holds the decoded JSON object.
- `DailySummary.set_forecast`: it performs a network fetch.
- The CSV text encoding and file opening, and the `RuntimeError` wrapping of write errors. The file is a sequence of header and values lines plus an "existed" flag.
- Pydantic validation: values are taken as given, and `float(end_temp)` is the identity on a `real`.
- `uuid4`: the fresh id is a parameter. The handler lookup by name (`getattr`) is a set of resolvable names.
- The slot and restore-timer bookkeeping in the host: the timer's state and `finishes_at` are inputs to `Restart`.
- Summary.DailySummary.Load: only an absent key gives the default instance. A stored empty object (also falsy in Python) cannot arise, because `save` always stores all fields.
- Summary.DailySummary: a zone summary is stored in the zone map as a value. The aliasing of a `ZoneSummary` object shared between the map and a caller is not modelled. The zone updates made through the summary apply the same functions as the `ZoneSummary` class (`EndTemperatureRecord`, `FinalizeLast`) to that value. The class stands for a `ZoneSummary` used on its own, and its methods are proved against those same functions.
- PersistentScheduling.RunJobStep: a handler that raises leaves its record and its handle in place in the program, because the delete comes after the call. Here handlers always return, so the record and handle are always removed. Handlers are also taken not to call back into the scheduler: a call is a recorded effect that cannot change the store or the handle table. In the program the handler runs before the delete and the pop. A handler that reschedules its own job id therefore has its new record deleted and its new handle forgotten, and the new timer later finds nothing and only logs the missing-job warning. A handler that cancels its own id is followed by a second delete of the same key. `ScheduleThenRun` holds only for handlers that do not call back.
- Summary.ExportComplete: every `ZoneEvent` field is declared as a plain `float`, `int`, `str` or `datetime`. With no forecast stored, `write_summary_to_csv` passes None for the five forecast fields, so pydantic rejects the first zone's event and the program writes no row. The model takes validation as the identity, so it writes the rows that the row computation describes.
- PeakEfficiencyApp.FromRecord: a field of the wrong JSON type raises TypeError here, where Python's dataclass would accept it. The app never writes such a record.
- PeakEfficiencyApp.ProcessNextZoneStep: the order of the override call relative to the slot write is not recorded, because calls and the slot are kept separately. The override call does precede the timer start in `calls`.
- PeakEfficiencyApp.ScheduleSoakRunStep: the step requires a positive total run time. The built-in durations give 120 minutes (`DefaultConfigFacts`). A zero total would make `warmest_hours` fail on an empty window.
- PeakEfficiencyApp.RestartStep: the time left is whole seconds, not the float seconds of `timedelta`.
- The whole-run lemmas (`SoakRunFollowsHeatQueue`, `RunFollowsHeatQueue` and their helpers) read one fixed Home Assistant snapshot for every callback of the run.
- The non-ASCII dash in the "nothing to do" message: apps/peakefficiency/main.py:186 holds it mis-encoded. The earlier revision's exact text is stated in `QuietOutcomesAreLogged`.
- `terminate` (empty) and `ForecastSummary.__init__` (only the fetch).
