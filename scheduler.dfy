/** The durable job scheduler of the heat-soak app.  Every pending job is kept
    in a key/value store under `job:<id>` so that it survives a restart, next
    to an in-memory table from job id to the timer handle that will fire it.
    Timers, the handler registry and logging belong to the host platform; the
    model records what is asked of them in an effect log and draws timer
    handles from a counter. */
module PersistentScheduling {
  import opened Common

  /** The keyword arguments handed to a job's handler. */
  type Kwargs = map<string, string>

  /** A value in the store: a serialized job record, or a value that reads as
      false (an empty record), which every reader skips. */
  datatype Stored = Blank | JobData(func: string, runTime: int, kwargs: Option<Kwargs>)

  const JobPrefix: string := "job:"

  /** `_job_key`: the store key of a job. */
  function JobKey(jobId: string): string {
    JobPrefix + jobId
  }

  /** `_serialize`: the record that `schedule` stores. */
  function Serialize(func: string, runTime: int, kwargs: Kwargs): Stored {
    JobData(func, runTime, Some(kwargs))
  }

  /** `_deserialize`: a record without kwargs reads as an empty map. */
  function Deserialize(data: Stored): (string, int, Kwargs)
    requires data.JobData?
  {
    (data.func, data.runTime, data.kwargs.GetOr(map[]))
  }

  lemma DeserializeSerialize(func: string, runTime: int, kwargs: Kwargs)
    ensures Deserialize(Serialize(func, runTime, kwargs)) == (func, runTime, kwargs)
  {
  }

  lemma DeserializeWithoutKwargs(func: string, runTime: int)
    ensures Deserialize(JobData(func, runTime, None)) == (func, runTime, map[])
  {
  }

  /** `s.find(p)`: the first position at which `p` occurs in `s`. */
  function Find(s: string, p: string): (r: Option<nat>)
    requires p != []
    ensures r.Some? ==> r.value + |p| <= |s| && StartsWith(s[r.value..], p)
    ensures r.Some? ==> forall j :: 0 <= j < r.value ==> !StartsWith(s[j..], p)
    ensures r.None? ==> forall j :: 0 <= j <= |s| ==> !StartsWith(s[j..], p)
  {
    if |s| < |p| then None
    else if StartsWith(s, p) then Some(0)
    else
      assert forall j :: 1 <= j <= |s| ==> s[1..][j - 1..] == s[j..];
      match Find(s[1..], p)
      case None => None
      case Some(i) => Some(i + 1)
  }

  /** `key.split("job:")[1]` for a key that starts with `job:`: the text after
      the prefix, up to the next occurrence of `job:` if there is one. */
  function IdFromKey(key: string): string
    requires StartsWith(key, JobPrefix)
  {
    var rest := key[|JobPrefix|..];
    match Find(rest, JobPrefix)
    case None => rest
    case Some(i) => rest[..i]
  }

  /** An id without `job:` inside is recovered from its key unchanged. */
  lemma IdFromJobKey(jobId: string)
    requires Find(jobId, JobPrefix).None?
    ensures StartsWith(JobKey(jobId), JobPrefix) && IdFromKey(JobKey(jobId)) == jobId
  {
    assert JobKey(jobId)[|JobPrefix|..] == jobId;
  }

  /** An id with `job:` inside comes back cut at its first occurrence. */
  lemma IdFromJobKeyCut(jobId: string, i: nat)
    requires Find(jobId, JobPrefix) == Some(i)
    ensures StartsWith(JobKey(jobId), JobPrefix) && IdFromKey(JobKey(jobId)) == jobId[..i]
    ensures IdFromKey(JobKey(jobId)) != jobId
  {
    assert JobKey(jobId)[|JobPrefix|..] == jobId;
  }

  datatype Level = Info | Warning | Error

  datatype Event =
    | Scheduled(jobId: string, delay: int)
    | NotInCache(jobId: string)
    | Running(jobId: string, func: string)
    | FunctionMissing(func: string)
    | Restored(jobId: string, delay: int)
    | SkippedExpired(jobId: string)
    | Cancelled(jobId: string)

  /** What the scheduler asks of the store and of the host platform, in order. */
  datatype Effect =
    | CacheSet(key: string, value: Stored)
    | CacheDelete(key: string)
    | RunIn(handle: nat, jobId: string, delay: int)
    | CancelTimer(handle: nat)
    | Call(func: string, kwargs: Kwargs)
    | Log(level: Level, event: Event)

  /** The store, the handle table, the next handle the platform hands out and
      the effects so far. */
  datatype SchedulerState = SchedulerState(
    cache: map<string, Stored>,
    jobs: map<string, nat>,
    nextHandle: nat,
    effects: seq<Effect>)

  /** `max((run_time - now).total_seconds(), 0)`. */
  function Delay(runTime: int, now: int): (d: int)
    ensures d >= 0
    ensures runTime <= now ==> d == 0
    ensures runTime > now ==> d == runTime - now
  {
    if runTime - now > 0 then runTime - now else 0
  }

  /** `job_id or str(uuid.uuid4())`: an absent or empty id is replaced by a
      fresh one. */
  function ChosenId(jobId: Option<string>, freshId: string): string {
    if jobId.Some? && jobId.value != "" then jobId.value else freshId
  }

  /** `schedule`: store the record, then arm a timer, then remember its handle. */
  function ScheduleStep(s: SchedulerState, func: string, runTime: int, kwargs: Option<Kwargs>,
                        jobId: Option<string>, freshId: string, now: int): (r: (SchedulerState, string))
    ensures r.1 == ChosenId(jobId, freshId)
    ensures r.0.cache == s.cache[JobKey(r.1) := Serialize(func, runTime, kwargs.GetOr(map[]))]
    ensures r.0.jobs == s.jobs[r.1 := s.nextHandle] && r.0.nextHandle == s.nextHandle + 1
    ensures r.0.effects == s.effects + [CacheSet(JobKey(r.1), Serialize(func, runTime, kwargs.GetOr(map[]))),
                                        RunIn(s.nextHandle, r.1, Delay(runTime, now)),
                                        Log(Info, Scheduled(r.1, Delay(runTime, now)))]
  {
    var kw := kwargs.GetOr(map[]);
    var id := ChosenId(jobId, freshId);
    var key := JobKey(id);
    var record := Serialize(func, runTime, kw);
    var delay := Delay(runTime, now);
    var handle := s.nextHandle;
    (SchedulerState(s.cache[key := record], s.jobs[id := handle], handle + 1,
                    s.effects + [CacheSet(key, record), RunIn(handle, id, delay), Log(Info, Scheduled(id, delay))]),
     id)
  }

  /** `_run_job`: fire the stored job, if any, then forget it. */
  function RunJobStep(s: SchedulerState, jobId: string, handlers: set<string>): (r: SchedulerState)
    ensures r.nextHandle == s.nextHandle && |r.effects| > |s.effects| && r.effects[..|s.effects|] == s.effects
    ensures JobKey(jobId) !in s.cache || s.cache[JobKey(jobId)].Blank? ==>
              r == s.(effects := s.effects + [Log(Warning, NotInCache(jobId))])
    ensures JobKey(jobId) in s.cache && s.cache[JobKey(jobId)].JobData? ==>
              r.cache == s.cache - {JobKey(jobId)} && r.jobs == s.jobs - {jobId}
    ensures JobKey(jobId) in s.cache && s.cache[JobKey(jobId)].JobData? ==>
              var d := s.cache[JobKey(jobId)];
              && r.effects[|r.effects| - 1] == CacheDelete(JobKey(jobId))
              && Calls(r.effects[|s.effects|..]) ==
                   (if d.func in handlers then [(d.func, d.kwargs.GetOr(map[]))] else [])
              && (d.func !in handlers ==> r.effects[|s.effects|] == Log(Error, FunctionMissing(d.func)))
  {
    var key := JobKey(jobId);
    if key !in s.cache || s.cache[key].Blank? then
      s.(effects := s.effects + [Log(Warning, NotInCache(jobId))])
    else
      var (func, _, kwargs) := Deserialize(s.cache[key]);
      var fired := Fired(jobId, func, kwargs, handlers, key);
      AppendSplit(s.effects, fired);
      SchedulerState(s.cache - {key}, s.jobs - {jobId}, s.nextHandle, s.effects + fired)
  }

  /** The effects of firing one stored job: the handler once with its kwargs
      when it resolves, an error log otherwise, and then the record delete. */
  function Fired(jobId: string, func: string, kwargs: Kwargs, handlers: set<string>, key: string): (e: seq<Effect>)
    ensures |e| >= 2 && e[|e| - 1] == CacheDelete(key)
    ensures Calls(e) == if func in handlers then [(func, kwargs)] else []
    ensures func !in handlers ==> e[0] == Log(Error, FunctionMissing(func))
  {
    var fired := if func in handlers then [Log(Info, Running(jobId, func)), Call(func, kwargs)]
                 else [Log(Error, FunctionMissing(func))];
    ArmedAppend(fired, [CacheDelete(key)]);
    ArmedSingle(CacheDelete(key));
    if func in handlers then
      ArmedPair(Log(Info, Running(jobId, func)), Call(func, kwargs));
      ArmedSingle(Log(Info, Running(jobId, func)));
      ArmedSingle(Call(func, kwargs));
      fired + [CacheDelete(key)]
    else
      ArmedSingle(Log(Error, FunctionMissing(func)));
      fired + [CacheDelete(key)]
  }

  /** `cancel_job`: cancel and forget the handle if there is one; always
      delete the stored record. */
  function CancelStep(s: SchedulerState, jobId: string): (r: SchedulerState)
    ensures JobKey(jobId) !in r.cache && jobId !in r.jobs
    ensures r.cache == s.cache - {JobKey(jobId)} && r.jobs == s.jobs - {jobId} && r.nextHandle == s.nextHandle
    ensures r.effects == s.effects +
              (if jobId in s.jobs then [CancelTimer(s.jobs[jobId]), Log(Info, Cancelled(jobId))] else []) +
              [CacheDelete(JobKey(jobId))]
  {
    var cancelled := if jobId in s.jobs
                     then s.(jobs := s.jobs - {jobId},
                             effects := s.effects + [CancelTimer(s.jobs[jobId]), Log(Info, Cancelled(jobId))])
                     else s;
    cancelled.(cache := cancelled.cache - {JobKey(jobId)},
               effects := cancelled.effects + [CacheDelete(JobKey(jobId))])
  }

  /** The stored record under `key` is a job whose run time is after `now`. */
  predicate IsFutureJob(cache: map<string, Stored>, key: string, now: int) {
    StartsWith(key, JobPrefix) && key in cache && cache[key].JobData? && cache[key].runTime > now
  }

  /** One turn of the `restore_jobs` loop. */
  function RestoreOne(s: SchedulerState, key: string, now: int): SchedulerState {
    if !StartsWith(key, JobPrefix) || key !in s.cache || s.cache[key].Blank? then s
    else
      var jobId := IdFromKey(key);
      var (_, runTime, _) := Deserialize(s.cache[key]);
      if runTime > now then
        var delay := runTime - now;
        s.(jobs := s.jobs[jobId := s.nextHandle], nextHandle := s.nextHandle + 1,
           effects := s.effects + [RunIn(s.nextHandle, jobId, delay), Log(Info, Restored(jobId, delay))])
      else
        s.(effects := s.effects + [Log(Info, SkippedExpired(jobId))])
  }

  /** `restore_jobs` over the store's keys in the order the store lists them. */
  function RestoreAll(s: SchedulerState, keys: seq<string>, now: int): SchedulerState {
    if keys == [] then s
    else RestoreOne(RestoreAll(s, keys[..|keys| - 1], now), keys[|keys| - 1], now)
  }

  /** The timers an effect log arms: (job id, delay) of each RunIn, in order. */
  function Armed(effects: seq<Effect>): seq<(string, int)> {
    if effects == [] then []
    else
      var e := effects[|effects| - 1];
      Armed(effects[..|effects| - 1]) + (if e.RunIn? then [(e.jobId, e.delay)] else [])
  }

  /** The handler calls an effect log makes, in order. */
  function Calls(effects: seq<Effect>): seq<(string, Kwargs)> {
    if effects == [] then []
    else
      var e := effects[|effects| - 1];
      Calls(effects[..|effects| - 1]) + (if e.Call? then [(e.func, e.kwargs)] else [])
  }

  /** The jobs `restore_jobs` should arm: each listed key that holds a job
      due strictly after `now`, with the time left until then. */
  function FutureJobs(cache: map<string, Stored>, keys: seq<string>, now: int): (r: seq<(string, int)>)
    ensures forall i :: 0 <= i < |r| ==> r[i].1 > 0
    ensures |r| <= |keys|
  {
    if keys == [] then []
    else
      var k := keys[|keys| - 1];
      FutureJobs(cache, keys[..|keys| - 1], now) +
        (if IsFutureJob(cache, k, now) then [(IdFromKey(k), cache[k].runTime - now)] else [])
  }

  lemma {:induction false} ArmedAppend(a: seq<Effect>, b: seq<Effect>)
    ensures Armed(a + b) == Armed(a) + Armed(b)
    ensures Calls(a + b) == Calls(a) + Calls(b)
    decreases |b|
  {
    if b == [] {
      assert a + b == a;
    } else {
      assert (a + b)[..|a + b| - 1] == a + b[..|b| - 1];
      ArmedAppend(a, b[..|b| - 1]);
    }
  }

  lemma ArmedPair(x: Effect, y: Effect)
    ensures Armed([x, y]) == Armed([x]) + Armed([y])
    ensures Calls([x, y]) == Calls([x]) + Calls([y])
  {
    assert [x, y] == [x] + [y];
    ArmedAppend([x], [y]);
  }

  lemma ArmedSingle(x: Effect)
    ensures Armed([x]) == if x.RunIn? then [(x.jobId, x.delay)] else []
    ensures Calls([x]) == if x.Call? then [(x.func, x.kwargs)] else []
  {
    assert [x][..0] == [];
  }

  /** Restoring never changes the store: expired jobs stay in it. */
  lemma {:induction false} RestoreKeepsCache(s: SchedulerState, keys: seq<string>, now: int)
    ensures RestoreAll(s, keys, now).cache == s.cache
  {
    if keys != [] {
      RestoreKeepsCache(s, keys[..|keys| - 1], now);
    }
  }

  /** One turn of the loop arms the key's job if and only if it is due after
      `now`, and calls no handler. */
  lemma RestoreOneArms(p: SchedulerState, k: string, now: int)
    ensures var r := RestoreOne(p, k, now);
      && |r.effects| >= |p.effects| && r.effects[..|p.effects|] == p.effects
      && Armed(r.effects) == Armed(p.effects) +
           (if IsFutureJob(p.cache, k, now) then [(IdFromKey(k), p.cache[k].runTime - now)] else [])
      && Calls(r.effects) == Calls(p.effects)
      && r.nextHandle == p.nextHandle + (if IsFutureJob(p.cache, k, now) then 1 else 0)
  {
    if !StartsWith(k, JobPrefix) || k !in p.cache || p.cache[k].Blank? {
    } else if p.cache[k].runTime > now {
      var e1 := RunIn(p.nextHandle, IdFromKey(k), p.cache[k].runTime - now);
      var e2 := Log(Info, Restored(IdFromKey(k), p.cache[k].runTime - now));
      assert RestoreOne(p, k, now).effects == p.effects + [e1, e2];
      ArmedAppend(p.effects, [e1, e2]);
      ArmedPair(e1, e2);
      ArmedSingle(e1);
      ArmedSingle(e2);
    } else {
      var e := Log(Info, SkippedExpired(IdFromKey(k)));
      assert RestoreOne(p, k, now).effects == p.effects + [e];
      ArmedAppend(p.effects, [e]);
      ArmedSingle(e);
    }
  }

  /** Restoring arms exactly the jobs due after `now`, one timer each, in key
      order, each with the time left; it calls no handler. */
  lemma {:induction false} RestoreArmsFutureJobs(s: SchedulerState, keys: seq<string>, now: int)
    ensures var r := RestoreAll(s, keys, now);
      && |r.effects| >= |s.effects| && r.effects[..|s.effects|] == s.effects
      && Armed(r.effects) == Armed(s.effects) + FutureJobs(s.cache, keys, now)
      && Calls(r.effects) == Calls(s.effects)
      && r.nextHandle == s.nextHandle + |FutureJobs(s.cache, keys, now)|
  {
    if keys != [] {
      var init := keys[..|keys| - 1];
      RestoreArmsFutureJobs(s, init, now);
      RestoreKeepsCache(s, init, now);
      RestoreOneArms(RestoreAll(s, init, now), keys[|keys| - 1], now);
    }
  }

  /** The handle table after restoring: the old entries' ids plus the id of
      every job due after `now`, and nothing else. */
  lemma {:induction false} RestoreTracksFutureJobs(s: SchedulerState, keys: seq<string>, now: int)
    ensures RestoreAll(s, keys, now).jobs.Keys ==
              s.jobs.Keys + set k | k in keys && IsFutureJob(s.cache, k, now) :: IdFromKey(k)
  {
    if keys != [] {
      var init := keys[..|keys| - 1];
      var last := keys[|keys| - 1];
      RestoreTracksFutureJobs(s, init, now);
      RestoreKeepsCache(s, init, now);
      assert keys == init + [last];
      assert (set k | k in keys && IsFutureJob(s.cache, k, now) :: IdFromKey(k)) ==
             (set k | k in init && IsFutureJob(s.cache, k, now) :: IdFromKey(k)) +
             (if IsFutureJob(s.cache, last, now) then {IdFromKey(last)} else {});
    }
  }

  /** Every handle in the table belongs to a job that is still stored. */
  ghost predicate Tracked(s: SchedulerState) {
    forall id :: id in s.jobs ==> JobKey(id) in s.cache
  }

  lemma JobKeyInjective(a: string, b: string)
    ensures JobKey(a) == JobKey(b) ==> a == b
  {
    if JobKey(a) == JobKey(b) {
      assert a == JobKey(a)[|JobPrefix|..] && b == JobKey(b)[|JobPrefix|..];
    }
  }

  /** Every job key in the store is the key of the id recovered from it. */
  ghost predicate WellFormedKeys(cache: map<string, Stored>) {
    forall k :: k in cache && StartsWith(k, JobPrefix) ==> JobKey(IdFromKey(k)) == k
  }

  lemma ScheduleKeepsTracked(s: SchedulerState, func: string, runTime: int, kwargs: Option<Kwargs>,
                             jobId: Option<string>, freshId: string, now: int)
    requires Tracked(s)
    ensures Tracked(ScheduleStep(s, func, runTime, kwargs, jobId, freshId, now).0)
  {
  }

  lemma RunJobKeepsTracked(s: SchedulerState, jobId: string, handlers: set<string>)
    requires Tracked(s)
    ensures Tracked(RunJobStep(s, jobId, handlers))
  {
    forall id | id in s.jobs { JobKeyInjective(id, jobId); }
  }

  lemma CancelKeepsTracked(s: SchedulerState, jobId: string)
    requires Tracked(s)
    ensures Tracked(CancelStep(s, jobId))
  {
    forall id | id in s.jobs { JobKeyInjective(id, jobId); }
  }

  /** Restoring over well-formed keys keeps every handle backed by a record. */
  lemma {:induction false} RestoreKeepsTracked(s: SchedulerState, keys: seq<string>, now: int)
    requires Tracked(s) && WellFormedKeys(s.cache)
    ensures Tracked(RestoreAll(s, keys, now))
  {
    if keys != [] {
      RestoreKeepsTracked(s, keys[..|keys| - 1], now);
      RestoreKeepsCache(s, keys[..|keys| - 1], now);
    }
  }

  /** A job scheduled for a time already past is armed with delay 0; the
      record is written before the timer is armed. */
  lemma SchedulePastFiresNow(s: SchedulerState, func: string, runTime: int, kwargs: Option<Kwargs>,
                             jobId: Option<string>, freshId: string, now: int)
    requires runTime <= now
    ensures var (t, id) := ScheduleStep(s, func, runTime, kwargs, jobId, freshId, now);
      && t.effects[|s.effects|] == CacheSet(JobKey(id), Serialize(func, runTime, kwargs.GetOr(map[])))
      && t.effects[|s.effects| + 1] == RunIn(s.nextHandle, id, 0)
  {
  }

  /** Firing a freshly scheduled job calls its handler once with the stored
      kwargs (when the handler resolves) and leaves the store and the handle
      table as they were apart from that job. */
  lemma ScheduleThenRun(s: SchedulerState, func: string, runTime: int, kwargs: Kwargs,
                        jobId: string, now: int, handlers: set<string>)
    requires jobId != ""
    ensures var (t, id) := ScheduleStep(s, func, runTime, Some(kwargs), Some(jobId), "", now);
      var r := RunJobStep(t, id, handlers);
      && id == jobId
      && r.cache == s.cache - {JobKey(jobId)}
      && r.jobs == s.jobs - {jobId}
      && Calls(r.effects[|t.effects|..]) == (if func in handlers then [(func, kwargs)] else [])
  {
  }

  /** A second firing of the same job finds nothing and only logs a warning:
      a job's handler runs at most once. */
  lemma RunTwiceRunsOnce(s: SchedulerState, jobId: string, handlers: set<string>)
    ensures var r := RunJobStep(s, jobId, handlers);
      RunJobStep(r, jobId, handlers) == r.(effects := r.effects + [Log(Warning, NotInCache(jobId))])
  {
  }

  /** Scheduling an id that is armed already overwrites its record and its
      handle without cancelling the earlier timer; when that earlier timer
      fires it runs the new record, and the new timer then finds nothing. */
  lemma RescheduleKeepsOldTimer(s: SchedulerState, func: string, t1: int, t2: int, kwargs: Kwargs,
                                jobId: string, now: int, handlers: set<string>)
    requires jobId != ""
    ensures var (a, _) := ScheduleStep(s, func, t1, Some(kwargs), Some(jobId), "", now);
      var (b, _) := ScheduleStep(a, func, t2, Some(kwargs), Some(jobId), "", now);
      var fired := RunJobStep(b, jobId, handlers);
      && b.jobs[jobId] == s.nextHandle + 1
      && CancelTimer(s.nextHandle) !in b.effects[|s.effects|..]
      && b.cache[JobKey(jobId)] == JobData(func, t2, Some(kwargs))
      && JobKey(jobId) !in fired.cache
      && RunJobStep(fired, jobId, handlers).effects == fired.effects + [Log(Warning, NotInCache(jobId))]
  {
  }

  /** Cancelling twice is cancelling once, apart from a second delete of a
      key that is gone already. */
  lemma CancelIdempotent(s: SchedulerState, jobId: string)
    ensures var once := CancelStep(s, jobId);
      var twice := CancelStep(once, jobId);
      && twice.cache == once.cache && twice.jobs == once.jobs && twice.nextHandle == once.nextHandle
      && twice.effects == once.effects + [CacheDelete(JobKey(jobId))]
  {
  }

  /** The scheduler object: the store it owns, the handle table, the
      platform's handle supply and the effect log. */
  class PersistentScheduler {
    var cache: map<string, Stored>
    var jobs: map<string, nat>
    var nextHandle: nat
    var effects: seq<Effect>

    function State(): SchedulerState
      reads this
    {
      SchedulerState(cache, jobs, nextHandle, effects)
    }

    /** Open the store left by the previous run and restore its jobs.
        `keys` is the store's own listing of its keys. */
    constructor (persisted: map<string, Stored>, keys: seq<string>, now: int)
      requires forall k :: k in keys <==> k in persisted
      ensures State() == RestoreAll(SchedulerState(persisted, map[], 0, []), keys, now)
    {
      cache := persisted;
      jobs := map[];
      nextHandle := 0;
      effects := [];
      new;
      RestoreJobs(keys, now);
    }

    method Schedule(func: string, runTime: int, kwargs: Option<Kwargs>, jobId: Option<string>,
                    freshId: string, now: int) returns (id: string)
      modifies this
      ensures (State(), id) == ScheduleStep(old(State()), func, runTime, kwargs, jobId, freshId, now)
    {
      var kw := kwargs.GetOr(map[]);
      id := ChosenId(jobId, freshId);
      var record := Serialize(func, runTime, kw);
      cache := cache[JobKey(id) := record];
      effects := effects + [CacheSet(JobKey(id), record)];
      var delay := Delay(runTime, now);
      var handle := nextHandle;
      nextHandle := nextHandle + 1;
      effects := effects + [RunIn(handle, id, delay)];
      jobs := jobs[id := handle];
      effects := effects + [Log(Info, Scheduled(id, delay))];
      assert effects == old(effects) + [CacheSet(JobKey(id), record), RunIn(handle, id, delay), Log(Info, Scheduled(id, delay))];
    }

    /** The timer callback; `handlers` are the names that resolve to a
        callable on the app. */
    method RunJob(jobId: string, handlers: set<string>)
      modifies this
      ensures State() == RunJobStep(old(State()), jobId, handlers)
    {
      var key := JobKey(jobId);
      if key !in cache || cache[key].Blank? {
        effects := effects + [Log(Warning, NotInCache(jobId))];
        return;
      }
      var (func, _, kwargs) := Deserialize(cache[key]);
      if func in handlers {
        effects := effects + [Log(Info, Running(jobId, func)), Call(func, kwargs)];
      } else {
        effects := effects + [Log(Error, FunctionMissing(func))];
      }
      cache := cache - {key};
      effects := effects + [CacheDelete(key)];
      jobs := jobs - {jobId};
    }

    method RestoreJobs(keys: seq<string>, now: int)
      requires forall k :: k in keys <==> k in cache
      modifies this
      ensures State() == RestoreAll(old(State()), keys, now)
    {
      var i := 0;
      while i < |keys|
        invariant 0 <= i <= |keys|
        invariant State() == RestoreAll(old(State()), keys[..i], now)
      {
        var key := keys[i];
        assert keys[..i + 1][..i] == keys[..i];
        if StartsWith(key, JobPrefix) {
          var jobId := IdFromKey(key);
          if key in cache && !cache[key].Blank? {
            var (_, runTime, _) := Deserialize(cache[key]);
            if runTime > now {
              var delay := runTime - now;
              var handle := nextHandle;
              nextHandle := nextHandle + 1;
              effects := effects + [RunIn(handle, jobId, delay)];
              jobs := jobs[jobId := handle];
              effects := effects + [Log(Info, Restored(jobId, delay))];
            } else {
              effects := effects + [Log(Info, SkippedExpired(jobId))];
            }
          }
        }
        i := i + 1;
      }
      assert keys[..i] == keys;
    }

    method CancelJob(jobId: string)
      modifies this
      ensures State() == CancelStep(old(State()), jobId)
    {
      if jobId in jobs {
        effects := effects + [CancelTimer(jobs[jobId])];
        jobs := jobs - {jobId};
        effects := effects + [Log(Info, Cancelled(jobId))];
      }
      cache := cache - {JobKey(jobId)};
      effects := effects + [CacheDelete(JobKey(jobId))];
    }
  }
}
