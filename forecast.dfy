/** The forecast helpers of the heat-soak app: choosing the warmest run of
    whole hours today, keeping the overnight hours, and the overnight summary
    (minimum, below-zero count, first and last entry).  The hourly forecast
    itself comes from a weather service and is passed in as a sequence. */
module Forecast {
  import opened Common

  const SecondsPerDay := 86400
  const SecondsPerHour := 3600

  /** One hourly forecast entry: (time, temperature, humidity, radiation). */
  datatype Entry = Entry(time: int, temp: real, humidity: real, radiation: real)

  /** The calendar day of a timestamp (seconds), as `datetime.date()`. */
  function Date(t: int): int {
    t / SecondsPerDay
  }

  /** The hour of the day of a timestamp, as `datetime.hour`. */
  function Hour(t: int): (h: int)
    ensures 0 <= h < 24
  {
    (t % SecondsPerDay) / SecondsPerHour
  }

  /** `math.ceil(minutes / 60)`: the number of whole hours a run needs. */
  function BlockSize(minutes: real): (n: int)
    ensures (n - 1) as real < minutes / 60.0 <= n as real
  {
    var q := minutes / 60.0;
    if q == q.Floor as real then q.Floor else q.Floor + 1
  }

  /** Sum of the temperatures of a window of entries. */
  function WindowSum(w: seq<Entry>): real {
    if w == [] then 0.0 else w[0].temp + WindowSum(w[1..])
  }

  /** The temperature sum of the `n`-hour window starting at entry `i`. */
  function Score(f: seq<Entry>, n: nat, i: nat): real
    requires i + n <= |f|
  {
    WindowSum(f[i..i + n])
  }

  /** Window `i` of `n` hours exists and starts today. */
  predicate Considered(f: seq<Entry>, n: nat, today: int, i: int) {
    n >= 1 && 0 <= i && i + n <= |f| && Date(f[i].time) == today
  }

  /** Window `i` is considered, no considered window is warmer, and every
      considered window before it is strictly cooler (ties go to the earliest). */
  ghost predicate IsBestWindow(f: seq<Entry>, n: nat, today: int, i: int) {
    && Considered(f, n, today, i)
    && (forall j :: Considered(f, n, today, j) ==> Score(f, n, j) <= Score(f, n, i))
    && (forall j :: j < i && Considered(f, n, today, j) ==> Score(f, n, j) < Score(f, n, i))
  }

  /** The best window among those starting before `k`, as the scan with a
      strict `>` finds it. */
  function BestAmong(f: seq<Entry>, n: nat, today: int, k: nat): (r: Option<nat>)
    requires n >= 1 && k + n <= |f| + 1
    ensures r.Some? ==> r.value < k && Considered(f, n, today, r.value)
    ensures r.Some? ==> forall j :: j < k && Considered(f, n, today, j) ==>
                          Score(f, n, j) <= Score(f, n, r.value)
    ensures r.Some? ==> forall j :: j < r.value && Considered(f, n, today, j) ==>
                          Score(f, n, j) < Score(f, n, r.value)
    ensures r.None? ==> forall j :: j < k ==> !Considered(f, n, today, j)
  {
    if k == 0 then None
    else
      var b := BestAmong(f, n, today, k - 1);
      if Considered(f, n, today, k - 1) &&
         (b.None? || Score(f, n, k - 1) > Score(f, n, b.value))
      then Some(k - 1)
      else b
  }

  /** At most one window is the best one. */
  lemma BestWindowUnique(f: seq<Entry>, n: nat, today: int, i: int, j: int)
    requires IsBestWindow(f, n, today, i) && IsBestWindow(f, n, today, j)
    ensures i == j
  {
  }

  /** What `warmest_hours` returns: the start of the warmest window of
      `ceil(minutes / 60)` hours that starts today, or None when there is no
      such window or it starts before `now`; ValueError when the forecast is
      shorter than one window. */
  function WarmestStart(f: seq<Entry>, minutes: real, now: int): (r: Result<(Option<int>, int)>)
    requires minutes > 0.0
    ensures r.Err? <==> |f| < BlockSize(minutes)
    ensures r.Err? ==> r.error == ValueError
    ensures r.Ok? ==> r.value.1 == BlockSize(minutes)
    ensures r.Ok? && r.value.0.Some? ==>
              now <= r.value.0.value &&
              exists i :: IsBestWindow(f, BlockSize(minutes), Date(now), i) && f[i].time == r.value.0.value
    ensures r.Ok? && r.value.0.None? ==>
              forall i :: IsBestWindow(f, BlockSize(minutes), Date(now), i) ==> f[i].time < now
  {
    var n := BlockSize(minutes);
    if |f| < n then Err(ValueError)
    else
      var b := BestAmong(f, n, Date(now), |f| - n + 1);
      if b.None? then
        Ok((None, n))
      else
        assert IsBestWindow(f, n, Date(now), b.value);
        assert forall i :: IsBestWindow(f, n, Date(now), i) ==> i == b.value by {
          forall i | IsBestWindow(f, n, Date(now), i) ensures i == b.value {
            BestWindowUnique(f, n, Date(now), i, b.value);
          }
        }
        if f[b.value].time < now then Ok((None, n)) else Ok((Some(f[b.value].time), n))
  }

  /** `ForecastSummary.warmest_hours`: the sliding-window scan over the
      forecast, keeping the first window with the largest sum. */
  method WarmestHours(forecast: seq<Entry>, minutes: real, now: int) returns (r: Result<(Option<int>, int)>)
    requires minutes > 0.0
    ensures r == WarmestStart(forecast, minutes, now)
  {
    var blockSize := BlockSize(minutes);
    if |forecast| < blockSize {
      return Err(ValueError);
    }
    var today := Date(now);
    var maxSum: Option<real> := None;  // float('-inf')
    var bestStartTime: Option<int> := None;
    ghost var bestIndex: Option<nat> := None;
    var i := 0;
    while i < |forecast| - blockSize + 1
      invariant 0 <= i <= |forecast| - blockSize + 1
      invariant bestIndex == BestAmong(forecast, blockSize, today, i)
      invariant bestStartTime == if bestIndex.Some? then Some(forecast[bestIndex.value].time) else None
      invariant maxSum == if bestIndex.Some? then Some(Score(forecast, blockSize, bestIndex.value)) else None
    {
      var window := forecast[i..i + blockSize];
      var tempSum := WindowSum(window);
      assert window[0] == forecast[i] && tempSum == Score(forecast, blockSize, i);
      assert BestAmong(forecast, blockSize, today, i + 1) ==
        if Considered(forecast, blockSize, today, i) && (maxSum.None? || tempSum > maxSum.value)
        then Some(i) else bestIndex;
      if Date(window[0].time) == today {
        if maxSum.None? || tempSum > maxSum.value {
          maxSum := Some(tempSum);
          bestStartTime := Some(window[0].time);
          bestIndex := Some(i);
        }
      }
      i := i + 1;
    }
    if bestStartTime.Some? && bestStartTime.value < now {
      return Ok((None, blockSize));
    }
    return Ok((bestStartTime, blockSize));
  }

  /** Between 8 PM and 8 AM, both hours included. */
  predicate IsOvernight(e: Entry) {
    Hour(e.time) >= 20 || Hour(e.time) <= 8
  }

  /** The overnight entries of `data`, in their original order. */
  function Overnight(data: seq<Entry>): (r: seq<Entry>)
    ensures |r| <= |data|
    ensures forall i :: 0 <= i < |r| ==> IsOvernight(r[i]) && r[i] in data
    ensures forall e :: e in data && IsOvernight(e) ==> e in r
  {
    if data == [] then []
    else if IsOvernight(data[0]) then [data[0]] + Overnight(data[1..])
    else Overnight(data[1..])
  }

  /** Filtering commutes with concatenation, so the order of `data` is kept. */
  lemma {:induction false} OvernightAppend(a: seq<Entry>, b: seq<Entry>)
    ensures Overnight(a + b) == Overnight(a) + Overnight(b)
  {
    if a == [] {
      assert a + b == b;
    } else {
      assert (a + b)[1..] == a[1..] + b;
      OvernightAppend(a[1..], b);
    }
  }

  /** `_filter_overnight_hours`: the loop that appends each overnight entry. */
  method FilterOvernightHours(data: seq<Entry>) returns (overnight: seq<Entry>)
    ensures overnight == Overnight(data)
  {
    overnight := [];
    var i := 0;
    while i < |data|
      invariant 0 <= i <= |data|
      invariant overnight == Overnight(data[..i])
    {
      OvernightAppend(data[..i], [data[i]]);
      assert data[..i + 1] == data[..i] + [data[i]];
      if IsOvernight(data[i]) {
        overnight := overnight + [data[i]];
      }
      i := i + 1;
    }
    assert data[..i] == data;
  }

  function Temps(s: seq<Entry>): (r: seq<real>)
    ensures |r| == |s| && forall i :: 0 <= i < |s| ==> r[i] == s[i].temp
  {
    seq(|s|, i requires 0 <= i < |s| => s[i].temp)
  }

  /** `min(temps)`. */
  function MinTemp(temps: seq<real>): (m: real)
    requires temps != []
    ensures m in temps
    ensures forall i :: 0 <= i < |temps| ==> m <= temps[i]
  {
    if |temps| == 1 then temps[0]
    else
      var rest := MinTemp(temps[1..]);
      if temps[0] <= rest then temps[0] else rest
  }

  /** `temps.index(t)`: the first position holding `t`. */
  function IndexOf(temps: seq<real>, t: real): (i: nat)
    requires t in temps
    ensures i < |temps| && temps[i] == t
    ensures forall j :: 0 <= j < i ==> temps[j] != t
  {
    if temps[0] == t then 0 else 1 + IndexOf(temps[1..], t)
  }

  /** `sum(1 for t in temps if t < 0)`. */
  function CountBelowZero(temps: seq<real>): (c: nat)
    ensures c <= |temps|
    ensures c == 0 <==> forall i :: 0 <= i < |temps| ==> temps[i] >= 0.0
    ensures c == |temps| <==> forall i :: 0 <= i < |temps| ==> temps[i] < 0.0
  {
    if temps == [] then 0
    else (if temps[0] < 0.0 then 1 else 0) + CountBelowZero(temps[1..])
  }

  /** The count adds up over concatenation: each temperature below zero
      counts once, wherever it stands. */
  lemma {:induction false} CountBelowZeroAppend(a: seq<real>, b: seq<real>)
    ensures CountBelowZero(a + b) == CountBelowZero(a) + CountBelowZero(b)
  {
    if a == [] {
      assert a + b == b;
    } else {
      assert (a + b)[0] == a[0];
      assert (a + b)[1..] == a[1..] + b;
      CountBelowZeroAppend(a[1..], b);
    }
  }

  /** One temperature counts iff it is below zero. */
  lemma CountBelowZeroSingle(t: real)
    ensures CountBelowZero([t]) == if t < 0.0 then 1 else 0
  {
    assert [t][1..] == [];
  }

  /** The parts of `ForecastDailySummary` that are not floating-point means. */
  datatype DailyForecast = DailyForecast(
    forecastStartTime: int,
    forecastEndTime: int,
    latitude: real,
    longitude: real,
    minForecastTempOvernight: real,
    durationBelowZero: int,
    hourOfMinTemp: int)

  /** `ForecastSummary.summarize`; None stands for the empty dict returned
      when there are no overnight entries. */
  function Summarize(data: seq<Entry>, latitude: real, longitude: real): (r: Option<DailyForecast>)
    ensures r.None? <==> Overnight(data) == []
    ensures r.Some? ==>
              var ov := Overnight(data);
              && r.value.forecastStartTime == ov[0].time
              && r.value.forecastEndTime == ov[|ov| - 1].time
              && (forall i :: 0 <= i < |ov| ==> r.value.minForecastTempOvernight <= ov[i].temp)
              && (exists i :: 0 <= i < |ov| && ov[i].temp == r.value.minForecastTempOvernight
                   && Hour(ov[i].time) == r.value.hourOfMinTemp
                   && forall j :: 0 <= j < i ==> ov[j].temp != ov[i].temp)
              && 0 <= r.value.durationBelowZero <= |ov|
  {
    var overnight := Overnight(data);
    if overnight == [] then None else Some(SummaryOf(overnight, latitude, longitude))
  }

  /** The summary of a non-empty list of overnight entries. */
  function SummaryOf(overnight: seq<Entry>, latitude: real, longitude: real): (d: DailyForecast)
    requires overnight != []
    ensures d.forecastStartTime == overnight[0].time
    ensures d.forecastEndTime == overnight[|overnight| - 1].time
    ensures forall i :: 0 <= i < |overnight| ==> d.minForecastTempOvernight <= overnight[i].temp
    ensures exists i :: 0 <= i < |overnight| && overnight[i].temp == d.minForecastTempOvernight
              && Hour(overnight[i].time) == d.hourOfMinTemp
              && forall j :: 0 <= j < i ==> overnight[j].temp != overnight[i].temp
    ensures 0 <= d.durationBelowZero <= |overnight|
  {
    var temps := Temps(overnight);
    var minTemp := MinTemp(temps);
    var minTempIndex := IndexOf(temps, minTemp);
    assert temps[minTempIndex] == overnight[minTempIndex].temp;
    DailyForecast(
      overnight[0].time,
      overnight[|overnight| - 1].time,
      latitude,
      longitude,
      minTemp,
      CountBelowZero(temps),
      Hour(overnight[minTempIndex].time))
  }

  /** `duration_below_zero` is the number of overnight temperatures below
      zero. */
  lemma SummarizeCountsBelowZero(data: seq<Entry>, latitude: real, longitude: real)
    requires Overnight(data) != []
    ensures Summarize(data, latitude, longitude).Some?
    ensures Summarize(data, latitude, longitude).value.durationBelowZero == CountBelowZero(Temps(Overnight(data)))
  {
  }
}
