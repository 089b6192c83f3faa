/**
 * The frost feature builder: from one Open-Meteo hourly response (one past day
 * and one forecast day) it picks the target hour, refuses targets without six
 * hours of history, and lays out the 12-slot vector the frost model expects.
 *
 * The HTTP request is not modelled: the decoded response is an input, and so is
 * the clock reading `now` (milliseconds since the epoch). `Math.sin`/`Math.cos`
 * are passed in as uninterpreted functions.
 */
module FrostFeatures {
  import opened Common

  /** One entry of `hourly.time`, with what `new Date(text)` reports about it. */
  datatype Timestamp = Timestamp(text: string, millis: int, hour: int, month: int)

  predicate ValidTimestamp(ts: Timestamp)
  {
    0 <= ts.hour < 24 && 1 <= ts.month <= 12
  }

  /** The `hourly` block; `pressure` entries may be null, `pressure`/`isDay`/`time` may be absent. */
  datatype Hourly = Hourly(
    time: Option<seq<Timestamp>>,
    temperature: seq<real>,
    humidity: seq<real>,
    dewPoint: seq<real>,
    windSpeed: seq<real>,
    precipitation: seq<real>,
    pressure: Option<seq<Option<real>>>,
    isDay: Option<seq<int>>)

  datatype ForecastResponse = ForecastResponse(
    hourly: Option<Hourly>, latitude: real, longitude: real, timezone: string)

  /** The provider's layout: every hourly series has one entry per timestamp. */
  predicate WellFormed(resp: ForecastResponse)
  {
    resp.hourly.Some? && resp.hourly.value.time.Some? ==>
      var h := resp.hourly.value;
      var n := |h.time.value|;
      (forall i :: 0 <= i < n ==> ValidTimestamp(h.time.value[i]))
      && |h.temperature| == n && |h.humidity| == n && |h.dewPoint| == n
      && |h.windSpeed| == n && |h.precipitation| == n
      && (h.pressure.Some? ==> |h.pressure.value| == n)
      && (h.isDay.Some? ==> |h.isDay.value| == n)
  }

  /** `Math.sin`, `Math.cos` and `Math.PI`. */
  datatype Trig = Trig(sin: real -> real, cos: real -> real)

  const PI: real := 3.141592653589793

  /** The named features, as in `orderedFeatures`. */
  datatype Features = Features(
    hr: real, ff: real, pp: real, dewPoint: real, ttChange: real,
    hourSin: real, hourCos: real, monthSin: real, monthCos: real,
    isNight: real, ttLag6h: real, hrLag3h: real)

  datatype Meta = Meta(targetHourUTC: string, latitude: real, longitude: real, timezone: string)

  datatype FrostInput = FrostInput(featureVector: seq<real>, orderedFeatures: Features, meta: Meta)

  const NoHourlyData := "No se obtuvieron datos horarios"
  const NotEnoughHistory := "Horas previas insuficientes (se requieren >= 6 para lags)"

  /** The fixed slot order of the model's input. */
  function Vector(f: Features): (v: seq<real>)
    ensures |v| == 12
    ensures v[0] == f.hr && v[3] == f.dewPoint && v[10] == f.ttLag6h
  {
    [f.hr, f.ff, f.pp, f.dewPoint, f.ttChange, f.hourSin, f.hourCos,
     f.monthSin, f.monthCos, f.isNight, f.ttLag6h, f.hrLag3h]
  }

  /** `time.findIndex(t => new Date(t).getTime() > now)`. */
  function FindFirstLater(time: seq<Timestamp>, now: int): (k: int)
    ensures -1 <= k < |time|
    ensures k == -1 <==> forall i :: 0 <= i < |time| ==> time[i].millis <= now
    ensures k >= 0 ==> time[k].millis > now && forall i :: 0 <= i < k ==> time[i].millis <= now
  {
    if time == [] then -1
    else if time[0].millis > now then 0
    else
      var k := FindFirstLater(time[1..], now);
      if k == -1 then -1 else k + 1
  }

  /** The target hour: the first one later than now, else the last one. */
  function TargetIndex(time: seq<Timestamp>, now: int): (t: nat)
    requires |time| > 0
    ensures t < |time|
  {
    var k := FindFirstLater(time, now);
    if k == -1 then |time| - 1 else k
  }

  /** `is_night`: from `is_day` when the series exists, else from the local hour. */
  function IsNight(isDay: Option<seq<int>>, t: nat, hour: int): real
    requires isDay.Some? ==> t < |isDay.value|
  {
    if isDay.Some? then (if isDay.value[t] == 0 then 1.0 else 0.0)
    else if hour < 6 || hour >= 18 then 1.0 else 0.0
  }

  /** `PP`: the surface pressure when present and non-null, else the precipitation. */
  function PressureOrPrecipitation(h: Hourly, t: nat): real
    requires t < |h.precipitation|
    requires h.pressure.Some? ==> t < |h.pressure.value|
  {
    if h.pressure.Some? && h.pressure.value[t].Some? then h.pressure.value[t].value
    else h.precipitation[t]
  }

  /** `buildFrostFeatures` after the fetch. */
  function BuildFrostFeatures(resp: ForecastResponse, now: int, trig: Trig): (r: Result<FrostInput>)
    requires WellFormed(resp)
    ensures r.Ok? ==> |r.value.featureVector| == 12
    ensures r.Ok? ==> r.value.featureVector == Vector(r.value.orderedFeatures)
    ensures r.Ok? ==> r.value.meta.latitude == resp.latitude && r.value.meta.longitude == resp.longitude
                      && r.value.meta.timezone == resp.timezone
  {
    if resp.hourly.None? || resp.hourly.value.time.None? || |resp.hourly.value.time.value| == 0 then
      Err(NoHourlyData)
    else
      var h := resp.hourly.value;
      var time := h.time.value;
      var t := TargetIndex(time, now);
      if t < 6 then Err(NotEnoughHistory)
      else
        var hour := time[t].hour;
        var month := time[t].month;
        var f := Features(
          hr := h.humidity[t],
          ff := h.windSpeed[t],
          pp := PressureOrPrecipitation(h, t),
          dewPoint := h.dewPoint[t],
          ttChange := h.temperature[t] - h.temperature[t - 1],
          hourSin := trig.sin((2.0 * PI * hour as real) / 24.0),
          hourCos := trig.cos((2.0 * PI * hour as real) / 24.0),
          monthSin := trig.sin((2.0 * PI * (month - 1) as real) / 12.0),
          monthCos := trig.cos((2.0 * PI * (month - 1) as real) / 12.0),
          isNight := IsNight(h.isDay, t, hour),
          ttLag6h := h.temperature[t - 6],
          hrLag3h := h.humidity[t - 3]);
        Ok(FrostInput(Vector(f), f, Meta(time[t].text, resp.latitude, resp.longitude, resp.timezone)))
  }

  // ---------------------------------------------------------------------------
  // Properties

  predicate HasSeries(resp: ForecastResponse)
  {
    resp.hourly.Some? && resp.hourly.value.time.Some? && |resp.hourly.value.time.value| > 0
  }

  /** A missing or empty `time` series is an error, whatever else the response holds. */
  lemma MissingSeriesFails(resp: ForecastResponse, now: int, trig: Trig)
    requires WellFormed(resp) && !HasSeries(resp)
    ensures BuildFrostFeatures(resp, now, trig) == Err(NoHourlyData)
  {
  }

  /** The target is the first hour strictly later than now, or the last hour if none is. */
  lemma TargetIsFirstLater(time: seq<Timestamp>, now: int)
    requires |time| > 0
    ensures var t := TargetIndex(time, now);
      (exists i :: 0 <= i < |time| && time[i].millis > now) ==>
        time[t].millis > now && forall j :: 0 <= j < t ==> time[j].millis <= now
    ensures var t := TargetIndex(time, now);
      (forall i :: 0 <= i < |time| ==> time[i].millis <= now) ==> t == |time| - 1
  {
  }

  /** A vector is produced exactly when the series exists and the target has six earlier hours. */
  lemma BuildSucceedsIffHistory(resp: ForecastResponse, now: int, trig: Trig)
    requires WellFormed(resp)
    ensures BuildFrostFeatures(resp, now, trig).Ok? <==>
      HasSeries(resp) && TargetIndex(resp.hourly.value.time.value, now) >= 6
    ensures HasSeries(resp) && TargetIndex(resp.hourly.value.time.value, now) < 6 ==>
      BuildFrostFeatures(resp, now, trig) == Err(NotEnoughHistory)
  {
  }

  /** Where every slot of the vector is read from. */
  lemma FeatureLayout(resp: ForecastResponse, now: int, trig: Trig)
    requires WellFormed(resp)
    requires BuildFrostFeatures(resp, now, trig).Ok?
    ensures HasSeries(resp)
    ensures var h := resp.hourly.value;
      var t := TargetIndex(h.time.value, now);
      var v := BuildFrostFeatures(resp, now, trig).value.featureVector;
      6 <= t < |h.time.value|
      && v[0] == h.humidity[t] && v[1] == h.windSpeed[t] && v[3] == h.dewPoint[t]
      && v[4] == h.temperature[t] - h.temperature[t - 1]
      && v[10] == h.temperature[t - 6] && v[11] == h.humidity[t - 3]
      && v[2] == (if h.pressure.Some? && h.pressure.value[t].Some? then h.pressure.value[t].value
                  else h.precipitation[t])
      && v[5] == trig.sin((2.0 * PI * h.time.value[t].hour as real) / 24.0)
      && v[6] == trig.cos((2.0 * PI * h.time.value[t].hour as real) / 24.0)
      && v[7] == trig.sin((2.0 * PI * (h.time.value[t].month - 1) as real) / 12.0)
      && v[8] == trig.cos((2.0 * PI * (h.time.value[t].month - 1) as real) / 12.0)
      && v[9] == IsNight(h.isDay, t, h.time.value[t].hour)
      && BuildFrostFeatures(resp, now, trig).value.meta.targetHourUTC == h.time.value[t].text
  {
  }

  /** `is_night` is a 0/1 flag with the two rules of the source. */
  lemma IsNightFlag(isDay: Option<seq<int>>, t: nat, hour: int)
    requires isDay.Some? ==> t < |isDay.value|
    ensures IsNight(isDay, t, hour) == 0.0 || IsNight(isDay, t, hour) == 1.0
    ensures isDay.Some? ==> (IsNight(isDay, t, hour) == 1.0 <==> isDay.value[t] == 0)
    ensures isDay.None? ==> (IsNight(isDay, t, hour) == 1.0 <==> hour < 6 || hour >= 18)
  {
  }
}
