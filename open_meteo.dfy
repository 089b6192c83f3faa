/**
 * The Open-Meteo aggregation service: split a 7-past-days-plus-today hourly
 * series into a 24-hour forecast window and the history before it, aggregate
 * both, count frost-risk hours and lay out the 20-slot vector.
 *
 * The HTTP request is an input (`FetchOutcome`), and so is the clock. `Math.sqrt`
 * is an uninterpreted parameter; `Math.min`/`Math.max` of an empty window give
 * the infinities JavaScript gives.
 */
module OpenMeteo {
  import opened Common

  /** One entry of `hourly.time` and the instant `new Date(text)` denotes. */
  datatype Stamp = Stamp(text: string, millis: int)

  datatype HourlyData = HourlyData(
    time: seq<Stamp>,
    temperature: seq<real>,
    humidity: seq<real>,
    dewPoint: seq<real>,
    precipitation: seq<real>,
    rain: seq<real>,
    windSpeed: seq<real>,
    pressure: seq<real>)

  /** The provider's layout: one value per timestamp in every series. */
  predicate Aligned(h: HourlyData)
  {
    var n := |h.time|;
    |h.temperature| == n && |h.humidity| == n && |h.dewPoint| == n && |h.precipitation| == n
    && |h.rain| == n && |h.windSpeed| == n && |h.pressure| == n
  }

  datatype Response = Response(
    hourly: HourlyData, latitude: real, longitude: real, timezone: string,
    elevation: real, generationTimeMs: real)

  datatype FetchOutcome = Fetched(response: Response) | FetchFailed(message: string)

  /** `forecastData`: the window slices. */
  datatype Window = Window(
    temperature: seq<real>, humidity: seq<real>, dewPoint: seq<real>, precipitation: seq<real>,
    rain: seq<real>, windSpeed: seq<real>, pressure: seq<real>)

  /** `aggregatedData` (without the opaque `units` object). */
  datatype Aggregates = Aggregates(
    tempMin: ExtReal, tempMax: ExtReal, tempMean: real, tempStd: real,
    humidityMin: ExtReal, humidityMax: ExtReal, humidityMean: real,
    dewPointMin: ExtReal, dewPointMean: real,
    precipitationSum: real, precipitationMax: ExtReal, rainSum: real,
    windSpeedMean: real, windSpeedMax: ExtReal,
    pressureMean: real, pressureMin: ExtReal,
    frostRiskHours: nat, forecastHours: nat)

  datatype Historical = Historical(
    tempMean7d: real, tempMin7d: ExtReal, humidityMean7d: real, precipitationSum7d: real)

  /** `time_range`: `undefined` entries are `None`. */
  datatype Processed = Processed(
    forecast: Aggregates, historical: Historical, hourlyForecast: Window,
    rangeStart: Option<string>, rangeEnd: Option<string>)

  datatype Metadata = Metadata(
    latitude: real, longitude: real, timezone: string, elevation: real, generationTimeMs: real)

  /** `{success, data, metadata}` or `{success: false, error, data: null}`. */
  datatype ForecastResult = ForecastResult(
    success: bool, data: Option<Processed>, metadata: Option<Metadata>, error: Option<string>)

  // ---------------------------------------------------------------------------
  // Helpers

  /** `calculateMean`: 0 for an empty array, else sum over length. */
  function Mean(s: seq<real>): (m: real)
    ensures s == [] ==> m == 0.0
    ensures s != [] ==> m * |s| as real == Sum(s)
  {
    if |s| == 0 then 0.0 else Sum(s) / |s| as real
  }

  function SquaredDiffs(s: seq<real>, mean: real): (r: seq<real>)
    ensures |r| == |s|
    ensures forall i :: 0 <= i < |s| ==> r[i] == (s[i] - mean) * (s[i] - mean)
  {
    seq(|s|, i requires 0 <= i < |s| => (s[i] - mean) * (s[i] - mean))
  }

  /**
   * The mean of the squared deviations: never negative, and zero for an
   * empty or constant series.
   */
  function Variance(s: seq<real>): (v: real)
    ensures v >= 0.0
    ensures s == [] ==> v == 0.0
    ensures |s| > 0 && (forall i :: 0 <= i < |s| ==> s[i] == s[0]) ==> v == 0.0
  {
    var d := SquaredDiffs(s, Mean(s));
    SumNonNegative(d);
    ConstantSpread(s);
    Mean(d)
  }

  lemma {:induction false} SumNonNegative(s: seq<real>)
    requires forall i :: 0 <= i < |s| ==> s[i] >= 0.0
    ensures Sum(s) >= 0.0
  {
    if s != [] {
      SumNonNegative(s[1..]);
    }
  }

  /** A constant series has its value as mean and no squared deviation. */
  lemma ConstantSpread(s: seq<real>)
    ensures |s| > 0 && (forall i :: 0 <= i < |s| ==> s[i] == s[0]) ==>
      Mean(s) == s[0] && Sum(SquaredDiffs(s, Mean(s))) == 0.0
  {
    if |s| > 0 && (forall i :: 0 <= i < |s| ==> s[i] == s[0]) {
      SumBounds(s, s[0], s[0]);
      var n := |s| as real;
      assert Mean(s) * n == s[0] * n;
      Cancel(Mean(s), s[0], n);
      SumBounds(SquaredDiffs(s, Mean(s)), 0.0, 0.0);
    }
  }

  /** `calculateStandardDeviation`, over a given square root: the root of the variance. */
  function StandardDeviation(s: seq<real>, sqrt: real -> real): (r: real)
    ensures r == sqrt(Variance(s))
    ensures s == [] ==> r == sqrt(0.0)
  {
    sqrt(Mean(SquaredDiffs(s, Mean(s))))
  }

  /** The frost-risk test of hour `i`: at most 2 degrees, within 3 degrees of the dew point. */
  predicate RiskyHour(temps: seq<real>, dews: seq<real>, i: int)
    requires 0 <= i < |temps|
  {
    temps[i] <= 2.0 && i < |dews| && temps[i] - dews[i] < 3.0
  }

  /** The number of risky hours among the first `|temps|`. */
  function FrostRiskCount(temps: seq<real>, dews: seq<real>): nat
  {
    if temps == [] then 0
    else FrostRiskCount(temps[..|temps| - 1], dews) + (if RiskyHour(temps, dews, |temps| - 1) then 1 else 0)
  }

  ghost function RiskySet(temps: seq<real>, dews: seq<real>): set<int>
  {
    set i | 0 <= i < |temps| && RiskyHour(temps, dews, i)
  }

  /** The count is the number of risky indices, hence between 0 and the series length. */
  lemma {:induction false} FrostRiskCountIsCardinality(temps: seq<real>, dews: seq<real>)
    ensures FrostRiskCount(temps, dews) == |RiskySet(temps, dews)|
    ensures FrostRiskCount(temps, dews) <= |temps|
  {
    if temps == [] {
      assert RiskySet(temps, dews) == {};
    } else {
      var n := |temps| - 1;
      var front := temps[..n];
      FrostRiskCountIsCardinality(front, dews);
      var s0 := RiskySet(front, dews);
      assert forall i :: 0 <= i < n ==> front[i] == temps[i];
      if RiskyHour(temps, dews, n) {
        assert RiskySet(temps, dews) == s0 + {n};
        assert n !in s0;
      } else {
        assert RiskySet(temps, dews) == s0;
      }
    }
  }

  /** `countFrostRiskHours`: the counting loop. */
  method CountFrostRiskHours(temps: seq<real>, dews: seq<real>) returns (count: nat)
    ensures count == FrostRiskCount(temps, dews)
    ensures count <= |temps|
  {
    count := 0;
    var i := 0;
    while i < |temps|
      invariant 0 <= i <= |temps|
      invariant count == FrostRiskCount(temps[..i], dews)
    {
      assert temps[..i + 1][..i] == temps[..i];
      if temps[i] <= 2.0 && i < |dews| && temps[i] - dews[i] < 3.0 {
        count := count + 1;
      }
      i := i + 1;
    }
    assert temps[..|temps|] == temps;
    FrostRiskCountIsCardinality(temps, dews);
  }

  // ---------------------------------------------------------------------------
  // The forecast window

  /** `time.findIndex(time => new Date(time) >= currentTime)`. */
  function FindFirstAtOrAfter(time: seq<Stamp>, now: int): (k: int)
    ensures -1 <= k < |time|
    ensures k == -1 <==> forall i :: 0 <= i < |time| ==> time[i].millis < now
    ensures k >= 0 ==> time[k].millis >= now && forall i :: 0 <= i < k ==> time[i].millis < now
  {
    if time == [] then -1
    else if time[0].millis >= now then 0
    else
      var k := FindFirstAtOrAfter(time[1..], now);
      if k == -1 then -1 else k + 1
  }

  /** The start index the service uses: the search result itself, `-1` included. */
  function StartAsWritten(time: seq<Stamp>, now: int): int
  {
    FindFirstAtOrAfter(time, now)
  }

  /** The start index meant by "the next 24 hours": past the end when no hour is left. */
  function Start(time: seq<Stamp>, now: int): (start: nat)
    ensures start <= |time|
    ensures forall i :: 0 <= i < start ==> time[i].millis < now
    ensures start < |time| ==> time[start].millis >= now
  {
    var k := FindFirstAtOrAfter(time, now);
    if k == -1 then |time| else k
  }

  /** `Math.min(start + 24, time.length)`. */
  function End(start: int, n: nat): int
  {
    if start + 24 < n then start + 24 else n
  }

  function TimeAt(time: seq<Stamp>, k: int): Option<string>
  {
    if 0 <= k < |time| then Some(time[k].text) else None
  }

  function Slices(h: HourlyData, start: int, end: int): Window
  {
    Window(JsSlice(h.temperature, start, end), JsSlice(h.humidity, start, end),
           JsSlice(h.dewPoint, start, end), JsSlice(h.precipitation, start, end),
           JsSlice(h.rain, start, end), JsSlice(h.windSpeed, start, end),
           JsSlice(h.pressure, start, end))
  }

  /** `calculateHistoricalStats(hourly, startIndex, endIndex)`. */
  function HistoricalStats(h: HourlyData, startIndex: int, endIndex: int): (r: Historical)
    ensures var temps := JsSlice(h.temperature, startIndex, endIndex);
      && r.tempMin7d == MinOf(temps) && r.tempMean7d == Mean(temps)
      && (temps == [] ==> r.tempMean7d == 0.0)
      && (temps != [] ==> r.tempMin7d.Fin? && r.tempMin7d.v <= r.tempMean7d)
    ensures var hum := JsSlice(h.humidity, startIndex, endIndex);
      r.humidityMean7d == Mean(hum) && (hum == [] ==> r.humidityMean7d == 0.0)
    ensures r.precipitationSum7d == Sum(JsSlice(h.precipitation, startIndex, endIndex))
  {
    var temps := JsSlice(h.temperature, startIndex, endIndex);
    var hum := JsSlice(h.humidity, startIndex, endIndex);
    MeanBracketed(temps);
    Historical(Mean(temps), MinOf(temps), Mean(hum), Sum(JsSlice(h.precipitation, startIndex, endIndex)))
  }

  function Aggregate(w: Window, sqrt: real -> real): Aggregates
  {
    Aggregates(
      tempMin := MinOf(w.temperature), tempMax := MaxOf(w.temperature),
      tempMean := Mean(w.temperature), tempStd := StandardDeviation(w.temperature, sqrt),
      humidityMin := MinOf(w.humidity), humidityMax := MaxOf(w.humidity),
      humidityMean := Mean(w.humidity),
      dewPointMin := MinOf(w.dewPoint), dewPointMean := Mean(w.dewPoint),
      precipitationSum := Sum(w.precipitation), precipitationMax := MaxOf(w.precipitation),
      rainSum := Sum(w.rain),
      windSpeedMean := Mean(w.windSpeed), windSpeedMax := MaxOf(w.windSpeed),
      pressureMean := Mean(w.pressure), pressureMin := MinOf(w.pressure),
      frostRiskHours := FrostRiskCount(w.temperature, w.dewPoint),
      forecastHours := |w.temperature|)
  }

  /** `processWeatherData` from a given start index. */
  function ProcessFrom(h: HourlyData, start: int, sqrt: real -> real): Processed
  {
    var end := End(start, |h.time|);
    var w := Slices(h, start, end);
    Processed(Aggregate(w, sqrt), HistoricalStats(h, 0, start), w,
              TimeAt(h.time, start), TimeAt(h.time, end - 1))
  }

  /** `processWeatherData` exactly as the service computes it. */
  function ProcessWeatherDataAsWritten(h: HourlyData, now: int, sqrt: real -> real): Processed
  {
    ProcessFrom(h, StartAsWritten(h.time, now), sqrt)
  }

  /** `processWeatherData` with the start index moved past the end when no hour is left. */
  function ProcessWeatherData(h: HourlyData, now: int, sqrt: real -> real): (p: Processed)
    requires Aligned(h)
    ensures var start := Start(h.time, now);
      var end := End(start, |h.time|);
      && start <= end <= |h.time| && end - start <= 24
      && p.hourlyForecast == Window(
           h.temperature[start..end], h.humidity[start..end], h.dewPoint[start..end],
           h.precipitation[start..end], h.rain[start..end], h.windSpeed[start..end],
           h.pressure[start..end])
      && p.historical == HistoricalStats(h, 0, start)
      && p.rangeStart == TimeAt(h.time, start) && p.rangeEnd == TimeAt(h.time, end - 1)
    ensures var w := p.hourlyForecast;
      var f := p.forecast;
      && f.tempMin == MinOf(w.temperature) && f.tempMax == MaxOf(w.temperature)
      && f.tempMean == Mean(w.temperature) && f.tempStd == StandardDeviation(w.temperature, sqrt)
      && f.humidityMin == MinOf(w.humidity) && f.humidityMax == MaxOf(w.humidity)
      && f.humidityMean == Mean(w.humidity)
      && f.dewPointMin == MinOf(w.dewPoint) && f.dewPointMean == Mean(w.dewPoint)
      && f.precipitationSum == Sum(w.precipitation) && f.precipitationMax == MaxOf(w.precipitation)
      && f.rainSum == Sum(w.rain)
      && f.windSpeedMean == Mean(w.windSpeed) && f.windSpeedMax == MaxOf(w.windSpeed)
      && f.pressureMean == Mean(w.pressure) && f.pressureMin == MinOf(w.pressure)
      && f.frostRiskHours == |RiskySet(w.temperature, w.dewPoint)|
      && f.forecastHours == |w.temperature|
    ensures |p.hourlyForecast.temperature| <= 24
    ensures p.forecast.frostRiskHours <= p.forecast.forecastHours
    ensures p.hourlyForecast.temperature != [] ==>
      p.forecast.tempMin.Fin? && p.forecast.tempMax.Fin?
      && p.forecast.tempMin.v <= p.forecast.tempMean <= p.forecast.tempMax.v
  {
    var p := ProcessFrom(h, Start(h.time, now), sqrt);
    FrostRiskCountIsCardinality(p.hourlyForecast.temperature, p.hourlyForecast.dewPoint);
    MeanBracketed(p.hourlyForecast.temperature);
    p
  }

  /** `getFrostForecastData` after the request: failures become a result, never an exception. */
  function GetFrostForecastData(outcome: FetchOutcome, now: int, sqrt: real -> real): (r: ForecastResult)
    requires outcome.Fetched? ==> Aligned(outcome.response.hourly)
    ensures r.success <==> outcome.Fetched?
    ensures !r.success ==> r.data.None? && r.error == Some(outcome.message)
    ensures !r.success ==> r.metadata.None?
    ensures outcome.Fetched? ==>
      var resp := outcome.response;
      && r.data == Some(ProcessWeatherData(resp.hourly, now, sqrt))
      && r.metadata == Some(Metadata(resp.latitude, resp.longitude, resp.timezone, resp.elevation,
                                     resp.generationTimeMs))
      && r.error.None?
  {
    match outcome
    case FetchFailed(msg) => ForecastResult(false, None, None, Some(msg))
    case Fetched(resp) =>
      ForecastResult(
        true, Some(ProcessWeatherData(resp.hourly, now, sqrt)),
        Some(Metadata(resp.latitude, resp.longitude, resp.timezone, resp.elevation,
                      resp.generationTimeMs)),
        None)
  }

  // ---------------------------------------------------------------------------
  // Window properties

  /** The window holds exactly the hours from the start on, at most 24 of them, and the history every hour before. */
  lemma WindowAndHistory(h: HourlyData, now: int, sqrt: real -> real)
    requires Aligned(h)
    ensures var start := Start(h.time, now);
      var end := End(start, |h.time|);
      var p := ProcessWeatherData(h, now, sqrt);
      start <= end <= |h.time| && end - start <= 24
      && p.hourlyForecast.temperature == h.temperature[start..end]
      && p.hourlyForecast.humidity == h.humidity[start..end]
      && p.hourlyForecast.dewPoint == h.dewPoint[start..end]
      && p.hourlyForecast.precipitation == h.precipitation[start..end]
      && p.hourlyForecast.rain == h.rain[start..end]
      && p.hourlyForecast.windSpeed == h.windSpeed[start..end]
      && p.hourlyForecast.pressure == h.pressure[start..end]
      && p.historical == Historical(Mean(h.temperature[..start]), MinOf(h.temperature[..start]),
                                    Mean(h.humidity[..start]), Sum(h.precipitation[..start]))
      && (forall i :: 0 <= i < start ==> h.time[i].millis < now)
      && (start < |h.time| ==> h.time[start].millis >= now)
  {
  }

  /** When the search finds an hour, both definitions agree. */
  lemma AsWrittenAgreesWhenFound(h: HourlyData, now: int, sqrt: real -> real)
    requires Aligned(h) && exists i :: 0 <= i < |h.time| && h.time[i].millis >= now
    ensures ProcessWeatherDataAsWritten(h, now, sqrt) == ProcessWeatherData(h, now, sqrt)
  {
    var k := FindFirstAtOrAfter(h.time, now);
    assert k != -1;
  }

  /**
   * With every hour already past (the search returns -1) and a full series, the
   * service's `slice(-1, 23)` window is empty and `slice(0, -1)` drops the last
   * past hour from the history, so that hour is counted nowhere.
   */
  lemma AsWrittenDropsLastHour(h: HourlyData, now: int, sqrt: real -> real)
    requires Aligned(h) && |h.time| >= 24
    requires forall i :: 0 <= i < |h.time| ==> h.time[i].millis < now
    ensures var p := ProcessWeatherDataAsWritten(h, now, sqrt);
      p.hourlyForecast.temperature == []
      && p.historical.tempMean7d == Mean(h.temperature[..|h.time| - 1])
      && p.rangeStart.None?
  {
  }

  /** The corrected window for the same input: empty, with every hour in the history. */
  lemma StartPastEndKeepsAllHistory(h: HourlyData, now: int, sqrt: real -> real)
    requires Aligned(h)
    requires forall i :: 0 <= i < |h.time| ==> h.time[i].millis < now
    ensures var p := ProcessWeatherData(h, now, sqrt);
      p.hourlyForecast.temperature == []
      && p.historical.tempMean7d == Mean(h.temperature)
      && p.historical.precipitationSum7d == Sum(h.precipitation)
  {
    assert h.temperature[..|h.time|] == h.temperature;
    assert h.precipitation[..|h.time|] == h.precipitation;
  }

  // ---------------------------------------------------------------------------
  // The ML vector

  /** `prepareMLFeatures`: 17 aggregates, then three forecast-minus-history differences. */
  function PrepareMLFeatures(p: Processed): (v: seq<ExtReal>)
    ensures |v| == 20
    ensures v[16] == Fin(p.forecast.frostRiskHours as real)
    ensures v[17] == Fin(p.forecast.tempMean - p.historical.tempMean7d)
    ensures v[18] == Fin(p.forecast.humidityMean - p.historical.humidityMean7d)
    ensures v[19] == Fin(p.forecast.precipitationSum - p.historical.precipitationSum7d / 7.0)
  {
    var f := p.forecast;
    var hist := p.historical;
    [f.tempMin, f.tempMax, Fin(f.tempMean), Fin(f.tempStd),
     f.humidityMin, f.humidityMax, Fin(f.humidityMean),
     f.dewPointMin, Fin(f.dewPointMean),
     Fin(f.precipitationSum), f.precipitationMax, Fin(f.rainSum),
     Fin(f.windSpeedMean), f.windSpeedMax,
     Fin(f.pressureMean), f.pressureMin,
     Fin(f.frostRiskHours as real),
     Fin(f.tempMean - hist.tempMean7d),
     Fin(f.humidityMean - hist.humidityMean7d),
     Fin(f.precipitationSum - hist.precipitationSum7d / 7.0)]
  }

  /** A non-empty window has finite minima and maxima, bracketing the mean. */
  lemma MeanBetweenMinAndMax(s: seq<real>)
    requires s != []
    ensures MinOf(s).Fin? && MaxOf(s).Fin?
    ensures MinOf(s).v <= Mean(s) <= MaxOf(s).v
  {
    var lo := MinOf(s);
    var hi := MaxOf(s);
    assert lo.Fin? && hi.Fin?;
    SumBounds(s, lo.v, hi.v);
    QuotientBounds(lo.v, hi.v, Sum(s), |s| as real);
  }

  /** A non-empty series' minimum and maximum are finite and bracket its mean. */
  lemma MeanBracketed(s: seq<real>)
    ensures s != [] ==> MinOf(s).Fin? && MaxOf(s).Fin? && MinOf(s).v <= Mean(s) <= MaxOf(s).v
  {
    if s != [] {
      MeanBetweenMinAndMax(s);
    }
  }

  lemma QuotientBounds(lo: real, hi: real, total: real, n: real)
    requires n > 0.0 && lo * n <= total <= hi * n
    ensures lo <= total / n <= hi
  {
    var q := total / n;
    assert q * n == total;
    assert (q - lo) * n >= 0.0;
    assert (hi - q) * n >= 0.0;
  }

  lemma {:induction false} SumBounds(s: seq<real>, lo: real, hi: real)
    requires forall i :: 0 <= i < |s| ==> lo <= s[i] <= hi
    ensures lo * |s| as real <= Sum(s) <= hi * |s| as real
  {
    if s != [] {
      SumBounds(s[1..], lo, hi);
    }
  }

  // ---------------------------------------------------------------------------
  // Several locations

  /** `{lat, lon, name}`; an absent or empty name is falsy. */
  datatype Location = Location(lat: real, lon: real, name: Option<string>)

  datatype LabelledResult = LabelledResult(result: ForecastResult, location: string)

  /** `loc.name || \`${loc.lat},${loc.lon}\``, over a given number formatter. */
  function Label(loc: Location, show: real -> string): string
  {
    if Truthy(loc.name) then loc.name.value else show(loc.lat) + "," + show(loc.lon)
  }

  /** `getMultipleLocationsForecast`: one result per location, in input order. */
  function MultipleLocationsForecast(
    locations: seq<Location>, outcomes: seq<FetchOutcome>, now: int,
    sqrt: real -> real, show: real -> string): (r: seq<LabelledResult>)
    requires |outcomes| == |locations|
    requires forall i :: 0 <= i < |outcomes| ==> outcomes[i].Fetched? ==> Aligned(outcomes[i].response.hourly)
    ensures |r| == |locations|
    ensures forall i :: 0 <= i < |r| ==>
      r[i].result == GetFrostForecastData(outcomes[i], now, sqrt)
      && r[i].result.success == outcomes[i].Fetched?
      && (Truthy(locations[i].name) ==> r[i].location == locations[i].name.value)
      && (!Truthy(locations[i].name) ==> r[i].location == show(locations[i].lat) + "," + show(locations[i].lon))
  {
    seq(|locations|, i requires 0 <= i < |locations| =>
      LabelledResult(GetFrostForecastData(outcomes[i], now, sqrt), Label(locations[i], show)))
  }
}
