/**
 * The agroclimatic assistance page: frost and drought alerts for the first
 * three forecast days, the risk bands of the per-day cards, and the offline
 * copy of the last forecast. The randomly generated forecast is an input;
 * alert messages are represented by the date and reading they mention.
 */
module AgroclimaticPage {
  import opened Common

  datatype ForecastDay = ForecastDay(date: int, tempMin: real, tempMax: real, humidity: real,
                                     windSpeed: real, precipitation: real, uvIndex: real,
                                     frostRisk: real, droughtRisk: real)

  datatype Current = Current(temperature: real, humidity: real, windSpeed: real,
                             pressure: real, visibility: real)

  datatype WeatherData = WeatherData(current: Current, forecast: seq<ForecastDay>)

  datatype AlertKind = Frost | Drought

  /**
   * One alert: `day` is the forecast index, `date` and `reading` what its
   * message mentions (the minimum temperature for frost, the precipitation
   * for drought). Its type, title, priority and advice follow from `kind`.
   */
  datatype WeatherAlert = WeatherAlert(id: string, kind: AlertKind, day: nat, date: int, reading: real)

  function AlertType(kind: AlertKind): string
  {
    match kind
    case Frost => "error"
    case Drought => "warning"
  }

  function AlertTitle(kind: AlertKind): string
  {
    match kind
    case Frost => "Alerta de Helada"
    case Drought => "Riesgo de Sequía"
  }

  function AlertPriority(kind: AlertKind): string
  {
    match kind
    case Frost => "high"
    case Drought => "medium"
  }

  function AlertAdvice(kind: AlertKind): seq<string>
  {
    match kind
    case Frost =>
      ["Cubrir cultivos sensibles", "Activar sistemas de protección contra heladas",
       "Regar antes del amanecer para proteger las raíces"]
    case Drought =>
      ["Aumentar frecuencia de riego", "Implementar mulching para conservar humedad",
       "Monitorear nivel de agua en reservorios"]
  }

  /** Only the first three days are examined. */
  const AlertDays: nat := 3

  /** Whether a day's readings raise an alert of `kind`. */
  predicate Raised(kind: AlertKind, d: ForecastDay)
  {
    match kind
    case Frost => d.frostRisk > 0.6
    case Drought => d.droughtRisk > 0.5 && d.precipitation < 2.0
  }

  function IdPrefix(kind: AlertKind): string
  {
    match kind
    case Frost => "frost-"
    case Drought => "drought-"
  }

  /** `` `frost-${index}` `` or `` `drought-${index}` `` for a one-digit index. */
  function AlertId(kind: AlertKind, index: nat): (id: string)
    requires index < 10
    ensures |id| == |IdPrefix(kind)| + 1 && id[..|id| - 1] == IdPrefix(kind)
  {
    IdPrefix(kind) + [('0' as int + index) as char]
  }

  /** Different alerts have different ids. */
  lemma AlertIdInjective(k1: AlertKind, i1: nat, k2: AlertKind, i2: nat)
    requires i1 < 10 && i2 < 10 && AlertId(k1, i1) == AlertId(k2, i2)
    ensures k1 == k2 && i1 == i2
  {
    var id := AlertId(k1, i1);
    assert id[|id| - 1] == ('0' as int + i1) as char;
    assert AlertId(k2, i2)[|id| - 1] == ('0' as int + i2) as char;
  }

  /** The alert a day raises, with the reading its message mentions. */
  function AlertOf(kind: AlertKind, d: ForecastDay, index: nat): (a: WeatherAlert)
    requires index < 10
    ensures a.kind == kind && a.day == index && a.id == AlertId(kind, index) && a.date == d.date
    ensures a.reading == if kind == Frost then d.tempMin else d.precipitation
  {
    WeatherAlert(AlertId(kind, index), kind, index, d.date, if kind == Frost then d.tempMin else d.precipitation)
  }

  /** The alerts of one day: frost first, then drought. */
  function DayAlerts(d: ForecastDay, index: nat): (r: seq<WeatherAlert>)
    requires index < 10
    ensures |r| <= 2
    ensures forall j :: 0 <= j < |r| ==> r[j].day == index
    ensures |r| == 2 ==> r[0].kind == Frost && r[1].kind == Drought
  {
    (if Raised(Frost, d) then [AlertOf(Frost, d, index)] else [])
      + (if Raised(Drought, d) then [AlertOf(Drought, d, index)] else [])
  }

  /** The alerts of the days `days`, day by day. */
  function DaysAlerts(days: seq<ForecastDay>): seq<WeatherAlert>
    requires |days| < 10
    decreases |days|
  {
    if days == [] then []
    else DaysAlerts(days[..|days| - 1]) + DayAlerts(days[|days| - 1], |days| - 1)
  }

  function FirstDays(forecast: seq<ForecastDay>): (r: seq<ForecastDay>)
    ensures |r| == if |forecast| < AlertDays then |forecast| else AlertDays
    ensures r == forecast[..|r|]
  {
    if |forecast| < AlertDays then forecast else forecast[..AlertDays]
  }

  /** `generateWeatherAlerts(data)`, on the forecast list. */
  function WeatherAlerts(forecast: seq<ForecastDay>): seq<WeatherAlert>
  {
    DaysAlerts(FirstDays(forecast))
  }

  /** Whatever follows the third day changes nothing. */
  lemma LaterDaysIgnored(forecast: seq<ForecastDay>, later: seq<ForecastDay>)
    requires |forecast| >= AlertDays
    ensures WeatherAlerts(forecast + later) == WeatherAlerts(forecast)
  {
    assert FirstDays(forecast + later) == FirstDays(forecast);
  }

  /** Every alert is raised by one of the examined days and is that day's alert. */
  lemma {:induction false} AlertsSound(days: seq<ForecastDay>)
    requires |days| < 10
    ensures forall a :: a in DaysAlerts(days) ==>
      a.day < |days| && Raised(a.kind, days[a.day]) && a == AlertOf(a.kind, days[a.day], a.day)
    decreases |days|
  {
    if days != [] {
      var n := |days| - 1;
      var init := days[..n];
      AlertsSound(init);
      forall a | a in DaysAlerts(init) ensures a.day < n && days[a.day] == init[a.day] { }
    }
  }

  /** Every raised alert of an examined day is among the alerts. */
  lemma {:induction false} AlertsComplete(days: seq<ForecastDay>, kind: AlertKind, i: nat)
    requires |days| < 10 && i < |days| && Raised(kind, days[i])
    ensures AlertOf(kind, days[i], i) in DaysAlerts(days)
    decreases |days|
  {
    var n := |days| - 1;
    var init := days[..n];
    var block := DayAlerts(days[n], n);
    assert DaysAlerts(days) == DaysAlerts(init) + block;
    var a := AlertOf(kind, days[i], i);
    if i < n {
      assert init[i] == days[i];
      AlertsComplete(init, kind, i);
      assert a in DaysAlerts(init);
    } else {
      assert a in block by {
        if kind == Frost {
          assert block[0] == a;
        } else {
          assert block[|block| - 1] == a;
        }
      }
    }
  }

  /** Day `i` has a frost alert, or a drought alert, exactly when its readings pass that alert's thresholds. */
  lemma AlertsOfDay(forecast: seq<ForecastDay>, kind: AlertKind, i: nat)
    requires i < AlertDays && i < |forecast|
    ensures AlertOf(kind, forecast[i], i) in WeatherAlerts(forecast) <==> Raised(kind, forecast[i])
  {
    var days := FirstDays(forecast);
    assert days[i] == forecast[i];
    AlertsSound(days);
    if Raised(kind, forecast[i]) {
      AlertsComplete(days, kind, i);
    }
  }

  /** Every alert names one of the examined days. */
  lemma {:induction false} AlertDaysBounded(days: seq<ForecastDay>)
    requires |days| < 10
    ensures forall j :: 0 <= j < |DaysAlerts(days)| ==> DaysAlerts(days)[j].day < |days|
    decreases |days|
  {
    if days != [] {
      var n := |days| - 1;
      AlertDaysBounded(days[..n]);
      assert DaysAlerts(days) == DaysAlerts(days[..n]) + DayAlerts(days[n], n);
    }
  }

  /** Alerts come day by day, and within a day frost comes before drought. */
  lemma {:induction false} AlertsOrdered(days: seq<ForecastDay>)
    requires |days| < 10
    ensures forall j, k :: 0 <= j < k < |DaysAlerts(days)| ==>
      DaysAlerts(days)[j].day < DaysAlerts(days)[k].day
      || (DaysAlerts(days)[j].day == DaysAlerts(days)[k].day
          && DaysAlerts(days)[j].kind == Frost && DaysAlerts(days)[k].kind == Drought)
    decreases |days|
  {
    if days != [] {
      var n := |days| - 1;
      var init := days[..n];
      AlertsOrdered(init);
      AlertDaysBounded(init);
      var front := DaysAlerts(init);
      var block := DayAlerts(days[n], n);
      assert DaysAlerts(days) == front + block;
      OrderedConcat(front, block, n);
    }
  }

  /** Ordered alerts of earlier days followed by one later day's block stay ordered. */
  lemma OrderedConcat(front: seq<WeatherAlert>, block: seq<WeatherAlert>, n: nat)
    requires forall j :: 0 <= j < |front| ==> front[j].day < n
    requires forall j, k :: 0 <= j < k < |front| ==>
      front[j].day < front[k].day || (front[j].day == front[k].day && front[j].kind == Frost && front[k].kind == Drought)
    requires forall j :: 0 <= j < |block| ==> block[j].day == n
    requires |block| <= 2 && (|block| == 2 ==> block[0].kind == Frost && block[1].kind == Drought)
    ensures forall j, k :: 0 <= j < k < |front + block| ==>
      (front + block)[j].day < (front + block)[k].day
      || ((front + block)[j].day == (front + block)[k].day
          && (front + block)[j].kind == Frost && (front + block)[k].kind == Drought)
  {
    var all := front + block;
    forall j, k | 0 <= j < k < |all|
      ensures all[j].day < all[k].day || (all[j].day == all[k].day && all[j].kind == Frost && all[k].kind == Drought)
    {
      if k < |front| {
        assert all[j] == front[j] && all[k] == front[k];
      } else if j < |front| {
        assert all[j] == front[j] && all[k] == block[k - |front|];
      } else {
        assert all[j] == block[j - |front|] && all[k] == block[k - |front|];
      }
    }
  }

  /** At most two alerts per examined day. */
  lemma {:induction false} AtMostTwoPerDay(days: seq<ForecastDay>)
    requires |days| < 10
    ensures |DaysAlerts(days)| <= 2 * |days|
    decreases |days|
  {
    if days != [] {
      AtMostTwoPerDay(days[..|days| - 1]);
    }
  }

  /** No two alerts share an id. */
  lemma AlertIdsUnique(forecast: seq<ForecastDay>)
    ensures forall j, k :: 0 <= j < k < |WeatherAlerts(forecast)| ==>
      WeatherAlerts(forecast)[j].id != WeatherAlerts(forecast)[k].id
  {
    var days := FirstDays(forecast);
    var alerts := WeatherAlerts(forecast);
    AlertsOrdered(days);
    AlertsSound(days);
    forall j, k | 0 <= j < k < |alerts| ensures alerts[j].id != alerts[k].id {
      var a, b := alerts[j], alerts[k];
      assert a in alerts && b in alerts;
      if a.id == b.id {
        AlertIdInjective(a.kind, a.day, b.kind, b.day);
      }
    }
  }

  /** The page shows at most six alerts, all of them for the first three days. */
  lemma AtMostSixAlerts(forecast: seq<ForecastDay>)
    ensures |WeatherAlerts(forecast)| <= 6
    ensures forall a :: a in WeatherAlerts(forecast) ==> a.day < AlertDays
  {
    AtMostTwoPerDay(FirstDays(forecast));
    AlertsSound(FirstDays(forecast));
  }

  /** `generateWeatherAlerts`: one pass over the first three days. */
  method GenerateWeatherAlerts(data: WeatherData) returns (alerts: seq<WeatherAlert>)
    ensures alerts == WeatherAlerts(data.forecast)
  {
    var days := FirstDays(data.forecast);
    alerts := [];
    var index := 0;
    while index < |days|
      invariant 0 <= index <= |days|
      invariant alerts == DaysAlerts(days[..index])
    {
      var day := days[index];
      assert days[..index + 1][..index] == days[..index];
      ghost var before := alerts;
      if day.frostRisk > 0.6 {
        alerts := alerts + [AlertOf(Frost, day, index)];
      }
      if day.droughtRisk > 0.5 && day.precipitation < 2.0 {
        alerts := alerts + [AlertOf(Drought, day, index)];
      }
      assert alerts == before + DayAlerts(day, index);
      index := index + 1;
    }
    assert days[..index] == days;
  }

  datatype RiskBand = RiskBand(level: string, color: string)

  /** `getRiskLevel`: the band of a day's frost or drought risk. */
  function RiskLevel(risk: real): (b: RiskBand)
    ensures b == RiskBand("Alto", "error") <==> risk > 0.7
    ensures b == RiskBand("Medio", "warning") <==> 0.4 < risk <= 0.7
    ensures b == RiskBand("Bajo", "success") <==> risk <= 0.4
  {
    if risk > 0.7 then RiskBand("Alto", "error")
    else if risk > 0.4 then RiskBand("Medio", "warning")
    else RiskBand("Bajo", "success")
  }

  /** A higher risk never gets a lower band. */
  lemma RiskLevelMonotone(r1: real, r2: real)
    requires r1 <= r2
    ensures RiskLevel(r1) == RiskBand("Alto", "error") ==> RiskLevel(r2) == RiskBand("Alto", "error")
    ensures RiskLevel(r2) == RiskBand("Bajo", "success") ==> RiskLevel(r1) == RiskBand("Bajo", "success")
  {
  }

  // ---------------------------------------------------------------------------
  // The page

  /** The `weatherData` entry of the local storage. */
  datatype CachedWeather = CachedWeather(data: WeatherData, alerts: seq<WeatherAlert>, location: string, timestamp: int)

  class Page {
    var selectedLocation: string
    var weatherData: Option<WeatherData>
    var alerts: seq<WeatherAlert>
    var lastUpdate: Option<int>
    var loading: bool
    var cache: Option<CachedWeather>

    constructor(stored: Option<CachedWeather>)
      ensures selectedLocation == "lima" && weatherData == None && alerts == []
      ensures lastUpdate == None && !loading && cache == stored
    {
      selectedLocation := "lima";
      weatherData := None;
      alerts := [];
      lastUpdate := None;
      loading := false;
      cache := stored;
    }

    /** `handleLocationChange`; the effect that follows is a call of `LoadWeatherData`. */
    method HandleLocationChange(value: string)
      modifies this
      ensures selectedLocation == value && weatherData == old(weatherData) && alerts == old(alerts)
      ensures lastUpdate == old(lastUpdate) && loading == old(loading) && cache == old(cache)
    {
      selectedLocation := value;
    }

    /**
     * `loadWeatherData`, with `generated` for the generated forecast: online
     * it is shown and stored; offline the stored forecast is shown only when
     * it was stored for the selected location, and otherwise the generated one.
     */
    method LoadWeatherData(isOnline: bool, now: int, generated: WeatherData)
      modifies this
      ensures selectedLocation == old(selectedLocation) && !loading
      ensures (isOnline ==>
                 && weatherData == Some(generated) && alerts == WeatherAlerts(generated.forecast)
                 && lastUpdate == Some(now)
                 && cache == Some(CachedWeather(generated, alerts, selectedLocation, now)))
      ensures (!isOnline && old(cache).Some? && old(cache).value.location == selectedLocation ==>
                 && weatherData == Some(old(cache).value.data) && alerts == old(cache).value.alerts
                 && lastUpdate == Some(old(cache).value.timestamp) && cache == old(cache))
      ensures (!isOnline && !(old(cache).Some? && old(cache).value.location == selectedLocation) ==>
                 && weatherData == Some(generated) && alerts == WeatherAlerts(generated.forecast)
                 && lastUpdate == old(lastUpdate) && cache == old(cache))
    {
      loading := true;
      if isOnline {
        var shown := GenerateWeatherAlerts(generated);
        var stored := GenerateWeatherAlerts(generated);
        weatherData := Some(generated);
        alerts := shown;
        lastUpdate := Some(now);
        cache := Some(CachedWeather(generated, stored, selectedLocation, now));
      } else if cache.Some? && cache.value.location == selectedLocation {
        weatherData := Some(cache.value.data);
        alerts := cache.value.alerts;
        lastUpdate := Some(cache.value.timestamp);
      } else {
        var shown := GenerateWeatherAlerts(generated);
        weatherData := Some(generated);
        alerts := shown;
      }
      loading := false;
    }
  }
}
