/**
 * The `/api/weather` routes that hold logic: the frost prediction pipeline
 * (validate, build features, infer, then optionally subscribe and send an SMS),
 * the `/alerts` filter over the static region and alert tables, the per-day
 * threshold alerts and the recent-versus-older climate trend.
 */
module WeatherRoutes {
  import opened Common
  import FrostFeatures
  import FrostInference
  import Subscribers
  import Sms

  // ---------------------------------------------------------------------------
  // POST /frost/predict

  /** The optional `phone` field: absent, a string, or some other JSON value. */
  datatype PhoneField = NoPhone | PhoneText(text: string) | PhoneNotText

  /** The request body; `lat`/`lon` are `None` when missing or not a float. */
  datatype FrostBody = FrostBody(lat: Option<real>, lon: Option<real>, phone: PhoneField)

  datatype FrostReply =
    | Invalid                                  // 400 with the validator's error list
    | Failed(message: string, error: string)   // 500
    | Predicted(prediction: Option<FrostInference.Prediction>, features: FrostFeatures.Features,
                meta: FrostFeatures.Meta, smsSent: bool)

  const Threshold: real := 0.90
  const AppUserName := "Usuario de App"
  const PredictionFailed := "Fallo en predicción"
  /** The TypeError thrown by `prediction.risk_level` when the model printed nothing. */
  const UndefinedPrediction := "Cannot read properties of undefined (reading 'risk_level')"

  /** The `body(...)` validators: both coordinates in range, and a phone, if any, a string. */
  predicate ValidBody(b: FrostBody)
  {
    b.lat.Some? && -90.0 <= b.lat.value <= 90.0
    && b.lon.Some? && -180.0 <= b.lon.value <= 180.0
    && !b.phone.PhoneNotText?
  }

  /** `if (phone)`: a non-empty string. */
  predicate HasPhone(b: FrostBody)
  {
    b.phone.PhoneText? && b.phone.text != ""
  }

  /** The SMS sent on opt-in, whatever the risk. */
  function WelcomeFrostText(p: FrostInference.Prediction): string
  {
    "Bienvenido a las alertas de heladas. Riesgo actual en tu zona: " + ToUpper(p.riskLevel)
    + " (" + IntToString(Round(p.risk * 100.0)) + "%). Te avisaremos si el riesgo es alto."
  }

  /**
   * The handler. `fetched` is what the Open-Meteo request inside
   * `buildFrostFeatures` produced; `run` is the model process's outcome.
   * `sms` is the `sendSMS` result the handler holds (only `smsSent` is returned).
   */
  method FrostPredict(store: Subscribers.SubscriberStore, body: FrostBody,
                      fetched: Result<FrostFeatures.ForecastResponse>, now: int, trig: FrostFeatures.Trig,
                      run: FrostInference.ModelRun, svc: Sms.SmsService, reply: Sms.GatewayReply,
                      clock: Sms.Clock)
    returns (r: FrostReply, sms: Option<Sms.SmsResult>)
    requires fetched.Ok? ==> FrostFeatures.WellFormed(fetched.value)
    modifies store
    ensures !ValidBody(body) ==> r == Invalid && sms.None? && store.file == old(store.file)
    ensures ValidBody(body) && fetched.Err? ==> r == Failed(PredictionFailed, fetched.error)
    ensures ValidBody(body) && fetched.Err? ==> store.file == old(store.file) && sms.None?
    ensures ValidBody(body) && fetched.Ok? && FrostFeatures.BuildFrostFeatures(fetched.value, now, trig).Err? ==>
      r == Failed(PredictionFailed, FrostFeatures.BuildFrostFeatures(fetched.value, now, trig).error)
      && store.file == old(store.file) && sms.None?
    ensures r.Predicted? <==>
      ValidBody(body) && fetched.Ok? && FrostFeatures.BuildFrostFeatures(fetched.value, now, trig).Ok?
      && !(HasPhone(body) && run.ModelOutputs? && |run.results| == 0)
    ensures r.Predicted? ==>
      var built := FrostFeatures.BuildFrostFeatures(fetched.value, now, trig).value;
      r.features == built.orderedFeatures && r.meta == built.meta
    ensures r.Predicted? && run.ModelOutputs? && |run.results| > 0 ==> r.prediction == Some(run.results[0])
    ensures r.Predicted? && run.ModelFailed? ==> r.prediction.Some? && r.prediction.value.threshold == Threshold
    ensures r.Predicted? ==> (r.smsSent <==> HasPhone(body)) && (r.smsSent <==> sms.Some?)
    ensures r.Predicted? && !HasPhone(body) ==> store.file == old(store.file)
    ensures (ValidBody(body) && fetched.Ok? && FrostFeatures.BuildFrostFeatures(fetched.value, now, trig).Ok?
             && HasPhone(body)) ==>
      store.Records() == Subscribers.AfterSubscribe(old(store.Records()), body.phone.text, AppUserName, clock.iso)
    ensures sms.Some? ==> r.Predicted? && r.prediction.Some?
    ensures sms.Some? ==> sms.value.message == WelcomeFrostText(r.prediction.value)
    ensures sms.Some? ==> sms.value.smsType == "frost_welcome"
    ensures sms.Some? ==> sms.value.phone == Sms.FormatPhoneNumber(body.phone.text)
    ensures (ValidBody(body) && fetched.Ok? && FrostFeatures.BuildFrostFeatures(fetched.value, now, trig).Ok?
             && run.ModelOutputs? && |run.results| == 0 && HasPhone(body)) ==>
      r == Failed(PredictionFailed, UndefinedPrediction)
  {
    sms := None;
    if !ValidBody(body) {
      return Invalid, None;
    }
    if fetched.Err? {
      return Failed(PredictionFailed, fetched.error), None;
    }
    var built := FrostFeatures.BuildFrostFeatures(fetched.value, now, trig);
    if built.Err? {
      return Failed(PredictionFailed, built.error), None;
    }
    var prediction := FrostInference.InferFrost(built.value.featureVector, Some(Threshold), run);
    if HasPhone(body) {
      var phone := body.phone.text;
      var _ := store.Subscribe(phone, Some(AppUserName), clock.iso);
      if prediction.None? {
        return Failed(PredictionFailed, UndefinedPrediction), None;
      }
      var msg := WelcomeFrostText(prediction.value);
      sms := Some(Sms.SendSms(svc, phone, msg, Some("frost_welcome"), reply, clock));
    }
    r := Predicted(prediction, built.value.orderedFeatures, built.value.meta, sms.Some?);
  }

  // ---------------------------------------------------------------------------
  // The static tables

  datatype Region = Region(name: string, climate: string, avgTemp: int, humidity: real,
                           precipitation: int, riskFactors: seq<string>)

  datatype AlertType = AlertType(name: string, severity: string, description: string, prevention: seq<string>)

  /** `WEATHER_DATA.regions[key]`. */
  function LookupRegion(key: string): Option<Region>
  {
    if key == "costa" then
      Some(Region("Costa", "árido", 22, 0.75, 150, ["sequía", "niño", "vientos fuertes"]))
    else if key == "sierra" then
      Some(Region("Sierra", "templado", 15, 0.65, 800, ["heladas", "granizo", "sequía estacional"]))
    else if key == "selva" then
      Some(Region("Selva", "tropical", 26, 0.85, 2500, ["lluvias intensas", "inundaciones", "plagas"]))
    else None
  }

  /** `WEATHER_DATA.regions[region] || WEATHER_DATA.regions.sierra`, with `region` defaulting to sierra. */
  function RegionOrSierra(region: Option<string>): (r: Region)
    ensures region.Some? && LookupRegion(region.value).Some? ==> r == LookupRegion(region.value).value
    ensures region.None? || LookupRegion(region.value).None? ==> r == LookupRegion("sierra").value
  {
    var key := if region.Some? then region.value else "sierra";
    var found := LookupRegion(key);
    if found.Some? then found.value else LookupRegion("sierra").value
  }

  /** `WEATHER_DATA.alertTypes[key]`. */
  function LookupAlertType(key: string): Option<AlertType>
  {
    if key == "helada" then
      Some(AlertType("Helada", "high", "Temperaturas bajo 0°C que pueden dañar cultivos",
                     HeladaPrevention))
    else if key == "sequía" then
      Some(AlertType("Sequía", "medium", "Déficit hídrico prolongado",
                     ["Riego eficiente", "Mulching", "Cultivos resistentes"]))
    else if key == "lluvias_intensas" then
      Some(AlertType("Lluvias Intensas", "high", "Precipitaciones excesivas que pueden causar inundaciones",
                     RainPrevention))
    else if key == "granizo" then
      Some(AlertType("Granizo", "critical", "Precipitación sólida que puede destruir cultivos",
                     ["Mallas antigranizo", "Seguros agrícolas", "Refugios temporales"]))
    else if key == "vientos_fuertes" then
      Some(AlertType("Vientos Fuertes", "medium", "Vientos que pueden dañar plantas y estructuras",
                     WindPrevention))
    else None
  }

  // ---------------------------------------------------------------------------
  // GET /alerts

  /** One active alert (the id, the timestamps and the random probability are left out). */
  datatype ActiveAlert = ActiveAlert(alertType: string, name: string, severity: string,
                                     description: string, prevention: seq<string>, affectedArea: string)

  /** `risk.replace(' ', '_')`: only the first space. */
  function RiskType(risk: string): string
  {
    ReplaceFirst(risk, ' ', '_')
  }

  /** Whether a risk factor yields an alert under the severity filter. */
  predicate Emits(risk: string, severity: Option<string>)
  {
    var info := LookupAlertType(RiskType(risk));
    info.Some? && (!Truthy(severity) || info.value.severity == severity.value)
  }

  function AlertFor(risk: string, area: string): ActiveAlert
    requires LookupAlertType(RiskType(risk)).Some?
  {
    var info := LookupAlertType(RiskType(risk)).value;
    ActiveAlert(RiskType(risk), info.name, info.severity, info.description, info.prevention, area)
  }

  /** The alerts the `forEach` pushes, in risk-factor order. */
  function ActiveAlerts(risks: seq<string>, severity: Option<string>, area: string): (r: seq<ActiveAlert>)
    ensures |r| <= |risks|
    ensures forall k :: 0 <= k < |r| ==> LookupAlertType(r[k].alertType).Some?
    ensures forall k :: 0 <= k < |r| ==> !Truthy(severity) || r[k].severity == severity.value
  {
    if risks == [] then []
    else
      var prefix := ActiveAlerts(risks[..|risks| - 1], severity, area);
      var last := risks[|risks| - 1];
      if Emits(last, severity) then prefix + [AlertFor(last, area)] else prefix
  }

  datatype AlertsData = AlertsData(region: string, totalAlerts: nat, alerts: seq<ActiveAlert>)

  /** The `forEach` over a region's risk factors. */
  method CollectAlerts(risks: seq<string>, severity: Option<string>, area: string) returns (alerts: seq<ActiveAlert>)
    ensures alerts == ActiveAlerts(risks, severity, area)
  {
    alerts := [];
    var i := 0;
    while i < |risks|
      invariant 0 <= i <= |risks|
      invariant alerts == ActiveAlerts(risks[..i], severity, area)
    {
      var risk := risks[i];
      assert risks[..i + 1][..i] == risks[..i];
      assert ActiveAlerts(risks[..i + 1], severity, area)
          == if Emits(risk, severity) then alerts + [AlertFor(risk, area)] else alerts;
      var riskType := RiskType(risk);
      var info := LookupAlertType(riskType);
      if info.Some? && (!Truthy(severity) || info.value.severity == severity.value) {
        alerts := alerts + [ActiveAlert(riskType, info.value.name, info.value.severity,
                                        info.value.description, info.value.prevention, area)];
      }
      i := i + 1;
    }
    assert risks[..i] == risks;
  }

  /** `GET /alerts?region=&severity=`. */
  method AlertsRoute(region: Option<string>, severity: Option<string>) returns (d: AlertsData)
    ensures var reg := RegionOrSierra(region);
      d.region == reg.name && d.alerts == ActiveAlerts(reg.riskFactors, severity, reg.name)
    ensures d.totalAlerts == |d.alerts|
  {
    var reg := RegionOrSierra(region);
    var alerts := CollectAlerts(reg.riskFactors, severity, reg.name);
    d := AlertsData(reg.name, |alerts|, alerts);
  }

  /** Every emitted alert comes from a risk factor that passes the table lookup and the severity filter. */
  lemma {:induction false} AlertsComeFromRiskFactors(risks: seq<string>, severity: Option<string>, area: string)
    ensures forall a :: a in ActiveAlerts(risks, severity, area) ==>
      exists risk :: risk in risks && Emits(risk, severity) && a == AlertFor(risk, area)
  {
    if risks != [] {
      var init := risks[..|risks| - 1];
      var last := risks[|risks| - 1];
      AlertsComeFromRiskFactors(init, severity, area);
      forall a | a in ActiveAlerts(risks, severity, area)
        ensures exists risk :: risk in risks && Emits(risk, severity) && a == AlertFor(risk, area)
      {
        if a in ActiveAlerts(init, severity, area) {
          var risk :| risk in init && Emits(risk, severity) && a == AlertFor(risk, area);
          assert risk in risks;
        } else {
          assert a == AlertFor(last, area);
        }
      }
    }
  }

  /** Conversely, every risk factor that passes yields its alert. */
  lemma {:induction false} PassingRiskFactorsAlert(risks: seq<string>, severity: Option<string>, area: string)
    ensures forall risk :: risk in risks && Emits(risk, severity) ==> AlertFor(risk, area) in ActiveAlerts(risks, severity, area)
  {
    if risks != [] {
      var init := risks[..|risks| - 1];
      PassingRiskFactorsAlert(init, severity, area);
      forall risk | risk in risks && Emits(risk, severity)
        ensures AlertFor(risk, area) in ActiveAlerts(risks, severity, area)
      {
        if risk != risks[|risks| - 1] {
          assert risk in init;
        }
      }
    }
  }

  // ---------------------------------------------------------------------------
  // generateWeatherAlerts

  /** One forecast day, as `/forecast` builds it (the minimum is already rounded). */
  datatype Day = Day(date: string, minTemp: int, precipitation: real, windSpeed: real)

  /** What an alert's message says; `MessageText` spells it out. */
  datatype AlertMessage = FrostRisk(minTemp: int) | HeavyRain(mm: int) | StrongWind(kmh: int)

  function MessageText(m: AlertMessage): string
  {
    match m
    case FrostRisk(t) => "Riesgo de helada: " + IntToString(t) + "°C"
    case HeavyRain(mm) => "Lluvias intensas esperadas: " + IntToString(mm) + "mm"
    case StrongWind(kmh) => "Vientos fuertes: " + IntToString(kmh) + " km/h"
  }

  datatype DayAlert = DayAlert(alertType: string, severity: string, date: string, message: AlertMessage,
                               recommendations: seq<string>)

  const HeladaPrevention := ["Riego por aspersión", "Cubiertas protectoras", "Quema controlada"]
  const RainPrevention := ["Drenaje adecuado", "Cultivos en camas elevadas", "Protección de semillas"]
  const WindPrevention := ["Barreras cortaviento", "Tutores para plantas", "Estructuras reforzadas"]

  function FrostAlert(day: Day): DayAlert
  {
    DayAlert("helada", "critical", day.date, FrostRisk(day.minTemp), HeladaPrevention)
  }

  function RainAlert(day: Day): DayAlert
  {
    DayAlert("lluvias_intensas", "high", day.date, HeavyRain(Round(day.precipitation)), RainPrevention)
  }

  function WindAlert(day: Day): DayAlert
  {
    DayAlert("vientos_fuertes", "medium", day.date, StrongWind(Round(day.windSpeed)), WindPrevention)
  }

  /** The alerts of one day, in the order of the three checks. */
  function DayAlerts(day: Day): (r: seq<DayAlert>)
    ensures |r| <= 3
  {
    (if day.minTemp <= 2 then [FrostAlert(day)] else [])
    + (if day.precipitation > 15.0 then [RainAlert(day)] else [])
    + (if day.windSpeed > 20.0 then [WindAlert(day)] else [])
  }

  /** The alerts of a forecast, day after day. */
  function ForecastAlerts(days: seq<Day>): (r: seq<DayAlert>)
    ensures |r| <= 3 * |days|
  {
    if days == [] then [] else ForecastAlerts(days[..|days| - 1]) + DayAlerts(days[|days| - 1])
  }

  /** `generateWeatherAlerts(forecast)`. */
  method GenerateWeatherAlerts(forecast: seq<Day>) returns (alerts: seq<DayAlert>)
    ensures alerts == ForecastAlerts(forecast)
  {
    alerts := [];
    var i := 0;
    while i < |forecast|
      invariant 0 <= i <= |forecast|
      invariant alerts == ForecastAlerts(forecast[..i])
    {
      var day := forecast[i];
      ghost var before := alerts;
      if day.minTemp <= 2 {
        alerts := alerts + [FrostAlert(day)];
      }
      if day.precipitation > 15.0 {
        alerts := alerts + [RainAlert(day)];
      }
      if day.windSpeed > 20.0 {
        alerts := alerts + [WindAlert(day)];
      }
      assert alerts == before + DayAlerts(day);
      assert forecast[..i + 1][..i] == forecast[..i];
      i := i + 1;
    }
    assert forecast[..i] == forecast;
  }

  /** Each check fires exactly on its threshold. */
  lemma DayAlertTriggers(day: Day)
    ensures FrostAlert(day) in DayAlerts(day) <==> day.minTemp <= 2
    ensures RainAlert(day) in DayAlerts(day) <==> day.precipitation > 15.0
    ensures WindAlert(day) in DayAlerts(day) <==> day.windSpeed > 20.0
    ensures forall a :: a in DayAlerts(day) ==> a.date == day.date
  {
    var f, r, w := FrostAlert(day), RainAlert(day), WindAlert(day);
    assert f.alertType != r.alertType && f.alertType != w.alertType && r.alertType != w.alertType;
  }

  /** The alerts of a longer forecast extend those of its first days. */
  lemma {:induction false} ForecastAlertsConcat(a: seq<Day>, b: seq<Day>)
    ensures ForecastAlerts(a + b) == ForecastAlerts(a) + ForecastAlerts(b)
    decreases |b|
  {
    if b == [] {
      assert a + b == a;
    } else {
      var b' := b[..|b| - 1];
      var last := b[|b| - 1];
      var ab := a + b;
      assert ab[..|ab| - 1] == a + b';
      assert ab[|ab| - 1] == last;
      assert ForecastAlerts(ab) == ForecastAlerts(a + b') + DayAlerts(last);
      ForecastAlertsConcat(a, b');
      assert ForecastAlerts(b) == ForecastAlerts(b') + DayAlerts(last);
    }
  }

  // ---------------------------------------------------------------------------
  // generateClimateAnalysis

  datatype Month = Month(avgTemp: real, precipitation: real)

  datatype Trends = Trends(temperatureTrend: string, precipitationTrend: string,
                           temperatureChange: real, precipitationChange: real)

  function TempSum(ms: seq<Month>): real
  {
    if ms == [] then 0.0 else TempSum(ms[..|ms| - 1]) + ms[|ms| - 1].avgTemp
  }

  function PrecipSum(ms: seq<Month>): real
  {
    if ms == [] then 0.0 else PrecipSum(ms[..|ms| - 1]) + ms[|ms| - 1].precipitation
  }

  function Trend(recent: real, older: real): (t: string)
    ensures t == "increasing" <==> recent > older
    ensures t == "decreasing" <==> recent <= older
  {
    if recent > older then "increasing" else "decreasing"
  }

  /** The last three months against all earlier ones; `None` is the empty object. */
  function ClimateAnalysis(historical: seq<Month>): (r: Option<Trends>)
    ensures r.None? <==> |historical| < 3
  {
    if |historical| < 3 then None
    else
      var recent := historical[|historical| - 3..];
      var older := historical[..|historical| - 3];
      var recentTemp := TempSum(recent) / 3.0;
      var olderTemp := if |older| > 0 then TempSum(older) / |older| as real else recentTemp;
      var recentPrecip := PrecipSum(recent) / 3.0;
      var olderPrecip := if |older| > 0 then PrecipSum(older) / |older| as real else recentPrecip;
      Some(Trends(Trend(recentTemp, olderTemp), Trend(recentPrecip, olderPrecip),
                  Round2(recentTemp - olderTemp), Round2(recentPrecip - olderPrecip)))
  }

  /** With exactly three months there is nothing older: no change, and both trends read `decreasing`. */
  lemma ThreeMonthsIsFlat(historical: seq<Month>)
    requires |historical| == 3
    ensures ClimateAnalysis(historical) == Some(Trends("decreasing", "decreasing", 0.0, 0.0))
  {
    assert historical[0..] == historical;
    assert Round(0.0 * 100.0) == 0;
  }

  /** The reported changes are the two differences of averages to two decimals, and the trends their signs. */
  lemma AnalysisMeaning(historical: seq<Month>)
    requires |historical| > 3
    ensures var r := ClimateAnalysis(historical).value;
      var n := |historical|;
      var dt := TempSum(historical[n - 3..]) / 3.0 - TempSum(historical[..n - 3]) / (n - 3) as real;
      var dp := PrecipSum(historical[n - 3..]) / 3.0 - PrecipSum(historical[..n - 3]) / (n - 3) as real;
      dt - 0.005 < r.temperatureChange <= dt + 0.005
      && dp - 0.005 < r.precipitationChange <= dp + 0.005
      && (r.temperatureTrend == "increasing" <==> dt > 0.0)
      && (r.precipitationTrend == "increasing" <==> dp > 0.0)
  {
  }
}
