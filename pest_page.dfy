/**
 * The pest prevention page: each crop's common pests, a seasonal probability
 * with a bounded random variation, the alerts and treatment recommendations
 * raised for the likely pests, and the offline copy of the last prediction.
 * `Math.random()` is the `noise` parameter, one draw per pest key; the
 * 1.5-second simulated delay is left out.
 */
module PestPage {
  import opened Common

  datatype Severity = SeverityHigh | SeverityMedium

  datatype PestInfo = PestInfo(name: string, scientificName: string, severity: Severity,
                               affectedCrops: seq<string>, symptoms: seq<string>)

  const Crops: set<string> := {"maiz", "papa", "cebada", "quinua"}

  /** `cropPestMapping[crop]?.commonPests || []`. */
  function CommonPests(crop: string): (pests: seq<string>)
    ensures crop !in Crops ==> pests == []
    ensures crop in Crops ==> |pests| == 3
  {
    if crop == "maiz" then ["cogollero", "gusano_elote", "pulgon"]
    else if crop == "papa" then ["polilla_papa", "gorgojo_andes", "mosca_blanca"]
    else if crop == "cebada" then ["pulgon_cereal", "gusano_alambre", "trips"]
    else if crop == "quinua" then ["polilla_quinua", "pulgon", "gusano_cortador"]
    else []
  }

  const DatabasePests: set<string> :=
    {"cogollero", "gusano_elote", "polilla_papa", "pulgon", "gorgojo_andes", "polilla_quinua"}

  /** `pestDatabase[key]`: six of the pests the crops name have an entry. */
  function PestOf(key: string): (p: Option<PestInfo>)
    ensures p.Some? <==> key in DatabasePests
  {
    if key == "cogollero" then
      Some(PestInfo("Gusano Cogollero", "Spodoptera frugiperda", SeverityHigh, ["maiz"],
                    ["Hojas perforadas", "Excremento en el cogollo", "Plantas marchitas"]))
    else if key == "gusano_elote" then
      Some(PestInfo("Gusano del Elote", "Helicoverpa zea", SeverityMedium, ["maiz"],
                    ["Mazorcas dañadas", "Granos perforados", "Presencia de larvas"]))
    else if key == "polilla_papa" then
      Some(PestInfo("Polilla de la Papa", "Phthorimaea operculella", SeverityHigh, ["papa"],
                    ["Tubérculos perforados", "Galerías en hojas", "Pérdida de peso"]))
    else if key == "pulgon" then
      Some(PestInfo("Pulgón", "Aphis spp.", SeverityMedium, ["maiz", "papa", "quinua"],
                    ["Hojas amarillentas", "Melaza pegajosa", "Deformación de brotes"]))
    else if key == "gorgojo_andes" then
      Some(PestInfo("Gorgojo de los Andes", "Premnotrypes spp.", SeverityHigh, ["papa"],
                    ["Tubérculos perforados", "Larvas en tubérculos", "Reducción del rendimiento"]))
    else if key == "polilla_quinua" then
      Some(PestInfo("Polilla de la Quinua", "Eurysacca melanocampta", SeverityMedium, ["quinua"],
                    ["Panojas dañadas", "Granos perforados", "Telas de araña"]))
    else None
  }

  /** The three pests with treatments, preventive measures and seasonal factors. */
  const TreatedPests: set<string> := {"cogollero", "polilla_papa", "pulgon"}

  const Seasons: set<string> := {"verano", "invierno", "primavera", "otono"}

  /** `seasonalFactors[season]?.[key]`. */
  function SeasonalFactor(season: string, key: string): (f: Option<real>)
    ensures f.Some? <==> season in Seasons && key in TreatedPests
    ensures f.Some? ==> 0.3 <= f.value <= 0.8
  {
    if key !in TreatedPests then None
    else if season == "verano" then Some(if key == "cogollero" then 0.8 else if key == "polilla_papa" then 0.6 else 0.7)
    else if season == "invierno" then Some(if key == "cogollero" then 0.3 else if key == "polilla_papa" then 0.8 else 0.4)
    else if season == "primavera" then Some(if key == "cogollero" then 0.6 else if key == "polilla_papa" then 0.5 else 0.8)
    else if season == "otono" then Some(if key == "cogollero" then 0.5 else if key == "polilla_papa" then 0.7 else 0.6)
    else None
  }

  /** The seasonal factor, or 0.5 for an unlisted season or pest (no listed factor is 0, so `||` never replaces one). */
  function BaseProbability(season: string, key: string): (b: real)
    ensures SeasonalFactor(season, key).Some? ==> b == SeasonalFactor(season, key).value
    ensures SeasonalFactor(season, key).None? ==> b == 0.5
  {
    match SeasonalFactor(season, key)
    case Some(f) => if f != 0.0 then f else 0.5
    case None => 0.5
  }

  /** `Math.max(0, Math.min(1, x))`. */
  function Clamp01(x: real): (r: real)
    ensures 0.0 <= r <= 1.0
    ensures 0.0 <= x <= 1.0 ==> r == x
    ensures x < 0.0 ==> r == 0.0
    ensures x > 1.0 ==> r == 1.0
  {
    if x < 0.0 then 0.0 else if x > 1.0 then 1.0 else x
  }

  /** `generatePestProbability`, with `noise` standing for `(Math.random() - 0.5) * 0.3`. */
  function Probability(key: string, season: string, noise: real): (p: real)
    ensures 0.0 <= p <= 1.0
  {
    Clamp01(BaseProbability(season, key) + noise)
  }

  /** A variation in the range `Math.random()` gives never reaches the clamp. */
  lemma ClampNeverBinds(key: string, season: string, noise: real)
    requires -0.15 <= noise < 0.15
    ensures Probability(key, season, noise) == BaseProbability(season, key) + noise
    ensures 0.15 <= Probability(key, season, noise) < 0.95
  {
  }

  datatype RiskLevel = RiskHigh | RiskMedium | RiskLow

  /** The alert's risk band. */
  function RiskLevelOf(p: real): (r: RiskLevel)
    ensures r == RiskHigh <==> p > 0.7
    ensures r == RiskMedium <==> 0.5 < p <= 0.7
    ensures r == RiskLow <==> p <= 0.5
  {
    if p > 0.7 then RiskHigh else if p > 0.5 then RiskMedium else RiskLow
  }

  /** `treatmentDatabase.organic[key] || []`. */
  function OrganicTreatment(key: string): (t: seq<string>)
    ensures key in TreatedPests <==> |t| == 4
    ensures key !in TreatedPests ==> t == []
  {
    if key == "cogollero" then
      ["Bacillus thuringiensis (Bt)", "Neem (Azadirachta indica)", "Trichogramma (control biológico)", "Rotación de cultivos"]
    else if key == "polilla_papa" then
      ["Feromonas para trampeo", "Beauveria bassiana", "Almacenamiento hermético", "Limpieza de tubérculos"]
    else if key == "pulgon" then
      ["Jabón potásico", "Aceite de neem", "Coccinélidos (mariquitas)", "Pulgones parasitados"]
    else []
  }

  /** `treatmentDatabase.chemical[key] || []`. */
  function ChemicalTreatment(key: string): (t: seq<string>)
    ensures key in TreatedPests <==> |t| == 4
    ensures key !in TreatedPests ==> t == []
  {
    if key == "cogollero" then
      ["Clorantraniliprole", "Espinosad", "Flubendiamida", "Alternancia de productos"]
    else if key == "polilla_papa" then
      ["Piretroides", "Ciromazina", "Imidacloprid", "Fumigación de almacenes"]
    else if key == "pulgon" then
      ["Imidacloprid", "Tiametoxam", "Pirimicarb", "Aplicación foliar"]
    else []
  }

  /** `generatePreventiveMeasures`. */
  function PreventiveMeasures(key: string): (m: seq<string>)
    ensures key in TreatedPests <==> |m| == 4
    ensures key !in TreatedPests ==> m == []
  {
    if key == "cogollero" then
      ["Monitoreo semanal de trampas de feromonas", "Eliminación de malezas hospederas",
       "Siembra escalonada para romper ciclo", "Mantener cultivos libres de rastrojos"]
    else if key == "polilla_papa" then
      ["Aporque alto para proteger tubérculos", "Cosecha oportuna",
       "Selección de semilla certificada", "Almacenamiento en lugares frescos"]
    else if key == "pulgon" then
      ["Plantas repelentes en bordes", "Control de hormigas", "Riego por aspersión",
       "Eliminación de plantas enfermas"]
    else []
  }

  const DefaultTiming := "Monitoreo continuo recomendado"

  /** `generateOptimalTiming`: only summer and winter have advice for the treated pests. */
  function OptimalTiming(key: string, season: string): (t: string)
    ensures !(key in TreatedPests && season in {"verano", "invierno"}) ==> t == DefaultTiming
  {
    if key == "cogollero" && season == "verano" then "Aplicar control entre 15-30 días después de siembra"
    else if key == "cogollero" && season == "invierno" then "Monitoreo intensivo durante emergencia"
    else if key == "polilla_papa" && season == "verano" then "Control antes de floración y después de cosecha"
    else if key == "polilla_papa" && season == "invierno" then "Fumigación de almacenes cada 2 meses"
    else if key == "pulgon" && season == "verano" then "Control preventivo al inicio de brotación"
    else if key == "pulgon" && season == "invierno" then "Aplicaciones cada 15 días si hay presencia"
    else DefaultTiming
  }

  // ---------------------------------------------------------------------------
  // Predictions

  datatype Alert = Alert(id: string, pest: string, scientificName: string, probability: real,
                         severity: Severity, riskLevel: RiskLevel, symptoms: seq<string>,
                         affectedCrops: seq<string>)

  datatype Recommendation = Recommendation(pestId: string, pestName: string, organic: seq<string>,
                                           chemical: seq<string>, preventive: seq<string>, timing: string)

  /** A pest is reported when it is in the database and more likely than 0.3. */
  predicate Raises(key: string, season: string, noise: string -> real)
  {
    PestOf(key).Some? && Probability(key, season, noise(key)) > 0.3
  }

  function AlertFor(key: string, season: string, noise: string -> real): (a: Alert)
    requires PestOf(key).Some?
    ensures a.id == key && a.probability == Probability(key, season, noise(key))
    ensures a.pest == PestOf(key).value.name && a.riskLevel == RiskLevelOf(a.probability)
  {
    var pest := PestOf(key).value;
    var p := Probability(key, season, noise(key));
    Alert(key, pest.name, pest.scientificName, p, pest.severity, RiskLevelOf(p), pest.symptoms, pest.affectedCrops)
  }

  function RecommendationFor(key: string, season: string): (r: Recommendation)
    requires PestOf(key).Some?
    ensures r.pestId == key && r.pestName == PestOf(key).value.name
    ensures r.organic == OrganicTreatment(key) && r.chemical == ChemicalTreatment(key)
    ensures r.preventive == PreventiveMeasures(key) && r.timing == OptimalTiming(key, season)
  {
    Recommendation(key, PestOf(key).value.name, OrganicTreatment(key), ChemicalTreatment(key),
                   PreventiveMeasures(key), OptimalTiming(key, season))
  }

  /** The alerts for `pests`, in their order. */
  function Alerts(pests: seq<string>, season: string, noise: string -> real): seq<Alert>
    decreases |pests|
  {
    if pests == [] then []
    else
      var last := pests[|pests| - 1];
      Alerts(pests[..|pests| - 1], season, noise)
        + (if Raises(last, season, noise) then [AlertFor(last, season, noise)] else [])
  }

  /** The recommendations for `pests`, in their order. */
  function Recommendations(pests: seq<string>, season: string, noise: string -> real): seq<Recommendation>
    decreases |pests|
  {
    if pests == [] then []
    else
      var last := pests[|pests| - 1];
      Recommendations(pests[..|pests| - 1], season, noise)
        + (if Raises(last, season, noise) then [RecommendationFor(last, season)] else [])
  }

  /** The two lists pair up: one recommendation per alert, for the same pest at the same position. */
  lemma {:induction false} AlertsPairWithRecommendations(pests: seq<string>, season: string, noise: string -> real)
    ensures |Alerts(pests, season, noise)| == |Recommendations(pests, season, noise)| <= |pests|
    ensures forall i :: 0 <= i < |Alerts(pests, season, noise)| ==>
      && Alerts(pests, season, noise)[i].id == Recommendations(pests, season, noise)[i].pestId
      && Alerts(pests, season, noise)[i].pest == Recommendations(pests, season, noise)[i].pestName
    decreases |pests|
  {
    if pests != [] {
      AlertsPairWithRecommendations(pests[..|pests| - 1], season, noise);
    }
  }

  /** Every alert is a database pest above the threshold, described by its entry. */
  lemma {:induction false} AlertsAreRaised(pests: seq<string>, season: string, noise: string -> real)
    ensures forall i :: 0 <= i < |Alerts(pests, season, noise)| ==>
      && Alerts(pests, season, noise)[i].id in pests
      && Raises(Alerts(pests, season, noise)[i].id, season, noise)
      && Alerts(pests, season, noise)[i] == AlertFor(Alerts(pests, season, noise)[i].id, season, noise)
    decreases |pests|
  {
    if pests != [] {
      var init := pests[..|pests| - 1];
      AlertsAreRaised(init, season, noise);
      forall i | 0 <= i < |Alerts(init, season, noise)|
        ensures Alerts(init, season, noise)[i].id in pests
      {
        assert Alerts(init, season, noise)[i].id in init;
      }
    }
  }

  /** A listed pest that is likely enough gets an alert, whatever comes before or after it. */
  lemma {:induction false} RaisedPestsAlerted(pests: seq<string>, season: string, noise: string -> real, key: string)
    requires key in pests && Raises(key, season, noise)
    ensures exists i :: 0 <= i < |Alerts(pests, season, noise)| && Alerts(pests, season, noise)[i].id == key
    decreases |pests|
  {
    var init := pests[..|pests| - 1];
    var a := Alerts(pests, season, noise);
    if pests[|pests| - 1] == key {
      assert a[|a| - 1].id == key;
    } else {
      assert key in init by {
        var j :| 0 <= j < |pests| && pests[j] == key;
        assert init[j] == key;
      }
      RaisedPestsAlerted(init, season, noise, key);
      var i :| 0 <= i < |Alerts(init, season, noise)| && Alerts(init, season, noise)[i].id == key;
      assert a[i] == Alerts(init, season, noise)[i];
    }
  }

  /** Predicting two lists of pests in turn is predicting their concatenation: the order is kept. */
  lemma {:induction false} AlertsConcat(front: seq<string>, back: seq<string>, season: string, noise: string -> real)
    ensures Alerts(front + back, season, noise) == Alerts(front, season, noise) + Alerts(back, season, noise)
    ensures Recommendations(front + back, season, noise)
      == Recommendations(front, season, noise) + Recommendations(back, season, noise)
    decreases |back|
  {
    if back == [] {
      assert front + back == front;
    } else {
      var init := back[..|back| - 1];
      assert (front + back)[..|front + back| - 1] == front + init;
      assert (front + back)[|front + back| - 1] == back[|back| - 1];
      AlertsConcat(front, init, season, noise);
    }
  }

  /** An unknown crop has no pests, hence no alerts. */
  lemma UnknownCropQuiet(crop: string, season: string, noise: string -> real)
    requires crop !in Crops
    ensures Alerts(CommonPests(crop), season, noise) == []
    ensures Recommendations(CommonPests(crop), season, noise) == []
  {
  }

  /** Pests without a database entry raise nothing. */
  lemma {:induction false} UnknownPestsQuiet(pests: seq<string>, season: string, noise: string -> real)
    requires forall i :: 0 <= i < |pests| ==> PestOf(pests[i]).None?
    ensures Alerts(pests, season, noise) == [] && Recommendations(pests, season, noise) == []
    decreases |pests|
  {
    if pests != [] {
      var init := pests[..|pests| - 1];
      assert forall i :: 0 <= i < |init| ==> init[i] == pests[i];
      UnknownPestsQuiet(init, season, noise);
    }
  }

  /** None of barley's pests has a database entry, so barley never raises an alert. */
  lemma BarleyNeverAlerted(season: string, noise: string -> real)
    ensures Alerts(CommonPests("cebada"), season, noise) == []
    ensures Recommendations(CommonPests("cebada"), season, noise) == []
  {
    var pests := CommonPests("cebada");
    assert PestOf(pests[0]).None? && PestOf(pests[1]).None? && PestOf(pests[2]).None?;
    UnknownPestsQuiet(pests, season, noise);
  }

  /** `generatePestPredictions`: one pass over the crop's pests, pushing an alert and a recommendation for each likely one. */
  method GeneratePestPredictions(crop: string, season: string, noise: string -> real)
    returns (alerts: seq<Alert>, recommendations: seq<Recommendation>)
    ensures alerts == Alerts(CommonPests(crop), season, noise)
    ensures recommendations == Recommendations(CommonPests(crop), season, noise)
  {
    var cropPests := CommonPests(crop);
    alerts := [];
    recommendations := [];
    var i := 0;
    while i < |cropPests|
      invariant 0 <= i <= |cropPests|
      invariant alerts == Alerts(cropPests[..i], season, noise)
      invariant recommendations == Recommendations(cropPests[..i], season, noise)
    {
      var pestKey := cropPests[i];
      assert cropPests[..i + 1][..i] == cropPests[..i];
      var pest := PestOf(pestKey);
      if pest.Some? {
        var probability := Probability(pestKey, season, noise(pestKey));
        if probability > 0.3 {
          alerts := alerts + [AlertFor(pestKey, season, noise)];
          recommendations := recommendations + [RecommendationFor(pestKey, season)];
        }
      }
      i := i + 1;
    }
    assert cropPests[..i] == cropPests;
  }

  // ---------------------------------------------------------------------------
  // The page

  /** The `pestData` entry of the local storage. */
  datatype Cached = Cached(alerts: seq<Alert>, recommendations: seq<Recommendation>,
                           crop: string, season: string, timestamp: int)

  class Page {
    var selectedCrop: string
    var selectedSeason: string
    var pestAlerts: seq<Alert>
    var recommendations: seq<Recommendation>
    var lastUpdate: Option<int>
    var loading: bool
    var cache: Option<Cached>

    constructor(stored: Option<Cached>)
      ensures selectedCrop == "maiz" && selectedSeason == "verano"
      ensures pestAlerts == [] && recommendations == [] && lastUpdate == None && !loading && cache == stored
    {
      selectedCrop := "maiz";
      selectedSeason := "verano";
      pestAlerts := [];
      recommendations := [];
      lastUpdate := None;
      loading := false;
      cache := stored;
    }

    /** `handleCropChange`; the effect that follows is a call of `LoadPestData`. */
    method HandleCropChange(value: string)
      modifies this
      ensures selectedCrop == value && selectedSeason == old(selectedSeason)
      ensures pestAlerts == old(pestAlerts) && recommendations == old(recommendations)
      ensures lastUpdate == old(lastUpdate) && loading == old(loading) && cache == old(cache)
    {
      selectedCrop := value;
    }

    /** `handleSeasonChange`; the effect that follows is a call of `LoadPestData`. */
    method HandleSeasonChange(value: string)
      modifies this
      ensures selectedSeason == value && selectedCrop == old(selectedCrop)
      ensures pestAlerts == old(pestAlerts) && recommendations == old(recommendations)
      ensures lastUpdate == old(lastUpdate) && loading == old(loading) && cache == old(cache)
    {
      selectedSeason := value;
    }

    /**
     * `loadPestData`: online, a fresh prediction is shown and stored; offline,
     * the stored prediction is shown whatever crop and season it was made
     * for, and only without one is a fresh prediction made.
     */
    method LoadPestData(isOnline: bool, now: int, noise: string -> real)
      modifies this
      ensures selectedCrop == old(selectedCrop) && selectedSeason == old(selectedSeason) && !loading
      ensures (isOnline ==>
                 && pestAlerts == Alerts(CommonPests(selectedCrop), selectedSeason, noise)
                 && recommendations == Recommendations(CommonPests(selectedCrop), selectedSeason, noise)
                 && lastUpdate == Some(now)
                 && cache == Some(Cached(pestAlerts, recommendations, selectedCrop, selectedSeason, now)))
      ensures (!isOnline && old(cache).Some? ==>
                 && pestAlerts == old(cache).value.alerts
                 && recommendations == old(cache).value.recommendations
                 && lastUpdate == Some(old(cache).value.timestamp) && cache == old(cache))
      ensures (!isOnline && old(cache).None? ==>
                 && pestAlerts == Alerts(CommonPests(selectedCrop), selectedSeason, noise)
                 && recommendations == Recommendations(CommonPests(selectedCrop), selectedSeason, noise)
                 && lastUpdate == old(lastUpdate) && cache == None)
    {
      loading := true;
      if isOnline {
        var alerts, recs := GeneratePestPredictions(selectedCrop, selectedSeason, noise);
        pestAlerts := alerts;
        recommendations := recs;
        lastUpdate := Some(now);
        cache := Some(Cached(alerts, recs, selectedCrop, selectedSeason, now));
      } else if cache.Some? {
        pestAlerts := cache.value.alerts;
        recommendations := cache.value.recommendations;
        lastUpdate := Some(cache.value.timestamp);
      } else {
        var alerts, recs := GeneratePestPredictions(selectedCrop, selectedSeason, noise);
        pestAlerts := alerts;
        recommendations := recs;
      }
      loading := false;
    }
  }
}
