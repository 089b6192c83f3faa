/**
 * The pest routes: risk assessment for a crop, identification by symptoms,
 * treatment options with method and budget filters, and the helpers behind
 * them. The pest and treatment tables are constants in key order.
 */
module PestRoutes {
  import opened Common

  datatype Season = Lluviosa | Seca | TodoElAno
  datatype Severity = SevMedium | SevHigh | SevCritical

  /** One entry of the pest table, with its key, e.g. `gusano_cogollero`. */
  datatype PestInfo = PestInfo(key: string, name: string, severity: Severity, affectedCrops: seq<string>,
                               symptoms: seq<string>, tempMin: real, tempMax: real,
                               humMin: real, humMax: real, season: Season)

  const GusanoCogollero := PestInfo("gusano_cogollero", "Gusano Cogollero", SevHigh, ["maiz", "arroz", "sorgo"],
    ["Perforaciones en hojas jóvenes", "Presencia de excremento en cogollos", "Plantas con crecimiento retardado"],
    20.0, 30.0, 0.6, 0.9, Lluviosa)
  const PolillaPapa := PestInfo("polilla_papa", "Polilla de la Papa", SevCritical, ["papa", "tomate"],
    ["Galerías en tubérculos", "Perforaciones en tallos", "Presencia de larvas en almacén"],
    15.0, 25.0, 0.5, 0.8, Seca)
  const PulgonVerde := PestInfo("pulgon_verde", "Pulgón Verde", SevMedium, ["papa", "tomate", "aji", "cebada"],
    ["Hojas amarillentas y enrolladas", "Melaza pegajosa en plantas", "Transmisión de virus"],
    18.0, 25.0, 0.4, 0.7, TodoElAno)
  const Trips := PestInfo("trips", "Trips", SevMedium, ["cebolla", "ajo", "papa"],
    ["Manchas plateadas en hojas", "Deformación de hojas", "Reducción del crecimiento"],
    20.0, 28.0, 0.3, 0.6, Seca)

  const PestTable: seq<PestInfo> := [GusanoCogollero, PolillaPapa, PulgonVerde, Trips]

  /** `PEST_DATA.pests[key]`. */
  function LookupPest(table: seq<PestInfo>, key: string): (r: Option<PestInfo>)
    ensures r.Some? ==> r.value in table && r.value.key == key
    ensures r.None? <==> forall i :: 0 <= i < |table| ==> table[i].key != key
  {
    if table == [] then None
    else if table[0].key == key then Some(table[0])
    else LookupPest(table[1..], key)
  }

  // ---------------------------------------------------------------------------
  // POST /assess

  datatype RiskLevel = Bajo | Medio | Alto

  /** `temperature >= min && temperature <= max`; an absent reading compares false. */
  predicate InRange(v: Option<real>, lo: real, hi: real)
  {
    v.Some? && lo <= v.value <= hi
  }

  predicate RegionFavours(region: string, season: Season)
  {
    (region == "costa" && season == Seca) || (region == "selva" && season == Lluviosa)
  }

  /** The accumulated probability, capped at 0.95. */
  function Score(p: PestInfo, region: string, temp: Option<real>, hum: Option<real>, previous: bool): (r: real)
    ensures 0.3 <= r <= 0.95
    ensures InRange(temp, p.tempMin, p.tempMax) && InRange(hum, p.humMin, p.humMax) && previous ==> r == 0.95
    ensures (!InRange(temp, p.tempMin, p.tempMax) && !InRange(hum, p.humMin, p.humMax) && !previous
             && !RegionFavours(region, p.season)) ==> r == 0.3
    ensures InRange(temp, p.tempMin, p.tempMax) ==> r >= 0.6
    ensures !InRange(temp, p.tempMin, p.tempMax) ==> r <= 0.75
  {
    var t := if InRange(temp, p.tempMin, p.tempMax) then 0.3 else 0.0;
    var h := if InRange(hum, p.humMin, p.humMax) then 0.2 else 0.0;
    var v := if previous then 0.15 else 0.0;
    var g := if RegionFavours(region, p.season) then 0.1 else 0.0;
    var raw := 0.3 + t + h + v + g;
    if raw < 0.95 then raw else 0.95
  }

  /** The level on the unrounded probability. */
  function Level(p: real): (l: RiskLevel)
    ensures l == Alto <==> p > 0.7
    ensures l == Medio <==> 0.4 < p <= 0.7
    ensures l == Bajo <==> p <= 0.4
  {
    if p > 0.7 then Alto else if p > 0.4 then Medio else Bajo
  }

  datatype AssessedPest = AssessedPest(key: string, name: string, probability: int, riskLevel: RiskLevel)

  function AssessOne(p: PestInfo, region: string, temp: Option<real>, hum: Option<real>, previous: bool): (a: AssessedPest)
    ensures a.key == p.key && a.name == p.name
    ensures 30 <= a.probability <= 95
    ensures a.riskLevel == Level(Score(p, region, temp, hum, previous))
  {
    var s := Score(p, region, temp, hum, previous);
    AssessedPest(p.key, p.name, Round(s * 100.0), Level(s))
  }

  /** The table filtered to the pests that affect `crop`, each assessed. */
  function AssessAll(table: seq<PestInfo>, crop: string, region: string, temp: Option<real>, hum: Option<real>,
                     previous: bool): (r: seq<AssessedPest>)
    ensures |r| <= |table|
    ensures forall a :: a in r ==> exists p :: p in table && crop in p.affectedCrops
                                               && a == AssessOne(p, region, temp, hum, previous)
  {
    if table == [] then []
    else
      var rest := AssessAll(table[1..], crop, region, temp, hum, previous);
      if crop in table[0].affectedCrops then [AssessOne(table[0], region, temp, hum, previous)] + rest else rest
  }

  /** Every pest that affects the crop is assessed. */
  lemma {:induction false} AffectedPestsAreAssessed(table: seq<PestInfo>, crop: string, region: string,
                                                  temp: Option<real>, hum: Option<real>, previous: bool)
    ensures forall p :: p in table && crop in p.affectedCrops ==>
      AssessOne(p, region, temp, hum, previous) in AssessAll(table, crop, region, temp, hum, previous)
  {
    if table != [] {
      AffectedPestsAreAssessed(table[1..], crop, region, temp, hum, previous);
      assert forall p :: p in table ==> p == table[0] || p in table[1..];
    }
  }

  function ProbabilityOf(a: AssessedPest): int { a.probability }

  /** `getOverallAlertLevel`: the highest level present. */
  function OverallAlertLevel(s: seq<AssessedPest>): (l: RiskLevel)
    ensures l == Alto <==> exists i :: 0 <= i < |s| && s[i].riskLevel == Alto
    ensures l == Medio <==> (forall i :: 0 <= i < |s| ==> s[i].riskLevel != Alto)
                            && exists i :: 0 <= i < |s| && s[i].riskLevel == Medio
    ensures l == Bajo <==> forall i :: 0 <= i < |s| ==> s[i].riskLevel == Bajo
  {
    if exists i :: 0 <= i < |s| && s[i].riskLevel == Alto then Alto
    else if exists i :: 0 <= i < |s| && s[i].riskLevel == Medio then Medio
    else Bajo
  }

  /** The names of the high-risk pests, in order. */
  function HighRiskNames(s: seq<AssessedPest>): (r: seq<string>)
    ensures |r| <= |s|
    ensures r == [] <==> forall i :: 0 <= i < |s| ==> s[i].riskLevel != Alto
  {
    if s == [] then []
    else (if s[0].riskLevel == Alto then [s[0].name] else []) + HighRiskNames(s[1..])
  }

  datatype Recommendation = Urgent(pestNames: seq<string>) | Preventive

  /** `generatePestRecommendations`: an urgent entry naming the high-risk pests when there are any, then the preventive one. */
  function PestRecommendations(s: seq<AssessedPest>): (r: seq<Recommendation>)
    ensures 1 <= |r| <= 2 && r[|r| - 1] == Preventive
    ensures r[0].Urgent? <==> exists i :: 0 <= i < |s| && s[i].riskLevel == Alto
    ensures r[0].Urgent? ==> r[0].pestNames == HighRiskNames(s)
  {
    var names := HighRiskNames(s);
    if names != [] then [Urgent(names), Preventive] else [Preventive]
  }

  /** The urgent entry and the overall level agree. */
  lemma UrgentIffOverallAlto(s: seq<AssessedPest>)
    ensures PestRecommendations(s)[0].Urgent? <==> OverallAlertLevel(s) == Alto
  {
  }

  datatype AssessBody = AssessBody(cropType: Option<string>, region: Option<string>, temperature: Option<real>,
                                   humidity: Option<real>, previousInfestation: bool)

  datatype AssessReply =
    | AssessRejected
    | Assessment(cropType: string, region: string, pests: seq<AssessedPest>,
                 recommendations: seq<Recommendation>, alertLevel: RiskLevel)

  /** `POST /assess`; the region defaults to `sierra`. */
  function Assess(b: AssessBody): (r: AssessReply)
    ensures r.AssessRejected? <==> !Truthy(b.cropType)
    ensures r.Assessment? ==> r.region == (if b.region.Some? then b.region.value else "sierra")
    ensures r.Assessment? ==> SortedDesc(r.pests, ProbabilityOf)
    ensures r.Assessment? ==>
      multiset(r.pests) == multiset(AssessAll(PestTable, b.cropType.value, r.region, b.temperature, b.humidity,
                                              b.previousInfestation))
    ensures r.Assessment? ==> r.alertLevel == OverallAlertLevel(r.pests)
    ensures r.Assessment? ==> r.recommendations == PestRecommendations(r.pests)
  {
    if !Truthy(b.cropType) then AssessRejected
    else
      var region := if b.region.Some? then b.region.value else "sierra";
      var found := AssessAll(PestTable, b.cropType.value, region, b.temperature, b.humidity, b.previousInfestation);
      var sorted := SortDesc(found, ProbabilityOf);
      Assessment(b.cropType.value, region, sorted, PestRecommendations(sorted), OverallAlertLevel(sorted))
  }

  // ---------------------------------------------------------------------------
  // POST /identify

  /** The case-insensitive substring test in either direction. */
  predicate Related(query: string, pestSymptom: string)
  {
    Search(ToLower(pestSymptom), ToLower(query)) || Search(ToLower(query), ToLower(pestSymptom))
  }

  predicate RelatedToAny(query: string, pestSymptoms: seq<string>)
  {
    exists j :: 0 <= j < |pestSymptoms| && Related(query, pestSymptoms[j])
  }

  /** `symptoms.filter(...)`: the query symptoms related to some pest symptom, in query order. */
  function MatchedSymptoms(query: seq<string>, pestSymptoms: seq<string>): (r: seq<string>)
    ensures |r| <= |query|
    ensures forall q :: q in r <==> q in query && RelatedToAny(q, pestSymptoms)
  {
    if query == [] then []
    else
      var rest := MatchedSymptoms(query[1..], pestSymptoms);
      assert forall q :: q in query <==> q == query[0] || q in query[1..];
      (if RelatedToAny(query[0], pestSymptoms) then [query[0]] else []) + rest
  }

  /** `Math.round(matched / Math.max(queried, known) * 100)`. */
  function Confidence(matched: nat, queried: nat, known: nat): (c: int)
    requires 0 < matched <= queried
    ensures 0 <= c <= 100
    ensures matched == queried && known <= queried ==> c == 100
  {
    var m := if queried >= known then queried else known;
    var ratio := (matched as real) / (m as real);
    FractionAtMostOne(matched as real, m as real);
    Round(ratio * 100.0)
  }

  datatype PestMatch = PestMatch(key: string, name: string, confidence: int, matchedSymptoms: seq<string>)

  function ConfidenceOf(m: PestMatch): int { m.confidence }

  /** The pests a crop filter lets through. */
  predicate CropAllows(cropType: Option<string>, p: PestInfo)
  {
    !Truthy(cropType) || cropType.value in p.affectedCrops
  }

  /** The match the `forEach` pushes for one pest, if any. */
  function MatchOf(p: PestInfo, query: seq<string>, cropType: Option<string>): (r: Option<PestMatch>)
    requires |query| > 0
    ensures r.Some? <==> CropAllows(cropType, p) && exists q :: q in query && RelatedToAny(q, p.symptoms)
    ensures r.Some? ==> r.value.key == p.key && |r.value.matchedSymptoms| > 0 && 0 <= r.value.confidence <= 100
  {
    if !CropAllows(cropType, p) then None
    else
      var matched := MatchedSymptoms(query, p.symptoms);
      if |matched| == 0 then
        assert forall q :: q in query ==> !RelatedToAny(q, p.symptoms);
        None
      else
        assert matched[0] in matched;
        Some(PestMatch(p.key, p.name, Confidence(|matched|, |query|, |p.symptoms|), matched))
  }

  /** The matches collected over a prefix of the table, in table order. */
  function Matches(table: seq<PestInfo>, query: seq<string>, cropType: Option<string>): (r: seq<PestMatch>)
    requires |query| > 0
    ensures |r| <= |table|
  {
    if table == [] then []
    else
      var last := MatchOf(table[|table| - 1], query, cropType);
      Matches(table[..|table| - 1], query, cropType) + (if last.Some? then [last.value] else [])
  }

  /** A pest appears among the matches exactly when `MatchOf` yields one for it (pest keys are distinct in the table). */
  lemma {:induction false} MatchesAreMatchOf(table: seq<PestInfo>, query: seq<string>, cropType: Option<string>)
    requires |query| > 0
    ensures forall m :: m in Matches(table, query, cropType) ==>
      exists i :: 0 <= i < |table| && MatchOf(table[i], query, cropType) == Some(m)
    ensures forall i :: 0 <= i < |table| && MatchOf(table[i], query, cropType).Some? ==>
      MatchOf(table[i], query, cropType).value in Matches(table, query, cropType)
  {
    if table != [] {
      var init := table[..|table| - 1];
      MatchesAreMatchOf(init, query, cropType);
      forall i | 0 <= i < |init| ensures init[i] == table[i] { }
    }
  }

  datatype IdentifyReply = IdentifyRejected | Identified(matches: seq<PestMatch>, found: bool)

  /** The `forEach` over the pest table, pushing one match per pest that has one. */
  method CollectMatches(table: seq<PestInfo>, query: seq<string>, cropType: Option<string>)
    returns (matches: seq<PestMatch>)
    requires |query| > 0
    ensures matches == Matches(table, query, cropType)
  {
    matches := [];
    var i := 0;
    while i < |table|
      invariant 0 <= i <= |table|
      invariant matches == Matches(table[..i], query, cropType)
    {
      var m := MatchOf(table[i], query, cropType);
      assert table[..i + 1][..i] == table[..i];
      if m.Some? {
        matches := matches + [m.value];
      }
      i := i + 1;
    }
    assert table[..i] == table;
  }

  /** `POST /identify`: the matches, sorted by confidence, top five. */
  method Identify(symptoms: Option<seq<string>>, cropType: Option<string>) returns (r: IdentifyReply)
    ensures r.IdentifyRejected? <==> symptoms.None? || |symptoms.value| == 0
    ensures r.Identified? ==>
      var all := Matches(PestTable, symptoms.value, cropType);
      r.matches == SortDesc(all, ConfidenceOf)[..if |all| < 5 then |all| else 5]
      && r.found == (|all| > 0)
    ensures r.Identified? ==> |r.matches| <= 5 && SortedDesc(r.matches, ConfidenceOf)
  {
    if symptoms.None? || |symptoms.value| == 0 {
      return IdentifyRejected;
    }
    var matches := CollectMatches(PestTable, symptoms.value, cropType);
    var sorted := SortDesc(matches, ConfidenceOf);
    var top := if |sorted| < 5 then |sorted| else 5;
    r := Identified(sorted[..top], |matches| > 0);
  }

  // ---------------------------------------------------------------------------
  // GET /treatments/:pestId

  datatype Cost = MuyBajo | CostBajo | CostMedio | CostAlto
  datatype Treatment = Treatment(key: string, effectivenessPct: nat, cost: Cost)

  /** The treatment table in key order; effectiveness as a whole percentage. */
  const TreatmentTable: seq<Treatment> :=
    [Treatment("biologico", 75, CostBajo), Treatment("cultural", 60, MuyBajo),
     Treatment("quimico", 90, CostAlto), Treatment("integrado", 85, CostMedio)]

  /** The budget filter: `bajo` keeps the cheap ones, `medio` also the medium one, anything else keeps all. */
  predicate WithinBudget(budget: Option<string>, c: Cost)
  {
    if budget == Some("bajo") then c == CostBajo || c == MuyBajo
    else if budget == Some("medio") then c != CostAlto
    else true
  }

  predicate MethodAllows(methodKey: Option<string>, t: Treatment)
  {
    !Truthy(methodKey) || t.key == methodKey.value
  }

  function FilterTreatments(ts: seq<Treatment>, methodKey: Option<string>, budget: Option<string>): (r: seq<Treatment>)
    ensures |r| <= |ts|
    ensures forall t :: t in r <==> t in ts && MethodAllows(methodKey, t) && WithinBudget(budget, t.cost)
  {
    if ts == [] then []
    else
      var rest := FilterTreatments(ts[1..], methodKey, budget);
      assert forall t :: t in ts <==> t == ts[0] || t in ts[1..];
      (if MethodAllows(methodKey, ts[0]) && WithinBudget(budget, ts[0].cost) then [ts[0]] else []) + rest
  }

  /** The filter keeps the table's order: filtering two runs in turn is filtering their concatenation. */
  lemma {:induction false} FilterTreatmentsConcat(a: seq<Treatment>, b: seq<Treatment>,
                                                  methodKey: Option<string>, budget: Option<string>)
    ensures FilterTreatments(a + b, methodKey, budget)
         == FilterTreatments(a, methodKey, budget) + FilterTreatments(b, methodKey, budget)
  {
    if a == [] {
      assert a + b == b;
    } else {
      assert (a + b)[1..] == a[1..] + b;
      FilterTreatmentsConcat(a[1..], b, methodKey, budget);
    }
  }

  /** The generic methods of each treatment. */
  function TreatmentMethods(key: string): (r: seq<string>)
    ensures |r| == 4
  {
    if key == "biologico" then ["Parasitoides naturales", "Hongos entomopatógenos", "Nematodos beneficiosos", "Feromonas"]
    else if key == "cultural" then ["Rotación de cultivos", "Eliminación de residuos", "Fechas de siembra", "Variedades resistentes"]
    else if key == "quimico" then ["Insecticidas selectivos", "Aplicación dirigida", "Rotación de ingredientes activos", "Monitoreo de resistencia"]
    else ["Combinación de métodos", "Monitoreo constante", "Umbrales económicos", "Toma de decisiones informada"]
  }

  /** The pest-specific combinations; `None` where the table has no entry. */
  function Combination(pestKey: string, treatmentKey: string): (r: Option<seq<string>>)
    ensures r.Some? ==> |r.value| == 2
    ensures r.Some? <==> (pestKey == "gusano_cogollero" || pestKey == "polilla_papa")
                         && (treatmentKey == "biologico" || treatmentKey == "cultural" || treatmentKey == "quimico")
  {
    if pestKey == "gusano_cogollero" then
      if treatmentKey == "biologico" then Some(["Trichogramma pretiosum", "Bt (Bacillus thuringiensis)"])
      else if treatmentKey == "cultural" then Some(["Rotación con leguminosas", "Destrucción de rastrojos"])
      else if treatmentKey == "quimico" then Some(["Emamectina benzoato", "Clorantraniliprol"])
      else None
    else if pestKey == "polilla_papa" then
      if treatmentKey == "biologico" then Some(["Copidosoma koehleri", "Feromonas sexuales"])
      else if treatmentKey == "cultural" then Some(["Aporque alto", "Cosecha oportuna"])
      else if treatmentKey == "quimico" then Some(["Cartap hidrocloruro", "Indoxacarb"])
      else None
    else None
  }

  /** `getSpecificMethods`: the combination when there is one, else the treatment's own methods. */
  function SpecificMethods(pestKey: string, treatmentKey: string): (r: seq<string>)
    ensures Combination(pestKey, treatmentKey).Some? ==> r == Combination(pestKey, treatmentKey).value && |r| == 2
    ensures Combination(pestKey, treatmentKey).None? ==> r == TreatmentMethods(treatmentKey) && |r| == 4
  {
    var c := Combination(pestKey, treatmentKey);
    if c.Some? then c.value else TreatmentMethods(treatmentKey)
  }

  datatype ResultSpeed = ThreeToFiveDays | SevenToTenDays

  /** `getTreatmentTimeline`: the same four phases whatever the pest and the treatment. */
  datatype Timeline = Timeline(preparation: string, application: string, evaluation: string, reapplication: string)

  const TreatmentTimeline := Timeline("1-2 días", "1 día", "7-14 días", "14-21 días si es necesario")
  const ResultDuration := "2-4 semanas"

  datatype DetailedTreatment = DetailedTreatment(treatment: Treatment, specificMethods: seq<string>, timeline: Timeline,
                                                 effectiveness: string, timeToResults: ResultSpeed, duration: string)

  /** The treatment with its specific methods, the fixed timeline and the expected results. */
  function Detail(pest: PestInfo, t: Treatment): (d: DetailedTreatment)
    ensures d.treatment == t && d.specificMethods == SpecificMethods(pest.key, t.key)
    ensures d.timeline == TreatmentTimeline && d.duration == ResultDuration
    ensures d.effectiveness == NatToString(t.effectivenessPct) + "%"
    ensures d.timeToResults == ThreeToFiveDays <==> pest.severity == SevCritical
  {
    DetailedTreatment(t, SpecificMethods(pest.key, t.key), TreatmentTimeline, NatToString(t.effectivenessPct) + "%",
                      if pest.severity == SevCritical then ThreeToFiveDays else SevenToTenDays, ResultDuration)
  }

  function DetailAll(pest: PestInfo, ts: seq<Treatment>): (r: seq<DetailedTreatment>)
    ensures |r| == |ts| && forall i :: 0 <= i < |ts| ==> r[i] == Detail(pest, ts[i])
  {
    seq(|ts|, i requires 0 <= i < |ts| => Detail(pest, ts[i]))
  }

  datatype TreatmentsReply = PestNotFound | TreatmentPlan(pestKey: string, pestName: string, treatments: seq<DetailedTreatment>)

  /** `GET /treatments/:pestId`. */
  function TreatmentsRoute(pestId: string, methodKey: Option<string>, budget: Option<string>): (r: TreatmentsReply)
    ensures r.PestNotFound? <==> LookupPest(PestTable, pestId).None?
    ensures r.TreatmentPlan? ==> r.pestKey == pestId && r.pestName == LookupPest(PestTable, pestId).value.name
    ensures r.TreatmentPlan? ==>
      r.treatments == DetailAll(LookupPest(PestTable, pestId).value, FilterTreatments(TreatmentTable, methodKey, budget))
    ensures r.TreatmentPlan? ==> forall d :: d in r.treatments ==>
      d.treatment in TreatmentTable && MethodAllows(methodKey, d.treatment) && WithinBudget(budget, d.treatment.cost)
    ensures r.TreatmentPlan? ==> forall t :: t in TreatmentTable && MethodAllows(methodKey, t) && WithinBudget(budget, t.cost) ==>
      Detail(LookupPest(PestTable, pestId).value, t) in r.treatments
  {
    var pest := LookupPest(PestTable, pestId);
    if pest.None? then PestNotFound
    else
      var kept := FilterTreatments(TreatmentTable, methodKey, budget);
      var detailed := DetailAll(pest.value, kept);
      assert forall t :: t in kept ==> Detail(pest.value, t) in detailed by {
        forall t | t in kept ensures Detail(pest.value, t) in detailed {
          var i :| 0 <= i < |kept| && kept[i] == t;
          assert detailed[i] == Detail(pest.value, t);
        }
      }
      TreatmentPlan(pestId, pest.value.name, detailed)
  }

  // ---------------------------------------------------------------------------
  // POST /monitoring

  datatype Frequency = Diaria | DosVecesPorSemana | Semanal

  /** `getMonitoringFrequency`. */
  function MonitoringFrequency(cropType: Option<string>, historyLength: nat): (f: Frequency)
    ensures f == Diaria <==> historyLength > 2
    ensures f == DosVecesPorSemana <==> historyLength <= 2 && cropType == Some("papa")
    ensures f == Semanal <==> historyLength <= 2 && cropType != Some("papa")
  {
    if historyLength > 2 then Diaria
    else if cropType == Some("papa") then DosVecesPorSemana
    else Semanal
  }
}
