/**
 * The production routes: crop and variety recommendation, projections and
 * costs, risk lists, and the area split of the crop-mix optimiser.
 */
module ProductionRoutes {
  import opened Common

  datatype Variety = Variety(name: string, kind: string, cycle: nat, yieldKg: real,
                             altMin: real, altMax: real, resistance: seq<string>)
  datatype Planting = Planting(month: string, season: string)

  /** A crop of `PRODUCTION_DATA.crops`; every crop has a `sierra` calendar. */
  datatype Crop = Crop(name: string, scientificName: string, varieties: seq<Variety>,
                       costa: Option<seq<Planting>>, sierra: seq<Planting>, selva: Option<seq<Planting>>)

  function LookupCrop(key: string): (c: Option<Crop>)
    ensures c.Some? ==> |c.value.varieties| >= 2
    ensures c.Some? ==> forall i :: 0 <= i < |c.value.varieties| ==> c.value.varieties[i].yieldKg > 0.0
  {
    if key == "maiz" then
      Some(Crop("Maíz", "Zea mays",
        [Variety("Marginal 28T", "hibrido", 120, 8500.0, 0.0, 3200.0, ["roya", "carbon"]),
         Variety("PM-213", "variedad", 140, 7000.0, 1500.0, 3500.0, ["heladas", "sequia"]),
         Variety("Cusco Gigante", "nativo", 180, 4500.0, 2800.0, 3800.0, ["heladas", "granizo", "plagas"])],
        Some([Planting("marzo", "otoño"), Planting("agosto", "invierno")]),
        [Planting("octubre", "lluvias"), Planting("diciembre", "lluvias")],
        Some([Planting("abril", "lluvias"), Planting("septiembre", "seca")])))
    else if key == "papa" then
      Some(Crop("Papa", "Solanum tuberosum",
        [Variety("Canchán", "comercial", 120, 25000.0, 2500.0, 3500.0, ["rancha", "virus"]),
         Variety("Huayro", "nativa", 150, 18000.0, 3000.0, 4000.0, ["heladas", "sequia", "granizo"]),
         Variety("Única", "comercial", 100, 22000.0, 2000.0, 3200.0, ["virus", "nematodos"])],
        Some([Planting("marzo", "otoño"), Planting("julio", "invierno")]),
        [Planting("septiembre", "lluvias"), Planting("diciembre", "lluvias")],
        Some([Planting("mayo", "seca"), Planting("octubre", "lluvias")])))
    else if key == "cebada" then
      Some(Crop("Cebada", "Hordeum vulgare",
        [Variety("UNA-80", "mejorada", 140, 3500.0, 3200.0, 4200.0, ["heladas", "roya"]),
         Variety("Centenario", "comercial", 120, 4200.0, 2800.0, 3800.0, ["sequia", "vientos"])],
        None, [Planting("noviembre", "lluvias"), Planting("diciembre", "lluvias")], None))
    else None
  }

  // ---------------------------------------------------------------------------
  // Varieties and calendar

  predicate AltitudeFits(v: Variety, altitude: real)
  {
    v.altMin <= altitude <= v.altMax
  }

  /** The variety filter: a truthy altitude keeps the varieties whose range holds it, in order; otherwise all are kept. */
  function SuitableVarieties(vs: seq<Variety>, altitude: Option<real>): (r: seq<Variety>)
    ensures |r| <= |vs|
    ensures altitude.None? || altitude == Some(0.0) ==> r == vs
    ensures altitude.Some? && altitude.value != 0.0 ==>
      forall v :: v in r <==> v in vs && AltitudeFits(v, altitude.value)
  {
    if vs == [] then []
    else
      var rest := SuitableVarieties(vs[1..], altitude);
      if altitude.None? || altitude.value == 0.0 || AltitudeFits(vs[0], altitude.value) then [vs[0]] + rest else rest
  }

  /** The filter keeps the table's order: filtering two runs in turn is filtering their concatenation. */
  lemma {:induction false} SuitableVarietiesConcat(a: seq<Variety>, b: seq<Variety>, altitude: Option<real>)
    ensures SuitableVarieties(a + b, altitude) == SuitableVarieties(a, altitude) + SuitableVarieties(b, altitude)
  {
    if a == [] {
      assert a + b == b;
    } else {
      assert (a + b)[1..] == a[1..] + b;
      SuitableVarietiesConcat(a[1..], b, altitude);
    }
  }

  /** The listed varieties: at most the first three that passed the filter. */
  function ListedVarieties(suitable: seq<Variety>): (r: seq<Variety>)
    ensures |r| <= 3 && r <= suitable
    ensures |suitable| <= 3 ==> r == suitable
  {
    if |suitable| <= 3 then suitable else suitable[..3]
  }

  /** `crop.plantingCalendar[region] || crop.plantingCalendar['sierra']`. */
  function PlantingCalendar(c: Crop, region: string): (r: seq<Planting>)
    ensures region != "costa" && region != "selva" ==> r == c.sierra
    ensures region == "costa" ==> r == if c.costa.Some? then c.costa.value else c.sierra
    ensures region == "selva" ==> r == if c.selva.Some? then c.selva.value else c.sierra
  {
    if region == "costa" && c.costa.Some? then c.costa.value
    else if region == "selva" && c.selva.Some? then c.selva.value
    else c.sierra
  }

  /** Barley has only a highland calendar, so every region gets it. */
  lemma BarleyAlwaysSierra(region: string)
    ensures PlantingCalendar(LookupCrop("cebada").value, region) == LookupCrop("cebada").value.sierra
  {
  }

  /** `assessVarietySuitability`: high with more than two resistances. */
  datatype Suitability = Alta | Media

  function VarietySuitability(v: Variety): (s: Suitability)
    ensures s == Alta <==> |v.resistance| > 2
  {
    if |v.resistance| > 2 then Alta else Media
  }

  // ---------------------------------------------------------------------------
  // Projections

  function Yields(vs: seq<Variety>): (r: seq<real>)
    ensures |r| == |vs|
    ensures forall i :: 0 <= i < |vs| ==> r[i] == vs[i].yieldKg
  {
    if vs == [] then [] else [vs[0].yieldKg] + Yields(vs[1..])
  }

  /** The mean yield; `None` when there is no variety (`0 / 0` is `NaN`). */
  function MeanYield(vs: seq<Variety>): (m: Option<real>)
    ensures m.Some? <==> |vs| > 0
    ensures m.Some? ==> m.value * (|vs| as real) == Sum(Yields(vs))
  {
    if vs == [] then None else Some(Sum(Yields(vs)) / (|vs| as real))
  }

  /** Both budget multipliers: 1.2/0.8 on the yield, 1.3/0.7 on the costs, 1.0 otherwise. */
  function YieldMultiplier(budget: string): real
  {
    if budget == "alto" then 1.2 else if budget == "bajo" then 0.8 else 1.0
  }

  function CostMultiplier(budget: string): real
  {
    if budget == "alto" then 1.3 else if budget == "bajo" then 0.7 else 1.0
  }

  /** The `prices` table of the projections, with 1.0 for a missing key. */
  function PriceOf(key: string): (p: real)
    ensures p > 0.0
  {
    if key == "maiz" then 1.2 else if key == "papa" then 0.8 else if key == "cebada" then 1.5 else 1.0
  }

  /** The price as the source looks it up: by the lower-cased display name of the crop. */
  function PriceAsWritten(c: Crop): (p: real)
    ensures p == PriceOf(ToLower(c.name))
  {
    PriceOf(ToLower(c.name))
  }

  /** The display name of maize lower-cases to `maíz`, which is not the key `maiz`: its price falls back to 1.0. */
  lemma MaizePriceAsWritten()
    ensures PriceAsWritten(LookupCrop("maiz").value) == 1.0
    ensures PriceOf("maiz") == 1.2
  {
    var lower := ToLower("Maíz");
    assert "Maíz"[2] == 'í' && !IsUpperLetter('í');
    assert lower[2] == 'í';
    assert lower != "maiz" by { assert "maiz"[2] == 'i'; }
    assert lower != "papa" && lower != "cebada";
  }

  /** The price of the other two crops is found either way. */
  lemma OtherPricesAsWritten()
    ensures PriceAsWritten(LookupCrop("papa").value) == PriceOf("papa") == 0.8
    ensures PriceAsWritten(LookupCrop("cebada").value) == PriceOf("cebada") == 1.5
  {
    assert ToLower("Papa") == "papa" by {
      assert LowerChar('P') == 'p';
    }
    assert ToLower("Cebada") == "cebada" by {
      assert LowerChar('C') == 'c';
    }
  }

  datatype Projection = Projection(yieldPerHa: Option<int>, totalProduction: Option<real>,
                                   estimatedRevenue: Option<int>, breakEvenPoint: int, profitMargin: nat)

  /** `calculateProjections` on the varieties kept, with the price given. */
  function ProjectionAt(vs: seq<Variety>, area: real, budget: string, price: real): (p: Projection)
    requires price > 0.0
    ensures p.yieldPerHa.Some? <==> |vs| > 0
    ensures p.totalProduction.Some? <==> |vs| > 0
    ensures p.estimatedRevenue.Some? <==> |vs| > 0
    ensures p.profitMargin == 25
    ensures p.breakEvenPoint == Round(area * 2000.0 / price)
    ensures |vs| > 0 ==> p.yieldPerHa == Some(Round(MeanYield(vs).value * YieldMultiplier(budget)))
  {
    var mean := MeanYield(vs);
    var breakEven := Round(area * 2000.0 / price);
    if mean.None? then Projection(None, None, None, breakEven, 25)
    else
      var projected := mean.value * YieldMultiplier(budget);
      var total := (projected * area) / 1000.0;
      Projection(Some(Round(projected)), Some(Round2(total)), Some(Round(total * 1000.0 * price)), breakEven, 25)
  }

  /** The projections as written: the price looked up by the crop's lower-cased name. */
  function ProjectionsAsWritten(c: Crop, vs: seq<Variety>, area: real, budget: string): (p: Projection)
    ensures p == ProjectionAt(vs, area, budget, PriceOf(ToLower(c.name)))
  {
    ProjectionAt(vs, area, budget, PriceAsWritten(c))
  }

  /** The projections with the price looked up by the crop key, as the table is keyed. */
  function Projections(cropKey: string, vs: seq<Variety>, area: real, budget: string): (p: Projection)
    ensures p == ProjectionAt(vs, area, budget, PriceOf(cropKey))
  {
    ProjectionAt(vs, area, budget, PriceOf(cropKey))
  }

  /** With the key, maize's break-even point uses its own price of 1.2 per kilogram. */
  lemma MaizeBreakEven(area: real)
    ensures Projections("maiz", [], area, "medio").breakEvenPoint == Round(area * 2000.0 / 1.2)
    ensures ProjectionsAsWritten(LookupCrop("maiz").value, [], area, "medio").breakEvenPoint == Round(area * 2000.0)
  {
    MaizePriceAsWritten();
  }

  // ---------------------------------------------------------------------------
  // Costs

  datatype CostItems = CostItems(semilla: real, fertilizantes: real, pesticidas: real, labor: real)

  /** `baseCosts[cropType] || baseCosts['maiz']`. */
  function BaseCosts(cropType: string): (c: CostItems)
    ensures cropType != "papa" && cropType != "cebada" ==> c == CostItems(800.0, 1200.0, 600.0, 1500.0)
  {
    if cropType == "papa" then CostItems(3000.0, 2000.0, 800.0, 2500.0)
    else if cropType == "cebada" then CostItems(600.0, 800.0, 400.0, 1200.0)
    else CostItems(800.0, 1200.0, 600.0, 1500.0)
  }

  function ItemTotal(c: CostItems): real
  {
    c.semilla + c.fertilizantes + c.pesticidas + c.labor
  }

  datatype CostAnalysis = CostAnalysis(perHa: int, total: int, semilla: int, fertilizantes: int,
                                       pesticidas: int, labor: int)

  /** `calculateCosts`: the four items summed and scaled by the budget. */
  function Costs(cropType: string, area: real, budget: string): (r: CostAnalysis)
    ensures r.perHa == Round(ItemTotal(BaseCosts(cropType)) * CostMultiplier(budget)) && r.perHa >= 2100
    ensures r.total == Round(ItemTotal(BaseCosts(cropType)) * CostMultiplier(budget) * area)
    ensures area == 1.0 ==> r.total == r.perHa
  {
    var c := BaseCosts(cropType);
    var m := CostMultiplier(budget);
    var perHa := ItemTotal(c) * m;
    ScaledItems(c, m);
    CostAnalysis(Round(perHa), Round(perHa * area), Round(c.semilla * m), Round(c.fertilizantes * m),
                 Round(c.pesticidas * m), Round(c.labor * m))
  }

  /** Scaling the four items by a budget multiplier scales their total, which is then at least 2100. */
  lemma ScaledItems(c: CostItems, m: real)
    requires ItemTotal(c) >= 3000.0
    requires m == 0.7 || m == 1.0 || m == 1.3
    ensures ItemTotal(c) * m == c.semilla * m + c.fertilizantes * m + c.pesticidas * m + c.labor * m
    ensures ItemTotal(c) * m >= 2100.0
  {
  }

  /** Four values rounded one by one add up to their rounded sum give or take 2. */
  lemma RoundSum(a: real, b: real, c: real, d: real)
    ensures -2 <= Round(a) + Round(b) + Round(c) + Round(d) - Round(a + b + c + d) <= 2
  {
  }

  /** The rounded breakdown adds up to the rounded cost per hectare, give or take 2. */
  lemma CostBreakdownAddsUp(cropType: string, area: real, budget: string)
    ensures var r := Costs(cropType, area, budget);
      -2 <= r.semilla + r.fertilizantes + r.pesticidas + r.labor - r.perHa <= 2
  {
    var c := BaseCosts(cropType);
    var m := CostMultiplier(budget);
    ScaledItems(c, m);
    RoundSum(c.semilla * m, c.fertilizantes * m, c.pesticidas * m, c.labor * m);
  }

  /** A higher budget never lowers the cost per hectare. */
  lemma CostsGrowWithBudget(cropType: string, area: real)
    ensures Costs(cropType, area, "bajo").perHa <= Costs(cropType, area, "medio").perHa <= Costs(cropType, area, "alto").perHa
  {
    var s := ItemTotal(BaseCosts(cropType));
    assert s > 0.0;
    RoundMonotone(s * 0.7, s * 1.0);
    RoundMonotone(s * 1.0, s * 1.3);
  }

  lemma RoundMonotone(x: real, y: real)
    requires x <= y
    ensures Round(x) <= Round(y)
  {
  }

  // ---------------------------------------------------------------------------
  // Risks and advice

  function RiskList(cropType: string): Option<seq<string>>
  {
    if cropType == "maiz" then Some(["sequía", "gusano cogollero", "roya"])
    else if cropType == "papa" then Some(["rancha", "heladas", "polilla"])
    else if cropType == "cebada" then Some(["roya", "pulgones", "granizo"])
    else None
  }

  datatype RiskSplit = RiskSplit(high: seq<string>, medium: seq<string>, low: seq<string>)

  /** `assessRisks`: the first risk is high, the second medium, the rest low; an unknown crop has none. */
  function AssessRisks(cropType: string): (r: RiskSplit)
    ensures RiskList(cropType).None? ==> r == RiskSplit([], [], [])
    ensures RiskList(cropType).Some? ==> r.high + r.medium + r.low == RiskList(cropType).value
    ensures |r.high| <= 1 && |r.medium| <= 1
    ensures |r.medium| > 0 ==> |r.high| > 0
  {
    match RiskList(cropType)
    case None => RiskSplit([], [], [])
    case Some(list) =>
      assert list[..1] + list[1..2] + list[2..] == list;
      RiskSplit(list[..1], list[1..2], list[2..])
  }

  datatype Advice = Training | BudgetAdvice | General

  /** `generateSpecificRecommendations`, in push order. */
  function SpecificRecommendations(experience: string, budget: string): (r: seq<Advice>)
    ensures Training in r <==> experience == "principiante"
    ensures BudgetAdvice in r <==> budget == "bajo"
    ensures |r| > 0 && r[|r| - 1] == General && General !in r[..|r| - 1]
    ensures Training in r ==> r[0] == Training
  {
    (if experience == "principiante" then [Training] else [])
    + (if budget == "bajo" then [BudgetAdvice] else [])
    + [General]
  }

  /** `getMonthFromWeek`: weeks 1 to 20 fall in months 1 to 5 of four weeks each. */
  function MonthFromWeek(week: int): (r: string)
    ensures 1 <= week <= 20 ==> r == "Mes " + NatToString((week - 1) / 4 + 1)
    ensures !(1 <= week <= 20) ==> r == "Mes 5+"
  {
    // Dafny's division rounds down for a positive divisor, as `Math.floor` does
    var k := (week - 1) / 4;
    if 0 <= k < 5 then "Mes " + NatToString(k + 1) else "Mes 5+"
  }

  /** Weeks in the same block of four share a month, and later blocks get later months. */
  lemma MonthFromWeekOrdered(w1: int, w2: int)
    requires 1 <= w1 <= w2 <= 20
    ensures (w1 - 1) / 4 <= (w2 - 1) / 4
    ensures (w1 - 1) / 4 == (w2 - 1) / 4 ==> MonthFromWeek(w1) == MonthFromWeek(w2)
    ensures (w1 - 1) / 4 != (w2 - 1) / 4 ==> MonthFromWeek(w1) != MonthFromWeek(w2)
  {
    if (w1 - 1) / 4 != (w2 - 1) / 4 {
      var a, b := NatToString((w1 - 1) / 4 + 1), NatToString((w2 - 1) / 4 + 1);
      assert ("Mes " + a)[4..] == a && ("Mes " + b)[4..] == b;
    }
  }

  // ---------------------------------------------------------------------------
  // POST /recommend

  datatype RecommendBody = RecommendBody(cropType: Option<string>, region: Option<string>, area: Option<real>,
                                         altitude: Option<real>, experience: Option<string>, budget: Option<string>)

  datatype Recommendation = Recommendation(cropName: string, region: string, area: real,
                                           suitableVarieties: seq<Variety>, plantingCalendar: seq<Planting>,
                                           projections: Projection, costAnalysis: CostAnalysis,
                                           riskAssessment: RiskSplit, recommendations: seq<Advice>)

  datatype RecommendReply = RecommendRejected(message: string) | Recommended(data: Recommendation)

  const MissingCropOrArea := "Tipo de cultivo y área son requeridos"
  const UnknownCrop := "Tipo de cultivo no válido"

  function OrDefault(o: Option<string>, d: string): string
  {
    if o.Some? then o.value else d
  }

  /** `POST /recommend`: region defaults to `sierra`, experience to `intermedio`, budget to `medio`. */
  function Recommend(b: RecommendBody): (r: RecommendReply)
    ensures !Truthy(b.cropType) || b.area.None? || b.area == Some(0.0) ==> r == RecommendRejected(MissingCropOrArea)
    ensures Truthy(b.cropType) && b.area.Some? && b.area.value != 0.0 && LookupCrop(b.cropType.value).None? ==>
      r == RecommendRejected(UnknownCrop)
    ensures r.Recommended? <==>
      Truthy(b.cropType) && b.area.Some? && b.area.value != 0.0 && LookupCrop(b.cropType.value).Some?
    ensures r.Recommended? ==>
      var crop := LookupCrop(b.cropType.value).value;
      var region := OrDefault(b.region, "sierra");
      var kept := SuitableVarieties(crop.varieties, b.altitude);
      && r.data.cropName == crop.name && r.data.region == region && r.data.area == b.area.value
      && r.data.suitableVarieties == ListedVarieties(kept)
      && r.data.plantingCalendar == PlantingCalendar(crop, region)
      && r.data.projections == Projections(b.cropType.value, kept, b.area.value, OrDefault(b.budget, "medio"))
      && r.data.costAnalysis == Costs(b.cropType.value, b.area.value, OrDefault(b.budget, "medio"))
      && r.data.riskAssessment == AssessRisks(b.cropType.value)
      && r.data.recommendations == SpecificRecommendations(OrDefault(b.experience, "intermedio"), OrDefault(b.budget, "medio"))
  {
    if !Truthy(b.cropType) || b.area.None? || b.area.value == 0.0 then RecommendRejected(MissingCropOrArea)
    else if LookupCrop(b.cropType.value).None? then RecommendRejected(UnknownCrop)
    else
      var key := b.cropType.value;
      var crop := LookupCrop(key).value;
      var region := OrDefault(b.region, "sierra");
      var budget := OrDefault(b.budget, "medio");
      var kept := SuitableVarieties(crop.varieties, b.altitude);
      Recommended(Recommendation(crop.name, region, b.area.value, ListedVarieties(kept), PlantingCalendar(crop, region),
                                 Projections(key, kept, b.area.value, budget), Costs(key, b.area.value, budget),
                                 AssessRisks(key), SpecificRecommendations(OrDefault(b.experience, "intermedio"), budget)))
  }

  /**
   * The price fix matters for maize alone: for the other two crops the
   * projections are those of the source as written, which looks the price up
   * by the crop's lower-cased display name.
   */
  lemma RecommendAsWrittenExceptMaize(b: RecommendBody)
    requires Recommend(b).Recommended? && b.cropType.value != "maiz"
    ensures Recommend(b).data.projections ==
      ProjectionsAsWritten(LookupCrop(b.cropType.value).value, SuitableVarieties(LookupCrop(b.cropType.value).value.varieties, b.altitude),
                           b.area.value, OrDefault(b.budget, "medio"))
  {
    OtherPricesAsWritten();
  }

  // ---------------------------------------------------------------------------
  // POST /optimize

  datatype PlanEntry = PlanEntry(crop: string, name: string, score: real, recommendedArea: real)

  function Keys(plan: seq<PlanEntry>): (ks: seq<string>)
    ensures |ks| == |plan| && forall i :: 0 <= i < |plan| ==> ks[i] == plan[i].crop
  {
    if plan == [] then [] else [plan[0].crop] + Keys(plan[1..])
  }

  /** The first step of `optimizeCropMix`: each known crop with its mean yield as score; unknown crops are dropped. */
  function Candidates(crops: seq<string>): (plan: seq<PlanEntry>)
    ensures |plan| <= |crops|
    ensures forall i :: 0 <= i < |plan| ==>
      LookupCrop(plan[i].crop).Some? && plan[i].name == LookupCrop(plan[i].crop).value.name
      && plan[i].score == MeanYield(LookupCrop(plan[i].crop).value.varieties).value
      && plan[i].score > 0.0 && plan[i].recommendedArea == 0.0
    ensures forall k :: k in Keys(plan) <==> k in crops && LookupCrop(k).Some?
    ensures |plan| > 0 ==> Sum(Scores(plan)) > 0.0
  {
    if crops == [] then []
    else
      var rest := Candidates(crops[1..]);
      var c := LookupCrop(crops[0]);
      if c.None? then rest
      else
        var mean := MeanYield(c.value.varieties).value;
        PositiveMean(c.value.varieties);
        var plan := [PlanEntry(crops[0], c.value.name, mean, 0.0)] + rest;
        assert plan[1..] == rest;
        assert Keys(plan) == [crops[0]] + Keys(rest);
        PositiveSum(Scores(plan));
        plan
  }

  lemma PositiveMean(vs: seq<Variety>)
    requires |vs| > 0 && forall i :: 0 <= i < |vs| ==> vs[i].yieldKg > 0.0
    ensures MeanYield(vs).value > 0.0
  {
    PositiveSum(Yields(vs));
  }

  lemma {:induction false} PositiveSum(s: seq<real>)
    requires |s| > 0 && forall i :: 0 <= i < |s| ==> s[i] > 0.0
    ensures Sum(s) > 0.0
  {
    if |s| > 1 {
      PositiveSum(s[1..]);
    }
  }

  function Scores(plan: seq<PlanEntry>): (s: seq<real>)
    ensures |s| == |plan| && forall i :: 0 <= i < |plan| ==> s[i] == plan[i].score
  {
    if plan == [] then [] else [plan[0].score] + Scores(plan[1..])
  }

  /** `p.score / totalScore * totalArea` before rounding. */
  function Share(score: real, totalScore: real, totalArea: real): real
    requires totalScore != 0.0
  {
    (score / totalScore) * totalArea
  }

  /**
   * `optimizeCropMix`: the `forEach` that sets each entry's recommended area
   * to its share of the total, rounded to two decimals.
   */
  method OptimizeCropMix(totalArea: real, crops: seq<string>) returns (plan: seq<PlanEntry>)
    ensures |plan| == |Candidates(crops)|
    ensures forall i :: 0 <= i < |plan| ==>
      var c := Candidates(crops)[i];
      plan[i] == c.(recommendedArea := Round2(Share(c.score, Sum(Scores(Candidates(crops))), totalArea)))
  {
    plan := Candidates(crops);
    if plan == [] {
      return;
    }
    ghost var original := plan;
    var totalScore := Sum(Scores(plan));
    PositiveSum(Scores(plan));
    var i := 0;
    while i < |plan|
      invariant 0 <= i <= |plan| && |plan| == |original|
      invariant forall k :: i <= k < |plan| ==> plan[k] == original[k]
      invariant forall k :: 0 <= k < i ==>
        plan[k] == original[k].(recommendedArea := Round2(Share(original[k].score, totalScore, totalArea)))
    {
      plan := plan[i := plan[i].(recommendedArea := Round2(Share(plan[i].score, totalScore, totalArea)))];
      i := i + 1;
    }
  }

  function Shares(scores: seq<real>, totalScore: real, totalArea: real): (r: seq<real>)
    requires totalScore != 0.0
    ensures |r| == |scores| && forall i :: 0 <= i < |scores| ==> r[i] == Share(scores[i], totalScore, totalArea)
  {
    if scores == [] then [] else [Share(scores[0], totalScore, totalArea)] + Shares(scores[1..], totalScore, totalArea)
  }

  /** Before rounding, the shares add up to the total area. */
  lemma SharesSumToTotal(scores: seq<real>, totalArea: real)
    requires Sum(scores) != 0.0
    ensures Sum(Shares(scores, Sum(scores), totalArea)) == totalArea
  {
    var t := Sum(scores);
    ScaledSum(scores, t, totalArea);
    assert t / t == 1.0;
  }

  lemma {:induction false} ScaledSum(scores: seq<real>, t: real, a: real)
    requires t != 0.0
    ensures Sum(Shares(scores, t, a)) == (Sum(scores) / t) * a
  {
    if scores != [] {
      ScaledSum(scores[1..], t, a);
      var x, y := scores[0], Sum(scores[1..]);
      assert Shares(scores, t, a)[1..] == Shares(scores[1..], t, a);
      assert x / t + y / t == (x + y) / t by {
        assert (x / t) * t == x && (y / t) * t == y;
        assert ((x + y) / t) * t == x + y;
        assert (x / t + y / t) * t == x + y;
        Cancel(x / t + y / t, (x + y) / t, t);
      }
      assert (x / t) * a + (y / t) * a == (x / t + y / t) * a;
    }
  }

  datatype OptimizeReply = OptimizeRejected(message: string) | Optimized(totalArea: real, plan: seq<PlanEntry>)

  const MissingAreaOrCrops := "Área total y lista de cultivos son requeridos"

  /** `POST /optimize`: a missing or zero area, or a missing or empty crop list, is refused. */
  method Optimize(totalArea: Option<real>, crops: Option<seq<string>>) returns (r: OptimizeReply)
    ensures totalArea.None? || totalArea == Some(0.0) || crops.None? || crops == Some([]) <==> r.OptimizeRejected?
    ensures r.OptimizeRejected? ==> r.message == MissingAreaOrCrops
    ensures r.Optimized? ==>
      (r.totalArea == totalArea.value && |r.plan| == |Candidates(crops.value)|
       && Keys(r.plan) == Keys(Candidates(crops.value)))
    ensures r.Optimized? ==> forall i :: 0 <= i < |r.plan| ==>
      var c := Candidates(crops.value)[i];
      r.plan[i] == c.(recommendedArea := Round2(Share(c.score, Sum(Scores(Candidates(crops.value))), totalArea.value)))
  {
    if totalArea.None? || totalArea.value == 0.0 || crops.None? || |crops.value| == 0 {
      return OptimizeRejected(MissingAreaOrCrops);
    }
    var plan := OptimizeCropMix(totalArea.value, crops.value);
    assert Keys(plan) == Keys(Candidates(crops.value));
    r := Optimized(totalArea.value, plan);
  }
}
