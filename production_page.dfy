/**
 * The production recommendation page: crop and region tables, the yield and
 * revenue estimate, the suggested planting date, the activity calendar, the
 * profitability and risk figures, and the saved history. Dates are calendar
 * triples where the page reads the month, and day numbers elsewhere;
 * `toDay` turns the one into the other, since date arithmetic is outside
 * the model. The two-second simulated delay is left out.
 */
module ProductionPage {
  import opened Common

  // ---------------------------------------------------------------------------
  // Tables

  datatype CropInfo = CropInfo(title: string, growthPeriod: nat, tempMin: int, tempMax: int,
                               yieldPerHa: real, pricePerTon: real)

  const CropKeys: set<string> := {"maiz_amilaceo", "maiz_duro", "papa", "cebada", "quinua"}

  /** `cropTypes[key]`: the five crops the page offers. */
  function CropTypeOf(key: string): (c: Option<CropInfo>)
    ensures c.Some? <==> key in CropKeys
    ensures c.Some? ==> c.value.growthPeriod >= 120 && c.value.yieldPerHa > 0.0 && c.value.pricePerTon > 0.0
    ensures c.Some? ==> c.value.tempMin < c.value.tempMax
  {
    if key == "maiz_amilaceo" then Some(CropInfo("Maíz Amiláceo", 180, 15, 25, 3.5, 1800.0))
    else if key == "maiz_duro" then Some(CropInfo("Maíz Duro", 120, 20, 30, 8.5, 1200.0))
    else if key == "papa" then Some(CropInfo("Papa", 150, 10, 20, 25.0, 1500.0))
    else if key == "cebada" then Some(CropInfo("Cebada", 120, 12, 22, 4.2, 1100.0))
    else if key == "quinua" then Some(CropInfo("Quinua", 160, 8, 18, 2.8, 4500.0))
    else None
  }

  /** `regions[key].label`, absent for a region the table does not list. */
  function RegionLabel(key: string): (l: Option<string>)
    ensures l.Some? <==> key == "costa" || key == "sierra" || key == "selva"
  {
    if key == "costa" then Some("Costa")
    else if key == "sierra" then Some("Sierra")
    else if key == "selva" then Some("Selva")
    else None
  }

  /** The months of a planting window: two possible start months and two end months. */
  datatype Period = Period(start: seq<nat>, end: seq<nat>)

  /** `getOptimalPlantingPeriods`: the region's window, costa's for an unknown region. */
  function PlantingPeriods(region: string): (p: Period)
    ensures region != "sierra" && region != "selva" ==> p == Period([3, 4], [5, 6])
    ensures |p.start| == 2 && 1 <= p.start[0] <= 12
  {
    if region == "sierra" then Period([10, 11], [1, 2])
    else if region == "selva" then Period([4, 5], [7, 8])
    else Period([3, 4], [5, 6])
  }

  const Modifiers: map<string, map<string, real>> := map[
    "costa" := map["maiz_duro" := 1.2, "papa" := 0.9, "cebada" := 0.8],
    "sierra" := map["maiz_amilaceo" := 1.1, "papa" := 1.3, "cebada" := 1.2, "quinua" := 1.1],
    "selva" := map["maiz_duro" := 1.0, "papa" := 0.7]
  ]

  /** `getYieldModifier`: the listed factor, 1.0 for a pair the table does not list. */
  function YieldModifier(region: string, crop: string): (m: real)
    ensures !(region in Modifiers && crop in Modifiers[region]) ==> m == 1.0
    ensures region in Modifiers && crop in Modifiers[region] ==> m == Modifiers[region][crop]
    ensures 0.7 <= m <= 1.3
  {
    if region in Modifiers && crop in Modifiers[region] then Modifiers[region][crop] else 1.0
  }

  /** `getOptimalRainfall`, in millimetres: [400, 600] for an unknown crop. */
  function OptimalRainfall(crop: string): (r: (int, int))
    ensures crop !in CropKeys ==> r == (400, 600)
    ensures 300 <= r.0 < r.1 <= 800
  {
    if crop == "maiz_amilaceo" then (400, 600)
    else if crop == "maiz_duro" then (500, 800)
    else if crop == "papa" then (400, 800)
    else if crop == "cebada" then (300, 500)
    else if crop == "quinua" then (300, 600)
    else (400, 600)
  }

  /** `getOptimalSoilPH`: [6.0, 7.0] for an unknown crop. */
  function OptimalSoilPH(crop: string): (r: (real, real))
    ensures crop !in CropKeys ==> r == (6.0, 7.0)
    ensures 5.5 <= r.0 < r.1 <= 8.5
  {
    if crop == "maiz_amilaceo" then (6.0, 7.5)
    else if crop == "maiz_duro" then (5.8, 7.2)
    else if crop == "papa" then (5.5, 6.5)
    else if crop == "cebada" then (6.0, 7.5)
    else if crop == "quinua" then (6.0, 8.5)
    else (6.0, 7.0)
  }

  // ---------------------------------------------------------------------------
  // Estimates

  /** The estimated harvest in tonnes for a field of `areaM2` square metres. */
  function EstimatedYield(info: CropInfo, areaM2: real, region: string, crop: string): real
  {
    info.yieldPerHa * (areaM2 / 10000.0) * YieldModifier(region, crop)
  }

  function EstimatedRevenue(info: CropInfo, areaM2: real, region: string, crop: string): real
  {
    EstimatedYield(info, areaM2, region, crop) * info.pricePerTon
  }

  /** The estimate is proportional to the area: two fields yield what their union yields. */
  lemma YieldAddsOverArea(info: CropInfo, a: real, b: real, region: string, crop: string)
    ensures EstimatedYield(info, a + b, region, crop)
            == EstimatedYield(info, a, region, crop) + EstimatedYield(info, b, region, crop)
    ensures EstimatedRevenue(info, a + b, region, crop)
            == EstimatedRevenue(info, a, region, crop) + EstimatedRevenue(info, b, region, crop)
  {
    var m := YieldModifier(region, crop);
    assert (a + b) / 10000.0 == a / 10000.0 + b / 10000.0;
    assert info.yieldPerHa * (a / 10000.0 + b / 10000.0) * m
           == info.yieldPerHa * (a / 10000.0) * m + info.yieldPerHa * (b / 10000.0) * m;
  }

  /** A listed crop on a field of positive area brings a positive revenue. */
  lemma RevenuePositive(crop: string, areaM2: real, region: string)
    requires crop in CropKeys && areaM2 > 0.0
    ensures EstimatedRevenue(CropTypeOf(crop).value, areaM2, region, crop) > 0.0
  {
    var info := CropTypeOf(crop).value;
    var m := YieldModifier(region, crop);
    MulPositive(info.yieldPerHa, areaM2 / 10000.0);
    MulPositive(info.yieldPerHa * (areaM2 / 10000.0), m);
    MulPositive(EstimatedYield(info, areaM2, region, crop), info.pricePerTon);
  }

  datatype Profitability = Profitability(costs: real, profit: real, margin: Option<real>)

  /**
   * `calculateProfitability`: costs of 8000 per hectare; the margin is the
   * profit as a percentage of the revenue, `NaN` (`None`) for no revenue.
   */
  function ProfitabilityOf(revenue: real, areaHa: real): (p: Profitability)
    ensures p.costs == 8000.0 * areaHa && p.profit == revenue - p.costs
    ensures p.margin.None? <==> revenue == 0.0
    ensures p.margin.Some? ==> p.margin.value * revenue == p.profit * 100.0
  {
    var costs := areaHa * 8000.0;
    var profit := revenue - costs;
    Profitability(costs, profit, if revenue == 0.0 then None else Some((profit / revenue) * 100.0))
  }

  /** With some revenue, the margin is positive exactly when the revenue covers the costs. */
  lemma MarginPositiveIffProfitable(revenue: real, areaHa: real)
    requires revenue > 0.0
    ensures var p := ProfitabilityOf(revenue, areaHa);
      p.margin.Some? && (p.margin.value > 0.0 <==> revenue > p.costs)
  {
    var p := ProfitabilityOf(revenue, areaHa);
    var m := p.margin.value;
    if m > 0.0 {
      MulPositive(m, revenue);
    }
  }

  /** The revenue of one hectare. */
  function PerHectareRevenue(info: CropInfo, region: string, crop: string): real
  {
    info.yieldPerHa * YieldModifier(region, crop) * info.pricePerTon
  }

  /** The margin does not depend on the field's area. */
  lemma MarginIgnoresArea(info: CropInfo, areaM2: real, region: string, crop: string)
    requires info.yieldPerHa > 0.0 && info.pricePerTon > 0.0 && areaM2 > 0.0
    ensures ProfitabilityOf(EstimatedRevenue(info, areaM2, region, crop), areaM2 / 10000.0).margin
            == Some((1.0 - 8000.0 / PerHectareRevenue(info, region, crop)) * 100.0)
  {
    var m := YieldModifier(region, crop);
    var k := PerHectareRevenue(info, region, crop);
    var h := areaM2 / 10000.0;
    var revenue := EstimatedRevenue(info, areaM2, region, crop);
    assert revenue == h * k by {
      assert revenue == info.yieldPerHa * h * m * info.pricePerTon;
    }
    MulPositive(info.yieldPerHa, m);
    MulPositive(info.yieldPerHa * m, info.pricePerTon);
    CostShare(h, k);
    assert ProfitabilityOf(revenue, h).margin == Some(((revenue - h * 8000.0) / revenue) * 100.0);
    assert ((revenue - h * 8000.0) / revenue) * 100.0 == ((h * k - h * 8000.0) / (h * k)) * 100.0;
    assert ((h * k - h * 8000.0) / (h * k)) * 100.0 == (1.0 - 8000.0 / k) * 100.0;
    assert ProfitabilityOf(revenue, h).margin == Some((1.0 - 8000.0 / k) * 100.0);
  }

  /** The margin over a revenue of `k` per hectare on `h` hectares. */
  lemma CostShare(h: real, k: real)
    requires h > 0.0 && k > 0.0
    ensures h * k != 0.0 && ((h * k - h * 8000.0) / (h * k)) * 100.0 == (1.0 - 8000.0 / k) * 100.0
  {
    MulPositive(h, k);
    var d := h * k;
    var q := (d - h * 8000.0) / d;
    assert q * d == d - h * 8000.0;
    assert (8000.0 / k) * k == 8000.0;
    assert (8000.0 / k) * d == h * ((8000.0 / k) * k);
    assert (1.0 - 8000.0 / k) * d == d - h * 8000.0;
    Cancel(q, 1.0 - 8000.0 / k, d);
  }

  // ---------------------------------------------------------------------------
  // Dates and calendar

  datatype CalendarDate = CalendarDate(year: int, month: nat, day: nat)

  /** Months counted from year zero, to compare dates by month. */
  function MonthIndex(d: CalendarDate): int
  {
    d.year * 12 + d.month
  }

  /**
   * `getSuggestedDate`: the 15th of the window's first start month, this year
   * unless that month is already behind the current one.
   */
  function SuggestedDate(now: CalendarDate, p: Period): (d: CalendarDate)
    requires |p.start| > 0
    ensures d.month == p.start[0] && d.day == 15
    ensures d.year == now.year + 1 <==> now.month > p.start[0]
    ensures d.year == now.year || d.year == now.year + 1
  {
    var startMonth := p.start[0];
    var suggested := CalendarDate(now.year, startMonth, 15);
    if now.month > startMonth then suggested.(year := now.year + 1) else suggested
  }

  /** The suggested month is the current one or one of the eleven after it. */
  lemma SuggestedWithinTwelveMonths(now: CalendarDate, p: Period)
    requires 1 <= now.month <= 12 && |p.start| > 0 && 1 <= p.start[0] <= 12
    ensures MonthIndex(now) <= MonthIndex(SuggestedDate(now, p)) < MonthIndex(now) + 12
  {
  }

  datatype StageSpec = StageSpec(name: string, offset: int, duration: nat)

  /** The nine activities of a season of `growthPeriod` days, offsets in days from planting. */
  function Stages(growthPeriod: nat): (s: seq<StageSpec>)
    ensures |s| == 9
  {
    [StageSpec("Preparación del terreno", -14, 7),
     StageSpec("Siembra", 0, 3),
     StageSpec("Primera fertilización", 15, 2),
     StageSpec("Control de malezas", 30, 5),
     StageSpec("Segunda fertilización", 45, 2),
     StageSpec("Control fitosanitario", 60, 3),
     StageSpec("Riego intensivo", growthPeriod / 2, 7),
     StageSpec("Preparación para cosecha", growthPeriod - 14, 7),
     StageSpec("Cosecha", growthPeriod, 10)]
  }

  datatype Priority = High | Medium

  /** `high` when the name mentions a fertilisation or `Cosecha` (case-sensitive), else `medium`. */
  function PriorityOf(name: string): Priority
  {
    if Search(name, "fertilización") || Search(name, "Cosecha") then High else Medium
  }

  datatype Activity = Activity(activity: string, day: int, duration: nat, priority: Priority)

  function ActivityAt(plantingDay: int, s: StageSpec): Activity
  {
    Activity(s.name, plantingDay + s.offset, s.duration, PriorityOf(s.name))
  }

  /** The calendar for a season planted on day `plantingDay`. */
  function CropCalendar(plantingDay: int, growthPeriod: nat): (c: seq<Activity>)
    ensures |c| == 9
  {
    var st := Stages(growthPeriod);
    seq(|st|, i requires 0 <= i < |st| => ActivityAt(plantingDay, st[i]))
  }

  /** `generateCropCalendar`: one activity per stage, pushed in stage order. */
  method GenerateCropCalendar(plantingDay: int, growthPeriod: nat) returns (activities: seq<Activity>)
    ensures activities == CropCalendar(plantingDay, growthPeriod)
  {
    var stages := Stages(growthPeriod);
    activities := [];
    var i := 0;
    while i < |stages|
      invariant 0 <= i <= |stages|
      invariant |activities| == i
      invariant forall k :: 0 <= k < i ==> activities[k] == ActivityAt(plantingDay, stages[k])
    {
      activities := activities + [ActivityAt(plantingDay, stages[i])];
      i := i + 1;
    }
  }

  /**
   * The priority of each of the nine stages: high for the two fertilisations
   * and the harvest (stages 2, 4 and 8), medium for every other stage.
   */
  lemma StagePriorities(growthPeriod: nat)
    ensures forall k :: 0 <= k < 9 ==>
      PriorityOf(Stages(growthPeriod)[k].name) == (if k == 2 || k == 4 || k == 8 then High else Medium)
  {
    forall k | 0 <= k < 9
      ensures PriorityOf(Stages(growthPeriod)[k].name) == (if k == 2 || k == 4 || k == 8 then High else Medium)
    {
      if k == 0 { StagePriority0(growthPeriod); }
      else if k == 1 { StagePriority1(growthPeriod); }
      else if k == 2 { StagePriority2(growthPeriod); }
      else if k == 3 { StagePriority3(growthPeriod); }
      else if k == 4 { StagePriority4(growthPeriod); }
      else if k == 5 { StagePriority5(growthPeriod); }
      else if k == 6 { StagePriority6(growthPeriod); }
      else if k == 7 { StagePriority7(growthPeriod); }
      else { StagePriority8(growthPeriod); }
    }
  }

  // One stage per helper, so that each proof holds a single name.
  lemma StagePriority0(growthPeriod: nat)
    ensures PriorityOf(Stages(growthPeriod)[0].name) == Medium
  {
    Unmentioned(Stages(growthPeriod)[0].name);
  }

  lemma StagePriority1(growthPeriod: nat)
    ensures PriorityOf(Stages(growthPeriod)[1].name) == Medium
  {
    Unmentioned(Stages(growthPeriod)[1].name);
  }

  lemma StagePriority2(growthPeriod: nat)
    ensures PriorityOf(Stages(growthPeriod)[2].name) == High
  {
    Mentioned(Stages(growthPeriod)[2].name, "Primera ", "fertilización");
  }

  lemma StagePriority3(growthPeriod: nat)
    ensures PriorityOf(Stages(growthPeriod)[3].name) == Medium
  {
    Unmentioned(Stages(growthPeriod)[3].name);
  }

  lemma StagePriority4(growthPeriod: nat)
    ensures PriorityOf(Stages(growthPeriod)[4].name) == High
  {
    Mentioned(Stages(growthPeriod)[4].name, "Segunda ", "fertilización");
  }

  lemma StagePriority5(growthPeriod: nat)
    ensures PriorityOf(Stages(growthPeriod)[5].name) == Medium
  {
    Unmentioned(Stages(growthPeriod)[5].name);
  }

  lemma StagePriority6(growthPeriod: nat)
    ensures PriorityOf(Stages(growthPeriod)[6].name) == Medium
  {
    Unmentioned(Stages(growthPeriod)[6].name);
  }

  lemma StagePriority7(growthPeriod: nat)
    ensures PriorityOf(Stages(growthPeriod)[7].name) == Medium
  {
    Unmentioned(Stages(growthPeriod)[7].name);
  }

  lemma StagePriority8(growthPeriod: nat)
    ensures PriorityOf(Stages(growthPeriod)[8].name) == High
  {
    Mentioned(Stages(growthPeriod)[8].name, "", "Cosecha");
  }

  /** A name made of a prefix and one of the two words gets high priority. */
  lemma Mentioned(name: string, prefix: string, word: string)
    requires word == "fertilización" || word == "Cosecha"
    requires name == prefix + word
    ensures PriorityOf(name) == High
  {
    SearchFindsInfix(prefix, word, "");
    assert prefix + word + "" == name;
  }

  /**
   * Exactly the two fertilisations and the harvest are high priority; the
   * preparation for harvest stays medium, its `cosecha` being lower-case.
   */
  lemma CalendarPriorities(plantingDay: int, growthPeriod: nat)
    ensures var c := CropCalendar(plantingDay, growthPeriod);
      && c[0].priority == Medium && c[1].priority == Medium && c[2].priority == High
      && c[3].priority == Medium && c[4].priority == High && c[5].priority == Medium
      && c[6].priority == Medium && c[7].priority == Medium && c[8].priority == High
    ensures CropCalendar(plantingDay, growthPeriod)[7].activity == "Preparación para cosecha"
  {
    StagePriority0(growthPeriod);
    StagePriority1(growthPeriod);
    StagePriority2(growthPeriod);
    StagePriority3(growthPeriod);
    StagePriority4(growthPeriod);
    StagePriority5(growthPeriod);
    StagePriority6(growthPeriod);
    StagePriority7(growthPeriod);
    StagePriority8(growthPeriod);
  }

  /** A name in which neither `fer` nor `Cos` appears gets medium priority. */
  lemma Unmentioned(name: string)
    requires forall i :: 0 <= i < |name| - 2 ==> !(name[i] == 'f' && name[i + 1] == 'e' && name[i + 2] == 'r')
    requires forall i :: 0 <= i < |name| - 2 ==> !(name[i] == 'C' && name[i + 1] == 'o' && name[i + 2] == 's')
    ensures PriorityOf(name) == Medium
  {
    SearchMissesAbsentTriple(name, "fertilización");
    SearchMissesAbsentTriple(name, "Cosecha");
  }

  /**
   * For seasons of at least 120 days (every listed crop's) the activities
   * come in date order, from two weeks before planting to the harvest.
   */
  lemma CalendarChronological(plantingDay: int, growthPeriod: nat)
    requires growthPeriod >= 120
    ensures var c := CropCalendar(plantingDay, growthPeriod);
      forall i, j :: 0 <= i < j < 9 ==> c[i].day <= c[j].day
    ensures CropCalendar(plantingDay, growthPeriod)[0].day == plantingDay - 14
    ensures CropCalendar(plantingDay, growthPeriod)[8].day == plantingDay + growthPeriod
  {
    var c := CropCalendar(plantingDay, growthPeriod);
    forall i | 0 <= i < 8 ensures c[i].day <= c[i + 1].day {
    }
    forall i, j | 0 <= i < j < 9 ensures c[i].day <= c[j].day {
      var k := i;
      while k < j
        invariant i <= k <= j
        invariant c[i].day <= c[k].day
      {
        k := k + 1;
      }
    }
  }

  // ---------------------------------------------------------------------------
  // Risk

  datatype RiskLevel = LowRisk | MediumRisk | HighRisk
  datatype Colour = Success | Warning | Danger
  datatype Risk = Risk(level: RiskLevel, colour: Colour)

  function ColourOf(l: RiskLevel): Colour
  {
    match l
    case LowRisk => Success
    case MediumRisk => Warning
    case HighRisk => Danger
  }

  /** `riskMatrix[region]` in its entries' order, no entries for an unknown region. */
  function RiskMatrix(region: string): seq<(RiskLevel, seq<string>)>
  {
    if region == "costa" then [(LowRisk, ["maiz_duro"]), (MediumRisk, ["papa"]), (HighRisk, ["quinua"])]
    else if region == "sierra" then
      [(LowRisk, ["papa", "cebada"]), (MediumRisk, ["maiz_amilaceo", "quinua"]), (HighRisk, ["maiz_duro"])]
    else if region == "selva" then [(LowRisk, ["maiz_duro"]), (MediumRisk, ["papa"]), (HighRisk, ["cebada", "quinua"])]
    else []
  }

  /** The level of the first entry whose list holds `crop`. */
  function FirstListed(entries: seq<(RiskLevel, seq<string>)>, crop: string): (r: Option<RiskLevel>)
    ensures r.None? <==> forall i :: 0 <= i < |entries| ==> crop !in entries[i].1
    ensures r.Some? ==> exists i :: (0 <= i < |entries| && entries[i].0 == r.value && crop in entries[i].1
                                     && forall j :: 0 <= j < i ==> crop !in entries[j].1)
  {
    if entries == [] then None
    else if crop in entries[0].1 then Some(entries[0].0)
    else
      var r := FirstListed(entries[1..], crop);
      assert forall i :: 1 <= i < |entries| ==> entries[i] == entries[1..][i - 1];
      r
  }

  /** `assessRiskLevel`: the first listed level and its colour, medium/warning for an unlisted crop. */
  function AssessRiskLevel(crop: string, region: string): (r: Risk)
    ensures r.colour == ColourOf(r.level)
    ensures (forall i :: 0 <= i < |RiskMatrix(region)| ==> crop !in RiskMatrix(region)[i].1) ==> r == Risk(MediumRisk, Warning)
    ensures FirstListed(RiskMatrix(region), crop).Some? ==> r.level == FirstListed(RiskMatrix(region), crop).value
  {
    var l := FirstListed(RiskMatrix(region), crop);
    if l.Some? then Risk(l.value, ColourOf(l.value)) else Risk(MediumRisk, Warning)
  }

  /** No crop sits in two lists of a region, so the entries' order never matters. */
  lemma RiskListsDisjoint(region: string, crop: string)
    ensures var m := RiskMatrix(region);
      forall i, j :: 0 <= i < j < |m| ==> !(crop in m[i].1 && crop in m[j].1)
  {
  }

  /** Two rows of the sierra matrix. */
  lemma SierraRisks()
    ensures AssessRiskLevel("maiz_duro", "sierra") == Risk(HighRisk, Danger)
    ensures AssessRiskLevel("papa", "sierra") == Risk(LowRisk, Success)
  {
    assert RiskMatrix("sierra")[0].1 == ["papa", "cebada"];
  }

  /** An unlisted pair, and any crop in a region the matrix does not list, get medium/warning. */
  lemma UnlistedRisks(crop: string, region: string)
    requires region != "costa" && region != "sierra" && region != "selva"
    ensures AssessRiskLevel("cebada", "costa") == Risk(MediumRisk, Warning)
    ensures AssessRiskLevel(crop, region) == Risk(MediumRisk, Warning)
  {
  }

  // ---------------------------------------------------------------------------
  // The page

  datatype ProductionForm = ProductionForm(cropType: string, area: real, region: string)

  const DefaultForm := ProductionForm("", 100.0, "costa")

  datatype FieldChange = CropTypeChange(crop: string) | AreaChange(area: real) | RegionChange(region: string)

  datatype Recommendation = Recommendation(
    cropType: string, region: string, area: real,
    suggestedPlanting: CalendarDate, suggestedHarvest: int,
    estimatedYield: real, estimatedRevenue: real,
    profitability: Profitability, riskLevel: Risk, calendar: seq<Activity>,
    temperature: (int, int), rainfall: (int, int), soilPH: (real, real))

  datatype Saved = Saved(recommendation: Recommendation, timestamp: string)

  const NoCrop := "Por favor selecciona un tipo de cultivo"
  const CalculationFailed := "Error al calcular recomendaciones. Intenta nuevamente."

  /** The result record for a listed crop and region. */
  function Assemble(c: CropInfo, regionName: string, f: ProductionForm, now: CalendarDate,
                    toDay: CalendarDate -> int): Recommendation
  {
    var areaHa := f.area / 10000.0;
    var estimated := EstimatedYield(c, f.area, f.region, f.cropType);
    var revenue := EstimatedRevenue(c, f.area, f.region, f.cropType);
    var planting := SuggestedDate(now, PlantingPeriods(f.region));
    Recommendation(c.title, regionName, f.area, planting, toDay(planting) + c.growthPeriod,
                   estimated, revenue, ProfitabilityOf(revenue, areaHa),
                   AssessRiskLevel(f.cropType, f.region), CropCalendar(toDay(planting), c.growthPeriod),
                   (c.tempMin, c.tempMax), OptimalRainfall(f.cropType), OptimalSoilPH(f.cropType))
  }

  /** What `calculateRecommendations` yields for a form; `None` where looking up the crop or the region's label throws. */
  function RecommendationFor(f: ProductionForm, now: CalendarDate, toDay: CalendarDate -> int): (r: Option<Recommendation>)
    ensures r.Some? <==> f.cropType in CropKeys && RegionLabel(f.region).Some?
  {
    var info := CropTypeOf(f.cropType);
    var regionLabel := RegionLabel(f.region);
    if info.None? || regionLabel.None? then None
    else Some(Assemble(info.value, regionLabel.value, f, now, toDay))
  }

  /** Each figure of a recommendation, in terms of the page's helpers. */
  lemma RecommendationFigures(f: ProductionForm, now: CalendarDate, toDay: CalendarDate -> int)
    requires f.cropType in CropKeys && RegionLabel(f.region).Some?
    ensures var r := RecommendationFor(f, now, toDay).value;
      var info := CropTypeOf(f.cropType).value;
      var planting := SuggestedDate(now, PlantingPeriods(f.region));
      && r.cropType == info.title && r.region == RegionLabel(f.region).value && r.area == f.area
      && r.suggestedPlanting == planting
      && r.suggestedHarvest == toDay(planting) + info.growthPeriod
      && r.estimatedYield == EstimatedYield(info, f.area, f.region, f.cropType)
      && r.estimatedRevenue == EstimatedRevenue(info, f.area, f.region, f.cropType)
      && r.profitability == ProfitabilityOf(r.estimatedRevenue, f.area / 10000.0)
      && r.riskLevel == AssessRiskLevel(f.cropType, f.region)
      && r.calendar == CropCalendar(toDay(planting), info.growthPeriod)
      && r.temperature == (info.tempMin, info.tempMax)
      && r.rainfall == OptimalRainfall(f.cropType) && r.soilPH == OptimalSoilPH(f.cropType)
  {
  }

  /** The body of `calculateRecommendations` once the crop and region are known. */
  method BuildRecommendation(c: CropInfo, regionName: string, f: ProductionForm, now: CalendarDate,
                             toDay: CalendarDate -> int) returns (result: Recommendation)
    ensures result == Assemble(c, regionName, f, now, toDay)
  {
    var periods := PlantingPeriods(f.region);
    var areaHa := f.area / 10000.0;
    var estimated := EstimatedYield(c, f.area, f.region, f.cropType);
    var revenue := EstimatedRevenue(c, f.area, f.region, f.cropType);
    var planting := SuggestedDate(now, periods);
    var harvest := toDay(planting) + c.growthPeriod;
    var calendar := GenerateCropCalendar(toDay(planting), c.growthPeriod);
    result := Recommendation(c.title, regionName, f.area, planting, harvest, estimated, revenue,
                             ProfitabilityOf(revenue, areaHa), AssessRiskLevel(f.cropType, f.region),
                             calendar, (c.tempMin, c.tempMax), OptimalRainfall(f.cropType), OptimalSoilPH(f.cropType));
  }

  class Page {
    var form: ProductionForm
    var recommendations: Option<Recommendation>
    var error: string
    var loading: bool
    /** The `productionRecommendations` entry of the local storage, oldest first. */
    var history: seq<Saved>

    constructor(stored: seq<Saved>)
      ensures form == DefaultForm && recommendations == None && error == "" && !loading && history == stored
    {
      form := DefaultForm;
      recommendations := None;
      error := "";
      loading := false;
      history := stored;
    }

    /** `handleInputChange(field)`: one field replaced, and the error cleared. */
    method HandleInputChange(change: FieldChange)
      modifies this
      ensures change.CropTypeChange? ==> form == old(form).(cropType := change.crop)
      ensures change.AreaChange? ==> form == old(form).(area := change.area)
      ensures change.RegionChange? ==> form == old(form).(region := change.region)
      ensures error == "" && recommendations == old(recommendations)
      ensures loading == old(loading) && history == old(history)
    {
      match change {
        case CropTypeChange(c) => form := form.(cropType := c);
        case AreaChange(a) => form := form.(area := a);
        case RegionChange(r) => form := form.(region := r);
      }
      error := "";
    }

    /**
     * `calculateRecommendations` at clock reading `now`: without a crop only
     * the error is set; a failed lookup shows the generic error; otherwise the
     * result is shown and appended to the history, which keeps the last ten.
     */
    method CalculateRecommendations(now: CalendarDate, toDay: CalendarDate -> int, timestamp: string)
      modifies this
      ensures form == old(form)
      ensures (old(form).cropType == "" ==>
                 error == NoCrop && recommendations == old(recommendations)
                 && history == old(history) && loading == old(loading))
      ensures (old(form).cropType != "" && RecommendationFor(form, now, toDay).None? ==>
                 error == CalculationFailed && recommendations == old(recommendations)
                 && history == old(history) && !loading)
      ensures (old(form).cropType != "" && RecommendationFor(form, now, toDay).Some? ==>
                 var r := RecommendationFor(form, now, toDay).value;
                 && error == "" && recommendations == Some(r) && !loading
                 && history == KeepLast(old(history) + [Saved(r, timestamp)], 10)
                 && |history| <= 10 && history[|history| - 1] == Saved(r, timestamp))
    {
      if form.cropType == "" {
        error := NoCrop;
        return;
      }
      loading := true;
      error := "";
      var info := CropTypeOf(form.cropType);
      var regionLabel := RegionLabel(form.region);
      if info.None? || regionLabel.None? {
        error := CalculationFailed;
        loading := false;
        return;
      }
      var result := BuildRecommendation(info.value, regionLabel.value, form, now, toDay);
      recommendations := Some(result);
      history := KeepLast(history + [Saved(result, timestamp)], 10);
      loading := false;
    }
  }
}
