/**
 * The irrigation routes: the water and payback calculation for switching
 * systems, the stage-by-stage schedule, and the recommendation helpers.
 * Dates are day numbers; parsing the planting date is the parameter
 * `parseDate`. The displayed figures are rounded as the route rounds them.
 */
module IrrigationRoutes {
  import opened Common

  datatype Stage = Stage(name: string, days: nat, waterFactor: real)
  datatype CropData = CropData(waterNeed: real, stages: seq<Stage>)
  datatype SystemData = SystemData(efficiency: real, costPerHa: real, laborReduction: real)

  /** `IRRIGATION_DATA.crops[key]`. */
  function LookupCrop(key: string): (c: Option<CropData>)
    ensures c.Some? ==> c.value.waterNeed > 0.0 && |c.value.stages| > 0
    ensures c.Some? ==> forall i :: 0 <= i < |c.value.stages| ==> c.value.stages[i].days > 0
  {
    if key == "maiz" then
      Some(CropData(500.0, [Stage("Siembra", 15, 0.3), Stage("Vegetativo", 35, 1.0), Stage("Floración", 25, 1.2),
                            Stage("Llenado", 30, 0.8), Stage("Maduración", 20, 0.4)]))
    else if key == "papa" then
      Some(CropData(450.0, [Stage("Siembra", 20, 0.4), Stage("Emergencia", 25, 0.6), Stage("Tuberización", 40, 1.2),
                            Stage("Llenado", 30, 1.0), Stage("Maduración", 15, 0.3)]))
    else if key == "cebada" then
      Some(CropData(350.0, [Stage("Siembra", 10, 0.3), Stage("Macollaje", 30, 0.8), Stage("Elongación", 25, 1.0),
                            Stage("Espigado", 15, 1.1), Stage("Llenado", 25, 0.9), Stage("Maduración", 15, 0.2)]))
    else None
  }

  /** `IRRIGATION_DATA.systems[key]`. */
  function LookupSystem(key: string): (s: Option<SystemData>)
    ensures s.Some? ==> 0.0 < s.value.efficiency <= 0.9 && s.value.costPerHa > 0.0 && s.value.laborReduction >= 0.0
    ensures s.Some? && s.value.laborReduction == 0.0 ==> key == "gravedad"
    ensures s.Some? && s.value.efficiency == 0.45 ==> key == "gravedad"
  {
    if key == "goteo" then Some(SystemData(0.90, 3500.0, 0.60))
    else if key == "aspersion" then Some(SystemData(0.75, 2500.0, 0.40))
    else if key == "microaspersion" then Some(SystemData(0.85, 2800.0, 0.50))
    else if key == "gravedad" then Some(SystemData(0.45, 500.0, 0.0))
    else None
  }

  /** `IRRIGATION_DATA.soilTypes[key].retention`. */
  function LookupRetention(key: string): (r: Option<real>)
    ensures r.Some? ==> 0.0 < r.value < 1.0
  {
    if key == "arcilloso" then Some(0.40)
    else if key == "franco" then Some(0.25)
    else if key == "arenoso" then Some(0.15)
    else if key == "limoso" then Some(0.30)
    else None
  }

  // ---------------------------------------------------------------------------
  // POST /calculate

  /** `area`: absent, or a number (`!area` holds for 0). */
  datatype CalculateBody = CalculateBody(cropType: Option<string>, area: Option<real>, systemType: Option<string>,
                                         soilType: Option<string>, currentSystem: Option<string>)

  /** The unrounded figures of one calculation. */
  datatype Figures = Figures(base: real, adjusted: real, currentUse: real, newUse: real, saved: real,
                             percent: real, systemCost: real, annualWater: real, labor: real,
                             annualSavings: real, payback: ExtReal)

  /** The arithmetic of the route for one crop, system pair and soil. */
  function Compute(crop: CropData, system: SystemData, current: SystemData, retention: real, area: real): (f: Figures)
    requires area > 0.0 && crop.waterNeed > 0.0 && retention >= 0.0
    requires system.efficiency > 0.0 && current.efficiency > 0.0
    ensures f.adjusted > 0.0 && f.currentUse > 0.0 && f.newUse > 0.0
    ensures f.payback == PosInf <==> f.annualSavings == 0.0
  {
    var base := crop.waterNeed * area;
    var adjusted := base * (1.0 + retention);
    var currentUse := adjusted / current.efficiency;
    var newUse := adjusted / system.efficiency;
    var saved := currentUse - newUse;
    var percent := (saved / currentUse) * 100.0;
    var cost := system.costPerHa * area;
    var annualWater := saved * 0.002;
    var labor := system.laborReduction * 2000.0 * area;
    var annual := annualWater + labor;
    Figures(base, adjusted, currentUse, newUse, saved, percent, cost, annualWater, labor, annual,
            if annual == 0.0 then PosInf else Fin(cost / annual))
  }

  /** The saving as a share of the current use depends only on the two efficiencies. */
  lemma SavingsPercent(adjusted: real, current: real, next: real)
    requires adjusted > 0.0 && current > 0.0 && next > 0.0
    ensures ((adjusted / current - adjusted / next) / (adjusted / current)) * 100.0 == (1.0 - current / next) * 100.0
    ensures (1.0 - current / next) * 100.0 > 0.0 <==> next > current
  {
    var u, v := adjusted / current, adjusted / next;
    SubOverSelf(u, v);
    RatioOfQuotients(adjusted, current, next);
    BelowOne(current, next);
  }

  /**
   * The figures of one calculation: the adjusted need, the two uses, and a
   * saving percentage that depends only on the two efficiencies.
   */
  lemma ComputedFigures(crop: CropData, system: SystemData, current: SystemData, retention: real, area: real)
    requires area > 0.0 && crop.waterNeed > 0.0 && retention >= 0.0
    requires system.efficiency > 0.0 && current.efficiency > 0.0
    ensures var f := Compute(crop, system, current, retention, area);
      && f.adjusted == crop.waterNeed * area * (1.0 + retention)
      && f.currentUse * current.efficiency == f.adjusted && f.newUse * system.efficiency == f.adjusted
      && f.percent == (1.0 - current.efficiency / system.efficiency) * 100.0
      && (f.percent > 0.0 <==> system.efficiency > current.efficiency)
      && (f.payback.Fin? ==> f.payback.v * f.annualSavings == system.costPerHa * area)
  {
    var f := Compute(crop, system, current, retention, area);
    SavingsPercent(f.adjusted, current.efficiency, system.efficiency);
  }

  lemma SubOverSelf(u: real, v: real)
    requires u > 0.0
    ensures (u - v) / u == 1.0 - v / u
  {
    assert (v / u) * u == v;
    assert (1.0 - v / u) * u == u - v;
    assert ((u - v) / u) * u == u - v;
    Cancel((u - v) / u, 1.0 - v / u, u);
  }

  lemma RatioOfQuotients(a: real, c: real, n: real)
    requires a > 0.0 && c > 0.0 && n > 0.0
    ensures (a / n) / (a / c) == c / n
  {
    var u, v := a / c, a / n;
    assert u * c == a && v * n == a;
    var q := v / u;
    assert q * u == v;
    assert (q * n) * u == c * u by {
      assert (q * n) * u == (q * u) * n;
    }
    Cancel(q * n, c, u);
    assert q == c / n;
  }

  lemma BelowOne(c: real, n: real)
    requires c > 0.0 && n > 0.0
    ensures c / n < 1.0 <==> c < n
  {
    var q := c / n;
    assert q * n == c;
    assert q * n - n == (q - 1.0) * n;
    if q < 1.0 {
      MulPositive(1.0 - q, n);
    } else {
      if q > 1.0 {
        MulPositive(q - 1.0, n);
      }
    }
  }

  /** With gravity irrigation both before and after, nothing is saved and the payback is infinite. */
  lemma BothGravityNeverPaysBack(crop: CropData, retention: real, area: real)
    requires area > 0.0 && crop.waterNeed > 0.0 && retention >= 0.0
    ensures Compute(crop, LookupSystem("gravedad").value, LookupSystem("gravedad").value, retention, area).payback == PosInf
  {
  }

  datatype Tip =
    | ExcellentSavings(percent: real)
    | GoodSavings(percent: real)
    | QuickReturn(payback: real)
    | ConsiderFinancing(slowPayback: ExtReal)
    | IdealCombination
    | ConsiderDrip
    | PhasedRollout

  /** The savings tip: excellent above 30 %, good above 15 %. */
  function SavingsTips(percent: real): seq<Tip>
  {
    if percent > 30.0 then [ExcellentSavings(percent)] else if percent > 15.0 then [GoodSavings(percent)] else []
  }

  /** The payback tip: a quick return under three years, financing beyond five or when it never pays back. */
  function ReturnTips(payback: ExtReal): seq<Tip>
  {
    if payback.Fin? && payback.v < 3.0 then [QuickReturn(payback.v)]
    else if payback == PosInf || (payback.Fin? && payback.v > 5.0) then [ConsiderFinancing(payback)] else []
  }

  function ComboTips(cropType: string, systemType: string): seq<Tip>
  {
    if systemType == "goteo" && cropType == "papa" then [IdealCombination] else []
  }

  function SoilTips(soilType: string, systemType: string): seq<Tip>
  {
    if soilType == "arenoso" && systemType != "goteo" then [ConsiderDrip] else []
  }

  function ScaleTips(area: real): seq<Tip>
  {
    if area > 5.0 then [PhasedRollout] else []
  }

  /** `generateIrrigationRecommendations`, in push order, on the unrounded percentage and payback. */
  function IrrigationRecommendations(cropType: string, systemType: string, percent: real, payback: ExtReal,
                                     soilType: string, area: real): (r: seq<Tip>)
    ensures |r| <= 5
  {
    SavingsTips(percent) + ReturnTips(payback) + ComboTips(cropType, systemType) + SoilTips(soilType, systemType)
    + ScaleTips(area)
  }

  /** Each tip is pushed exactly when its condition holds, and the phased roll-out comes last. */
  lemma RecommendationsSelected(cropType: string, systemType: string, percent: real, payback: ExtReal,
                                soilType: string, area: real)
    ensures var r := IrrigationRecommendations(cropType, systemType, percent, payback, soilType, area);
      && (ExcellentSavings(percent) in r <==> percent > 30.0)
      && (GoodSavings(percent) in r <==> 15.0 < percent <= 30.0)
      && ((exists p :: QuickReturn(p) in r) <==> payback.Fin? && payback.v < 3.0)
      && (ConsiderFinancing(payback) in r <==> payback == PosInf || (payback.Fin? && payback.v > 5.0))
      && (IdealCombination in r <==> systemType == "goteo" && cropType == "papa")
      && (ConsiderDrip in r <==> soilType == "arenoso" && systemType != "goteo")
      && (PhasedRollout in r <==> area > 5.0)
      && (area > 5.0 ==> r[|r| - 1] == PhasedRollout)
  {
    var a, b, c, d, e := SavingsTips(percent), ReturnTips(payback), ComboTips(cropType, systemType),
                         SoilTips(soilType, systemType), ScaleTips(area);
    var r := IrrigationRecommendations(cropType, systemType, percent, payback, soilType, area);
    assert r == a + b + c + d + e;
    assert forall t :: t in r <==> t in a || t in b || t in c || t in d || t in e;
    if payback.Fin? && payback.v < 3.0 {
      assert QuickReturn(payback.v) in b;
    }
  }

  /** The figures as the response shows them. */
  datatype Calculation = Calculation(baseWaterNeed: int, adjustedWaterNeed: int, currentWaterUse: int,
                                     newWaterUse: int, waterSaved: int, waterSavingsPercent: real,
                                     systemEfficiency: real, systemCost: real, annualWaterSavings: real,
                                     laborCostReduction: real, annualSavings: real, payback: ExtReal,
                                     stageNeeds: seq<int>, recommendations: seq<Tip>)

  datatype CalculateReply = CalcRejected(message: string) | Calculated(result: Calculation)

  const MissingFields := "Tipo de cultivo, área y sistema de riego son requeridos"
  const AreaNotPositive := "El área debe ser un número positivo"
  const UnknownCrop := "Tipo de cultivo no válido"
  const UnknownSystemOrSoil := "Tipo de sistema o suelo no válido"

  function RoundExt(x: ExtReal): ExtReal
  {
    if x.Fin? then Fin(Round2(x.v)) else x
  }

  /** `!cropType || !area || !systemType`. */
  predicate MissingCalculateFields(b: CalculateBody)
  {
    !Truthy(b.cropType) || b.area.None? || b.area == Some(0.0) || !Truthy(b.systemType)
  }

  function SoilOf(b: CalculateBody): string
  {
    if b.soilType.Some? then b.soilType.value else "franco"
  }

  function CurrentOf(b: CalculateBody): string
  {
    if b.currentSystem.Some? then b.currentSystem.value else "gravedad"
  }

  /** Every table lookup of the body succeeds. */
  predicate KnownTables(b: CalculateBody)
    requires !MissingCalculateFields(b)
  {
    LookupCrop(b.cropType.value).Some? && LookupSystem(b.systemType.value).Some?
    && LookupSystem(CurrentOf(b)).Some? && LookupRetention(SoilOf(b)).Some?
  }

  /** The water one stage needs per chart month, rounded. */
  function StageNeed(stage: Stage, adjusted: real): int
  {
    Round((adjusted / 125.0) * stage.waterFactor * (stage.days as real))
  }

  /** The chart has one value per stage of the crop, in stage order. */
  function StageNeeds(crop: CropData, adjusted: real): (needs: seq<int>)
    ensures |needs| == |crop.stages|
    ensures forall i :: 0 <= i < |crop.stages| ==> needs[i] == StageNeed(crop.stages[i], adjusted)
  {
    seq(|crop.stages|, i requires 0 <= i < |crop.stages| => StageNeed(crop.stages[i], adjusted))
  }

  /**
   * `POST /calculate`: the guards in order, then the arithmetic; soil defaults
   * to `franco`, the current system to `gravedad`.
   */
  function Calculate(b: CalculateBody): (r: CalculateReply)
    ensures r == CalcRejected(MissingFields) <==> MissingCalculateFields(b)
    ensures r == CalcRejected(AreaNotPositive) <==> !MissingCalculateFields(b) && b.area.value <= 0.0
    ensures r == CalcRejected(UnknownCrop) <==>
      !MissingCalculateFields(b) && b.area.value > 0.0 && LookupCrop(b.cropType.value).None?
    ensures r == CalcRejected(UnknownSystemOrSoil) <==>
      !MissingCalculateFields(b) && b.area.value > 0.0 && LookupCrop(b.cropType.value).Some? && !KnownTables(b)
    ensures r.Calculated? <==> !MissingCalculateFields(b) && b.area.value > 0.0 && KnownTables(b)
    ensures r.Calculated? ==>
      var crop := LookupCrop(b.cropType.value).value;
      var system := LookupSystem(b.systemType.value).value;
      var f := Compute(crop, system, LookupSystem(CurrentOf(b)).value, LookupRetention(SoilOf(b)).value, b.area.value);
      && r.result.baseWaterNeed == Round(f.base) && r.result.adjustedWaterNeed == Round(f.adjusted)
      && r.result.currentWaterUse == Round(f.currentUse) && r.result.newWaterUse == Round(f.newUse)
      && r.result.waterSaved == Round(f.saved) && r.result.waterSavingsPercent == Round2(f.percent)
      && r.result.systemEfficiency == system.efficiency * 100.0
      && r.result.systemCost == Round2(f.systemCost) && r.result.annualWaterSavings == Round2(f.annualWater)
      && r.result.laborCostReduction == Round2(f.labor) && r.result.annualSavings == Round2(f.annualSavings)
      && r.result.payback == RoundExt(f.payback)
      && r.result.stageNeeds == StageNeeds(crop, f.adjusted)
      && r.result.recommendations == IrrigationRecommendations(b.cropType.value, b.systemType.value, f.percent,
                                                              f.payback, SoilOf(b), b.area.value)
  {
    if MissingCalculateFields(b) then CalcRejected(MissingFields)
    else if b.area.value <= 0.0 then CalcRejected(AreaNotPositive)
    else if LookupCrop(b.cropType.value).None? then CalcRejected(UnknownCrop)
    else
      var crop := LookupCrop(b.cropType.value).value;
      var system := LookupSystem(b.systemType.value);
      var currentData := LookupSystem(CurrentOf(b));
      var retention := LookupRetention(SoilOf(b));
      if system.None? || currentData.None? || retention.None? then CalcRejected(UnknownSystemOrSoil)
      else
        var f := Compute(crop, system.value, currentData.value, retention.value, b.area.value);
        Calculated(Calculation(Round(f.base), Round(f.adjusted), Round(f.currentUse), Round(f.newUse), Round(f.saved),
                               Round2(f.percent), system.value.efficiency * 100.0, Round2(f.systemCost),
                               Round2(f.annualWater), Round2(f.labor), Round2(f.annualSavings), RoundExt(f.payback),
                               StageNeeds(crop, f.adjusted),
                               IrrigationRecommendations(b.cropType.value, b.systemType.value, f.percent,
                                                         f.payback, SoilOf(b), b.area.value)))
  }

  /**
   * What a calculation means: it is produced for every complete body with known
   * tables, and the displayed saving is the rounded share set by the two
   * efficiencies alone, whatever the crop, the soil and the area.
   */
  lemma CalculatedSavings(b: CalculateBody)
    requires !MissingCalculateFields(b) && b.area.value > 0.0 && KnownTables(b)
    ensures Calculate(b).Calculated?
    ensures Calculate(b).result.waterSavingsPercent ==
      Round2((1.0 - LookupSystem(CurrentOf(b)).value.efficiency / LookupSystem(b.systemType.value).value.efficiency) * 100.0)
  {
    ComputedFigures(LookupCrop(b.cropType.value).value, LookupSystem(b.systemType.value).value,
                    LookupSystem(CurrentOf(b)).value, LookupRetention(SoilOf(b)).value, b.area.value);
  }

  // ---------------------------------------------------------------------------
  // POST /schedule

  /** `getStageRecommendations`. */
  function StageRecommendations(stage: string): (r: seq<string>)
    ensures |r| >= 1
    ensures stage !in {"Siembra", "Emergencia", "Vegetativo", "Floración", "Tuberización", "Llenado", "Maduración"}
            ==> r == ["Seguir protocolo estándar"]
  {
    if stage == "Siembra" then ["Mantener humedad constante", "Riego ligero y frecuente"]
    else if stage == "Emergencia" then ["Evitar encharcamiento", "Riego superficial"]
    else if stage == "Vegetativo" then ["Incrementar frecuencia", "Monitorear desarrollo foliar"]
    else if stage == "Floración" then ["Riego crítico", "No interrumpir suministro"]
    else if stage == "Tuberización" then ["Riego profundo", "Mantener humedad en zona radicular"]
    else if stage == "Llenado" then ["Riego moderado", "Evitar estrés hídrico"]
    else if stage == "Maduración" then ["Reducir riego", "Preparar para cosecha"]
    else ["Seguir protocolo estándar"]
  }

  /** One entry of the schedule; `dailyWater` is `None` when the area is missing (a `NaN` in the source). */
  datatype ScheduleEntry = ScheduleEntry(stage: string, startDay: int, endDay: int, days: nat, waterFactor: real,
                                         dailyWater: Option<int>, irrigationFrequency: nat,
                                         recommendations: seq<string>)

  function SumDays(s: seq<ScheduleEntry>): nat
  {
    if s == [] then 0 else SumDays(s[..|s| - 1]) + s[|s| - 1].days
  }

  /** Stages laid end to end from `start`. */
  predicate Contiguous(s: seq<ScheduleEntry>, start: int)
  {
    (|s| > 0 ==> s[0].startDay == start)
    && (forall i :: 0 <= i < |s| ==> s[i].endDay == s[i].startDay + s[i].days)
    && (forall i :: 0 <= i < |s| - 1 ==> s[i + 1].startDay == s[i].endDay)
  }

  /** The daily water of one stage; `NaN` (`None`) without an area. */
  function DailyWater(waterNeed: real, stage: Stage, area: Option<real>): (w: Option<int>)
    requires stage.days > 0
    ensures w.Some? <==> area.Some?
  {
    if area.Some? then Some(Round(waterNeed * stage.waterFactor * area.value / (stage.days as real))) else None
  }

  /** The days of the first `k` stages. */
  function DaysBefore(stages: seq<Stage>, k: nat): nat
    requires k <= |stages|
  {
    if k == 0 then 0 else DaysBefore(stages, k - 1) + stages[k - 1].days
  }

  /** Entry `k` of the schedule: it starts once the stages before it are over. */
  function EntryAt(stages: seq<Stage>, k: nat, start: int, waterNeed: real, area: Option<real>, frequency: nat)
    : ScheduleEntry
    requires k < |stages| && stages[k].days > 0
  {
    ScheduleEntry(stages[k].name, start + DaysBefore(stages, k), start + DaysBefore(stages, k) + stages[k].days,
                  stages[k].days, stages[k].waterFactor, DailyWater(waterNeed, stages[k], area), frequency,
                  StageRecommendations(stages[k].name))
  }

  /** The schedule of the first `n` stages, one entry per stage. */
  function ScheduleOf(stages: seq<Stage>, n: nat, start: int, waterNeed: real, area: Option<real>, frequency: nat)
    : (s: seq<ScheduleEntry>)
    requires n <= |stages| && forall i :: 0 <= i < |stages| ==> stages[i].days > 0
    ensures |s| == n
    ensures forall k :: 0 <= k < n ==> s[k] == EntryAt(stages, k, start, waterNeed, area, frequency)
  {
    seq(n, k requires 0 <= k < n => EntryAt(stages, k, start, waterNeed, area, frequency))
  }

  /** Entry `k` of `s` starts after the first `k` stages and lasts as long as stage `k`. */
  predicate Timed(s: seq<ScheduleEntry>, stages: seq<Stage>, start: int)
  {
    |s| <= |stages|
    && forall k :: 0 <= k < |s| ==>
         s[k].startDay == start + DaysBefore(stages, k) && s[k].days == stages[k].days
         && s[k].endDay == s[k].startDay + s[k].days
  }

  /** Entries timed by their stages lie end to end from `start`. */
  lemma TimedContiguous(s: seq<ScheduleEntry>, stages: seq<Stage>, start: int)
    requires Timed(s, stages, start)
    ensures Contiguous(s, start)
  {
    forall i | 0 <= i < |s| - 1 ensures s[i + 1].startDay == s[i].endDay {
      assert DaysBefore(stages, i + 1) == DaysBefore(stages, i) + stages[i].days;
    }
  }

  /** Entries as long as the stages they follow last as long as those stages together. */
  lemma {:induction false} SumDaysOfStages(s: seq<ScheduleEntry>, stages: seq<Stage>)
    requires |s| <= |stages| && forall k :: 0 <= k < |s| ==> s[k].days == stages[k].days
    ensures SumDays(s) == DaysBefore(stages, |s|)
    decreases |s|
  {
    if s != [] {
      var n := |s|;
      var init := s[..n - 1];
      assert forall k :: 0 <= k < |init| ==> init[k].days == stages[k].days;
      SumDaysOfStages(init, stages);
      assert SumDays(s) == SumDays(init) + s[n - 1].days;
      assert DaysBefore(stages, n) == DaysBefore(stages, n - 1) + stages[n - 1].days;
    }
  }

  /**
   * The whole schedule: contiguous from the planting day, ending after the
   * total of its days, each entry carrying its stage's name and length.
   */
  lemma ScheduleOfShape(stages: seq<Stage>, start: int, waterNeed: real, area: Option<real>, frequency: nat)
    requires forall i :: 0 <= i < |stages| ==> stages[i].days > 0
    ensures var s := ScheduleOf(stages, |stages|, start, waterNeed, area, frequency);
      && Contiguous(s, start)
      && SumDays(s) == DaysBefore(stages, |stages|)
      && (|s| > 0 ==> s[|s| - 1].endDay == start + SumDays(s))
      && forall k :: 0 <= k < |s| ==>
           s[k].stage == stages[k].name && s[k].days == stages[k].days && s[k].waterFactor == stages[k].waterFactor
           && s[k].irrigationFrequency == frequency && (area.Some? <==> s[k].dailyWater.Some?)
           && s[k].recommendations == StageRecommendations(stages[k].name)
  {
    var s := ScheduleOf(stages, |stages|, start, waterNeed, area, frequency);
    forall k | 0 <= k < |s|
      ensures s[k].startDay == start + DaysBefore(stages, k) && s[k].endDay == s[k].startDay + s[k].days
      ensures s[k].stage == stages[k].name && s[k].days == stages[k].days && s[k].waterFactor == stages[k].waterFactor
      ensures s[k].irrigationFrequency == frequency && (area.Some? <==> s[k].dailyWater.Some?)
      ensures s[k].recommendations == StageRecommendations(stages[k].name)
    {
      var e := EntryAt(stages, k, start, waterNeed, area, frequency);
      assert s[k] == e;
      assert e.dailyWater == DailyWater(waterNeed, stages[k], area);
    }
    assert Timed(s, stages, start);
    TimedContiguous(s, stages, start);
    SumDaysOfStages(s, stages);
  }

  /** The loop of `/schedule`: each stage starts where the previous one ended. */
  method ChainStages(stages: seq<Stage>, start: int, waterNeed: real, area: Option<real>, frequency: nat)
    returns (schedule: seq<ScheduleEntry>)
    requires forall i :: 0 <= i < |stages| ==> stages[i].days > 0
    ensures schedule == ScheduleOf(stages, |stages|, start, waterNeed, area, frequency)
  {
    schedule := [];
    var current := start;
    var i := 0;
    while i < |stages|
      invariant 0 <= i <= |stages|
      invariant schedule == ScheduleOf(stages, i, start, waterNeed, area, frequency)
      invariant current == start + DaysBefore(stages, i)
    {
      var stage := stages[i];
      var endDay := current + stage.days;
      var entry := ScheduleEntry(stage.name, current, endDay, stage.days, stage.waterFactor,
                                 DailyWater(waterNeed, stage, area), frequency, StageRecommendations(stage.name));
      assert entry == EntryAt(stages, i, start, waterNeed, area, frequency);
      assert schedule + [entry] == ScheduleOf(stages, i + 1, start, waterNeed, area, frequency);
      schedule := schedule + [entry];
      current := endDay;
      i := i + 1;
    }
  }

  datatype ScheduleBody = ScheduleBody(cropType: Option<string>, systemType: Option<string>,
                                       plantingDate: Option<string>, area: Option<real>)

  datatype ScheduleReply = ScheduleRejected(message: string) | ScheduleFailed | Scheduled(totalDuration: nat, schedule: seq<ScheduleEntry>)

  const MissingScheduleFields := "Cultivo, sistema de riego y fecha de siembra son requeridos"
  const UnknownCropOrSystem := "Tipo de cultivo o sistema no válido"

  /** `POST /schedule`: the `for ... of` over the crop's stages, moving the current date to each stage's end. */
  method Schedule(b: ScheduleBody, parseDate: string -> Option<int>) returns (r: ScheduleReply)
    ensures !(Truthy(b.cropType) && Truthy(b.systemType) && Truthy(b.plantingDate)) ==>
      r == ScheduleRejected(MissingScheduleFields)
    ensures Truthy(b.cropType) && Truthy(b.systemType) && Truthy(b.plantingDate)
            && (LookupCrop(b.cropType.value).None? || LookupSystem(b.systemType.value).None?) ==>
      r == ScheduleRejected(UnknownCropOrSystem)
    ensures r.ScheduleFailed? <==>
      (Truthy(b.cropType) && Truthy(b.systemType) && Truthy(b.plantingDate)
       && LookupCrop(b.cropType.value).Some? && LookupSystem(b.systemType.value).Some? && parseDate(b.plantingDate.value).None?)
    ensures r.Scheduled? <==>
      (Truthy(b.cropType) && Truthy(b.systemType) && Truthy(b.plantingDate)
       && LookupCrop(b.cropType.value).Some? && LookupSystem(b.systemType.value).Some? && parseDate(b.plantingDate.value).Some?)
    ensures r.Scheduled? ==>
      var crop := LookupCrop(b.cropType.value).value;
      var system := LookupSystem(b.systemType.value).value;
      && r.schedule == ScheduleOf(crop.stages, |crop.stages|, parseDate(b.plantingDate.value).value, crop.waterNeed,
                                  b.area, if system.efficiency > 0.8 then 2 else 1)
      && r.totalDuration == SumDays(r.schedule)
  {
    if !Truthy(b.cropType) || !Truthy(b.systemType) || !Truthy(b.plantingDate) {
      return ScheduleRejected(MissingScheduleFields);
    }
    var crop := LookupCrop(b.cropType.value);
    var system := LookupSystem(b.systemType.value);
    if crop.None? || system.None? {
      return ScheduleRejected(UnknownCropOrSystem);
    }
    var plantDay := parseDate(b.plantingDate.value);
    if plantDay.None? {
      // `toISOString` on an invalid date throws
      return ScheduleFailed;
    }
    var frequency := if system.value.efficiency > 0.8 then 2 else 1;
    var schedule := ChainStages(crop.value.stages, plantDay.value, crop.value.waterNeed, b.area, frequency);
    r := Scheduled(SumDays(schedule), schedule);
  }
}
