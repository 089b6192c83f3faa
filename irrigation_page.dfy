/**
 * The smart irrigation page: traditional against smart water use, the water
 * bill saved, the payback of the system, the solar pump's energy figures and
 * the saved history. The 1.5-second simulated delay is left out.
 */
module IrrigationPage {
  import opened Common

  datatype SystemInfo = SystemInfo(title: string, efficiency: real, costPerM2: real, waterSaving: real)
  datatype CropWater = CropWater(title: string, waterNeed: real)

  /** `irrigationSystems[key]`: four systems, efficiencies strictly between 0 and 1. */
  function SystemOf(key: string): (s: Option<SystemInfo>)
    ensures s.Some? <==> key in {"goteo", "aspersion", "microaspersion", "surcos"}
    ensures s.Some? ==> 0.0 < s.value.efficiency < 1.0 && s.value.costPerM2 > 0.0
  {
    if key == "goteo" then Some(SystemInfo("Riego por Goteo", 0.95, 25.0, 0.4))
    else if key == "aspersion" then Some(SystemInfo("Riego por Aspersión", 0.75, 20.0, 0.25))
    else if key == "microaspersion" then Some(SystemInfo("Micro Aspersión", 0.85, 30.0, 0.35))
    else if key == "surcos" then Some(SystemInfo("Riego por Surcos Tecnificado", 0.65, 12.0, 0.15))
    else None
  }

  /** `cropTypes[key]`: the monthly need in litres per square metre. */
  function CropOf(key: string): (c: Option<CropWater>)
    ensures c.Some? <==> key in {"maiz", "papa", "cebada", "quinua"}
    ensures c.Some? ==> c.value.waterNeed > 0.0
  {
    if key == "maiz" then Some(CropWater("Maíz", 600.0))
    else if key == "papa" then Some(CropWater("Papa", 450.0))
    else if key == "cebada" then Some(CropWater("Cebada", 400.0))
    else if key == "quinua" then Some(CropWater("Quinua", 350.0))
    else None
  }

  /** Soles per cubic metre of water. */
  const WaterRate: real := 3.5

  datatype IrrigationResult = IrrigationResult(
    area: real, systemType: string, cropType: string,
    traditionalWaterUse: real, smartWaterUse: real, waterSaved: real,
    waterSavingPercent: Option<real>, monthlySavings: real, annualSavings: real,
    systemCost: real, paybackPeriod: Option<int>, efficiency: real,
    energyGenerated: real, energySavings: real)

  // ---------------------------------------------------------------------------
  // Figures

  function TraditionalUse(area: real, c: CropWater): real { area * c.waterNeed }

  function SmartUse(area: real, c: CropWater, s: SystemInfo): real { TraditionalUse(area, c) * s.efficiency }

  /** What the water of `litres` costs. */
  function WaterCost(litres: real): real { (litres / 1000.0) * WaterRate }

  function MonthlySavings(area: real, c: CropWater, s: SystemInfo): real
  {
    WaterCost(TraditionalUse(area, c)) - WaterCost(SmartUse(area, c, s))
  }

  function AnnualSavings(area: real, c: CropWater, s: SystemInfo): real { MonthlySavings(area, c, s) * 12.0 }

  function SystemCost(area: real, s: SystemInfo): real { area * s.costPerM2 }

  /** `Math.ceil(systemCost / annualSavings)`; `NaN` (`None`) when nothing is saved. */
  function Payback(cost: real, annual: real): Option<int>
  {
    if annual == 0.0 then None else Some(Ceil(cost / annual))
  }

  /** `Math.max(1, area / 100)`: the pump's power in kilowatts. */
  function PumpPower(area: real): (p: real)
    ensures p >= 1.0 && p >= area / 100.0
    ensures p == 1.0 || p == area / 100.0
  {
    if area / 100.0 > 1.0 then area / 100.0 else 1.0
  }

  /**
   * The figures of `calculateIrrigation`; the percentage and the payback are
   * `NaN` (`None`) when a zero area makes them divide zero by zero.
   */
  function Figures(area: real, s: SystemInfo, c: CropWater): (r: IrrigationResult)
    ensures r.area == area && r.systemType == s.title && r.cropType == c.title
    ensures r.traditionalWaterUse * 1000.0 == area * c.waterNeed
    ensures r.smartWaterUse == r.traditionalWaterUse * s.efficiency
    ensures r.waterSaved == r.traditionalWaterUse - r.smartWaterUse
    ensures r.waterSavingPercent.None? <==> area * c.waterNeed == 0.0
    ensures r.systemCost == area * s.costPerM2 && r.efficiency == s.efficiency * 100.0
    ensures r.paybackPeriod.None? <==> r.annualSavings == 0.0
    ensures r.paybackPeriod.Some? ==> r.systemCost / r.annualSavings <= r.paybackPeriod.value as real
    ensures r.energyGenerated == PumpPower(area) * 0.18 && r.energySavings == 200.0 * r.energyGenerated
  {
    var traditional := TraditionalUse(area, c);
    var smart := SmartUse(area, c, s);
    var saved := traditional - smart;
    var pump := PumpPower(area);
    var used := pump * 4.0 * 30.0;
    var generated := pump * 6.0 * 30.0;
    IrrigationResult(area, s.title, c.title, traditional / 1000.0, smart / 1000.0, saved / 1000.0,
                     if traditional == 0.0 then None else Some((saved / traditional) * 100.0),
                     MonthlySavings(area, c, s), AnnualSavings(area, c, s), SystemCost(area, s),
                     Payback(SystemCost(area, s), AnnualSavings(area, c, s)),
                     s.efficiency * 100.0, generated / 1000.0, (generated - used) * 0.6)
  }

  /** The monthly saving is the saved water's price: `(saved / 1000) * 3.5`. */
  lemma MonthlySavingsIsSavedWater(area: real, s: SystemInfo, c: CropWater)
    ensures Figures(area, s, c).monthlySavings == Figures(area, s, c).waterSaved * WaterRate
    ensures Figures(area, s, c).annualSavings == 12.0 * Figures(area, s, c).monthlySavings
  {
    var t := TraditionalUse(area, c);
    var m := SmartUse(area, c, s);
    assert (t / 1000.0) * WaterRate - (m / 1000.0) * WaterRate == ((t - m) / 1000.0) * WaterRate;
  }

  /** On a field of positive area the saving is `(1 - efficiency) * 100` percent. */
  lemma SavingPercent(area: real, s: SystemInfo, c: CropWater)
    requires area > 0.0 && c.waterNeed > 0.0
    ensures Figures(area, s, c).waterSavingPercent == Some((1.0 - s.efficiency) * 100.0)
  {
    var t := TraditionalUse(area, c);
    MulPositive(area, c.waterNeed);
    FractionSaved(t, s.efficiency);
    assert SmartUse(area, c, s) == t * s.efficiency;
    assert Figures(area, s, c).waterSavingPercent == Some(((t - SmartUse(area, c, s)) / t) * 100.0);
  }

  lemma DivMul(x: real, t: real)
    requires t != 0.0
    ensures (x / t) * t == x
  {
  }

  /** The share of a use `t` that a factor `e` leaves saved. */
  lemma FractionSaved(t: real, e: real)
    requires t != 0.0
    ensures (t - t * e) / t == 1.0 - e
  {
    DivMul(t - t * e, t);
    assert (1.0 - e) * t == t - t * e;
    Cancel((t - t * e) / t, 1.0 - e, t);
  }

  /** A common nonzero factor cancels from a quotient. */
  lemma RatioIgnoresScale(a: real, x: real, k: real)
    requires a != 0.0 && k != 0.0
    ensures (a * x) / (a * k) == x / k
  {
    var q := (a * x) / (a * k);
    assert a * k != 0.0;
    assert q * (a * k) == a * x;
    assert (x / k) * (a * k) == a * ((x / k) * k);
    Cancel(q, x / k, a * k);
  }

  /**
   * As the code stands, a more efficient system multiplies the traditional use
   * by a larger factor, so it is shown saving less water.
   */
  lemma SavingFallsWithEfficiency(area: real, s1: SystemInfo, s2: SystemInfo, c: CropWater)
    requires area > 0.0 && c.waterNeed > 0.0 && s1.efficiency < s2.efficiency
    ensures Figures(area, s1, c).waterSavingPercent.value > Figures(area, s2, c).waterSavingPercent.value
    ensures Figures(area, s1, c).waterSaved > Figures(area, s2, c).waterSaved
  {
    SavingPercent(area, s1, c);
    SavingPercent(area, s2, c);
    var t := TraditionalUse(area, c);
    MulPositive(area, c.waterNeed);
    assert t * s1.efficiency < t * s2.efficiency by {
      MulPositive(t, s2.efficiency - s1.efficiency);
    }
  }

  /** The water bill one square metre saves in a year. */
  function YearlySavingPerM2(s: SystemInfo, c: CropWater): real
  {
    12.0 * (c.waterNeed * (1.0 - s.efficiency) / 1000.0) * WaterRate
  }

  /** The payback does not depend on the area of the field. */
  lemma PaybackIgnoresArea(area1: real, area2: real, s: SystemInfo, c: CropWater)
    requires area1 > 0.0 && area2 > 0.0 && c.waterNeed > 0.0 && s.efficiency < 1.0
    ensures Figures(area1, s, c).paybackPeriod.Some?
    ensures Figures(area1, s, c).paybackPeriod == Figures(area2, s, c).paybackPeriod
  {
    YearlyPositive(s, c);
    PaybackPerM2(area1, s, c);
    PaybackPerM2(area2, s, c);
  }

  /** The payback is the cost per square metre over the yearly saving per square metre. */
  lemma PaybackPerM2(area: real, s: SystemInfo, c: CropWater)
    requires area > 0.0 && YearlySavingPerM2(s, c) > 0.0
    ensures Figures(area, s, c).paybackPeriod == Payback(s.costPerM2, YearlySavingPerM2(s, c))
  {
    PaybackOfFigures(area, s, c);
    PaybackScaled(area, s.costPerM2, YearlySavingPerM2(s, c));
  }

  lemma YearlyPositive(s: SystemInfo, c: CropWater)
    requires c.waterNeed > 0.0 && s.efficiency < 1.0
    ensures YearlySavingPerM2(s, c) > 0.0
  {
    MulPositive(c.waterNeed, 1.0 - s.efficiency);
  }

  lemma PaybackScaled(a: real, x: real, k: real)
    requires a > 0.0 && k > 0.0
    ensures Payback(a * x, a * k) == Payback(x, k)
  {
    MulPositive(a, k);
    RatioIgnoresScale(a, x, k);
  }

  /** The payback is the whole system's cost over the whole field's yearly saving. */
  lemma PaybackOfFigures(area: real, s: SystemInfo, c: CropWater)
    ensures Figures(area, s, c).paybackPeriod == Payback(area * s.costPerM2, area * YearlySavingPerM2(s, c))
  {
    AnnualScales(area, s, c);
    assert SystemCost(area, s) == area * s.costPerM2;
  }

  /** The yearly saving grows in proportion to the area. */
  lemma AnnualScales(area: real, s: SystemInfo, c: CropWater)
    ensures AnnualSavings(area, c, s) == area * YearlySavingPerM2(s, c)
  {
    var w := c.waterNeed;
    var e := s.efficiency;
    assert MonthlySavings(area, c, s) == ((area * w - area * w * e) / 1000.0) * WaterRate;
    assert area * w - area * w * e == area * (w * (1.0 - e));
  }

  /** The pump's solar surplus: two hours a day for thirty days at 0.6 per kilowatt-hour. */
  lemma EnergySavingsOfPump(area: real, s: SystemInfo, c: CropWater)
    ensures Figures(area, s, c).energySavings == 36.0 * PumpPower(area)
    ensures Figures(area, s, c).energySavings >= 36.0
    ensures Figures(area, s, c).energyGenerated == 0.18 * PumpPower(area)
  {
  }

  // ---------------------------------------------------------------------------
  // The page

  datatype IrrigationForm = IrrigationForm(area: real, systemType: string, cropType: string, soilType: string)

  const DefaultForm := IrrigationForm(100.0, "", "maiz", "arcilloso")

  datatype FieldChange = SystemTypeChange(system: string) | CropTypeChange(crop: string) | SoilTypeChange(soil: string)

  datatype Saved = Saved(result: IrrigationResult, timestamp: string)

  const NoSystem := "Por favor selecciona un tipo de sistema de riego"
  const CalculationFailed := "Error al calcular. Intenta nuevamente."

  /** The result for a form; `None` where an unknown system or crop makes the lookup throw. */
  function ResultFor(f: IrrigationForm): (r: Option<IrrigationResult>)
    ensures r.Some? <==> SystemOf(f.systemType).Some? && CropOf(f.cropType).Some?
    ensures r.Some? ==> r.value == Figures(f.area, SystemOf(f.systemType).value, CropOf(f.cropType).value)
  {
    var s := SystemOf(f.systemType);
    var c := CropOf(f.cropType);
    if s.None? || c.None? then None else Some(Figures(f.area, s.value, c.value))
  }

  class Page {
    var form: IrrigationForm
    var results: Option<IrrigationResult>
    var error: string
    var loading: bool
    /** The `irrigationCalculations` entry of the local storage, oldest first. */
    var history: seq<Saved>

    constructor(stored: seq<Saved>)
      ensures form == DefaultForm && results == None && error == "" && !loading && history == stored
    {
      form := DefaultForm;
      results := None;
      error := "";
      loading := false;
      history := stored;
    }

    /** `handleInputChange(field)`: one field replaced, and the error cleared. */
    method HandleInputChange(change: FieldChange)
      modifies this
      ensures change.SystemTypeChange? ==> form == old(form).(systemType := change.system)
      ensures change.CropTypeChange? ==> form == old(form).(cropType := change.crop)
      ensures change.SoilTypeChange? ==> form == old(form).(soilType := change.soil)
      ensures error == "" && results == old(results) && loading == old(loading) && history == old(history)
    {
      match change {
        case SystemTypeChange(v) => form := form.(systemType := v);
        case CropTypeChange(v) => form := form.(cropType := v);
        case SoilTypeChange(v) => form := form.(soilType := v);
      }
      error := "";
    }

    /** `handleAreaChange`: the slider sets the area and leaves the error as it is. */
    method HandleAreaChange(newValue: real)
      modifies this
      ensures form == old(form).(area := newValue)
      ensures error == old(error) && results == old(results) && loading == old(loading) && history == old(history)
    {
      form := form.(area := newValue);
    }

    /**
     * `calculateIrrigation`: without a system only the error is set; an
     * unknown system or crop shows the generic error; otherwise the result is
     * shown and appended to the history, which keeps the last ten.
     */
    method CalculateIrrigation(timestamp: string)
      modifies this
      ensures form == old(form)
      ensures (form.systemType == "" ==>
                 error == NoSystem && results == old(results) && history == old(history) && loading == old(loading))
      ensures (form.systemType != "" && ResultFor(form).None? ==>
                 error == CalculationFailed && results == old(results) && history == old(history) && !loading)
      ensures (form.systemType != "" && ResultFor(form).Some? ==>
                 && error == "" && results == ResultFor(form) && !loading
                 && history == KeepLast(old(history) + [Saved(ResultFor(form).value, timestamp)], 10)
                 && |history| <= 10 && history[|history| - 1] == Saved(ResultFor(form).value, timestamp))
    {
      if form.systemType == "" {
        error := NoSystem;
        return;
      }
      loading := true;
      error := "";
      var system := SystemOf(form.systemType);
      var crop := CropOf(form.cropType);
      if system.None? || crop.None? {
        error := CalculationFailed;
        loading := false;
        return;
      }
      var calculated := Figures(form.area, system.value, crop.value);
      results := Some(calculated);
      history := KeepLast(history + [Saved(calculated, timestamp)], 10);
      loading := false;
    }
  }
}
