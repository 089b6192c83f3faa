/**
 * The frontend's API client: the message of a rejected request, and the
 * offline fallbacks for the solar and irrigation calculators and the test SMS.
 */
module ApiService {
  import opened Common

  /** The response interceptor: `error.response?.data?.message || error.message || 'Error desconocido'`. */
  function ErrorMessage(responseMessage: Option<string>, errorMessage: Option<string>): (m: string)
    ensures Truthy(responseMessage) ==> m == responseMessage.value
    ensures !Truthy(responseMessage) && Truthy(errorMessage) ==> m == errorMessage.value
    ensures !Truthy(responseMessage) && !Truthy(errorMessage) ==> m == "Error desconocido"
    ensures m != ""
  {
    if Truthy(responseMessage) then responseMessage.value
    else if Truthy(errorMessage) then errorMessage.value
    else "Error desconocido"
  }

  /** What a calculator call gives: the server's data, the offline figures, or the error re-thrown. */
  datatype Outcome<T> = Served(data: T) | OfflineResult(figures: T) | Rethrown(message: string)

  /** `calculate(data)`: a failed request falls back to the offline figures only when the browser is offline. */
  function WithFallback<T>(reply: Result<T>, online: bool, offline: T): (o: Outcome<T>)
    ensures reply.Ok? ==> o == Served(reply.value)
    ensures reply.Err? && !online ==> o == OfflineResult(offline)
    ensures reply.Err? && online ==> o == Rethrown(reply.error)
  {
    if reply.Ok? then Served(reply.value)
    else if !online then OfflineResult(offline)
    else Rethrown(reply.error)
  }

  /** The one recommendation of every offline result. */
  datatype OfflineTip = OfflineData

  // ---------------------------------------------------------------------------
  // Solar

  datatype OfflineSolar = OfflineSolar(panelPower: real, systemPower: real, dailyGeneration: real,
                                       monthlyGeneration: int, annualGeneration: real, systemCost: real,
                                       monthlySavings: int, annualSavings: int, paybackPeriod: Option<real>,
                                       totalSavings: real, roi: Option<real>, recommendations: seq<OfflineTip>)

  /** 1.2 for monocristalino, 1.0 for policristalino, 0.8 for anything else. */
  function SystemMultiplier(systemType: string): (m: real)
    ensures systemType == "monocristalino" ==> m == 1.2
    ensures systemType == "policristalino" ==> m == 1.0
    ensures systemType != "monocristalino" && systemType != "policristalino" ==> m == 0.8
  {
    if systemType == "monocristalino" then 1.2 else if systemType == "policristalino" then 1.0 else 0.8
  }

  /** The yearly saving the offline solar figures assume. */
  function OfflineAnnualSavings(area: real, systemType: Option<string>): (s: real)
    ensures s == area * 150.0 * SystemMultiplier(if systemType.Some? then systemType.value else "monocristalino") * 12.0 * 0.22
  {
    var monthly := area * 150.0 * SystemMultiplier(if systemType.Some? then systemType.value else "monocristalino");
    monthly * 12.0 * 0.22
  }

  /** The monthly generation the offline solar figures assume, in kWh. */
  function OfflineMonthlyGeneration(area: real, systemType: Option<string>): (g: real)
    ensures g == area * 150.0 * SystemMultiplier(if systemType.Some? then systemType.value else "monocristalino")
    ensures OfflineAnnualSavings(area, systemType) == g * 12.0 * 0.22
  {
    area * 150.0 * SystemMultiplier(if systemType.Some? then systemType.value else "monocristalino")
  }

  /**
   * `solarService.getOfflineCalculation(data)`: the type defaults to
   * monocristalino; the payback and the return on investment are `NaN`
   * (`None`) for a zero area, where both divide zero by zero.
   */
  function OfflineSolarCalculation(area: real, systemType: Option<string>): (r: OfflineSolar)
    ensures r.systemCost == 1200.0 * area && r.panelPower == 200.0 * area && r.systemPower == r.panelPower * 0.2
    ensures var g := OfflineMonthlyGeneration(area, systemType);
      && r.dailyGeneration == g / 30.0 && r.monthlyGeneration == Round(g) && r.annualGeneration == g * 12.0
      && r.monthlySavings == Round(g * 0.22)
    ensures r.annualSavings == Round(OfflineAnnualSavings(area, systemType))
    ensures r.totalSavings == OfflineAnnualSavings(area, systemType) * 25.0
    ensures r.paybackPeriod.None? <==> area == 0.0
    ensures r.paybackPeriod.Some? ==>
      r.paybackPeriod.value == Round1(1200.0 * area / OfflineAnnualSavings(area, systemType))
    ensures r.roi.None? <==> area == 0.0
    ensures r.roi.Some? ==>
      r.roi.value == ((OfflineAnnualSavings(area, systemType) * 25.0 - 1200.0 * area) / (1200.0 * area)) * 100.0
    ensures r.recommendations == [OfflineData]
  {
    var monthly := OfflineMonthlyGeneration(area, systemType);
    var annual := monthly * 12.0 * 0.22;
    var cost := area * 1200.0;
    OfflineSolar(area * 200.0, area * 200.0 * 0.2, monthly / 30.0, Round(monthly), monthly * 12.0, cost,
                 Round(monthly * 0.22), Round(annual),
                 if annual == 0.0 then None else Some(Round1(cost / annual)), annual * 25.0,
                 if cost == 0.0 then None else Some(((annual * 25.0 - cost) / cost) * 100.0), [OfflineData])
  }

  /** Offline, the payback does not depend on the area: it is about 3.8 years for monocristalino panels. */
  lemma OfflinePaybackIgnoresArea(area: real, systemType: Option<string>)
    requires area != 0.0
    ensures OfflineSolarCalculation(area, systemType).paybackPeriod
            == Some(Round1(1200.0 / (150.0 * SystemMultiplier(if systemType.Some? then systemType.value else "monocristalino") * 12.0 * 0.22)))
  {
    var m := SystemMultiplier(if systemType.Some? then systemType.value else "monocristalino");
    var k := 150.0 * m * 12.0 * 0.22;
    assert OfflineAnnualSavings(area, systemType) == area * k;
    assert (1200.0 * area) / (area * k) == 1200.0 / k by {
      assert (1200.0 / k) * (area * k) == 1200.0 * area;
    }
  }

  /**
   * Nor does the offline return on investment: for a non-zero area it is the
   * 25-year saving per unit of cost, less one, as a percentage; for
   * monocristalino panels that is 890 percent.
   */
  lemma OfflineRoiIgnoresArea(area: real, systemType: Option<string>)
    requires area != 0.0
    ensures OfflineSolarCalculation(area, systemType).roi
            == Some((150.0 * SystemMultiplier(if systemType.Some? then systemType.value else "monocristalino") * 12.0 * 0.22 * 25.0 / 1200.0 - 1.0) * 100.0)
    ensures OfflineSolarCalculation(area, None).roi == Some(890.0)
  {
    RoiOfMultiplier(area, SystemMultiplier(if systemType.Some? then systemType.value else "monocristalino"));
    RoiOfMultiplier(area, 1.2);
  }

  lemma RoiOfMultiplier(area: real, m: real)
    requires area != 0.0
    ensures ((area * 150.0 * m * 12.0 * 0.22 * 25.0 - 1200.0 * area) / (1200.0 * area)) * 100.0
            == (150.0 * m * 12.0 * 0.22 * 25.0 / 1200.0 - 1.0) * 100.0
  {
    var k := 150.0 * m * 12.0 * 0.22 * 25.0;
    CommonFactor(area * 150.0 * m * 12.0 * 0.22 * 25.0 - 1200.0 * area, 1200.0 * area, k - 1200.0, 1200.0, area);
    assert (k - 1200.0) / 1200.0 == k / 1200.0 - 1.0;
  }

  /** A common non-zero factor of numerator and denominator cancels. */
  lemma CommonFactor(a: real, b: real, n: real, d: real, x: real)
    requires d != 0.0 && x != 0.0 && a == n * x && b == d * x
    ensures a / b == n / d
  {
    var q, p := a / b, n / d;
    assert p * d == n;
    assert p * b == a;
    assert q * b == a;
    Cancel(q, p, b);
  }

  // ---------------------------------------------------------------------------
  // Irrigation

  /** The offline efficiency table, with 0.75 for a missing or unknown system. */
  function OfflineEfficiency(systemType: Option<string>): (e: real)
    ensures 0.45 <= e <= 0.9
    ensures systemType.None? ==> e == 0.75
  {
    if systemType == Some("goteo") then 0.9
    else if systemType == Some("aspersion") then 0.75
    else if systemType == Some("microaspersion") then 0.85
    else if systemType == Some("gravedad") then 0.45
    else 0.75
  }

  datatype OfflineIrrigation = OfflineIrrigation(baseWaterNeed: real, adjustedWaterNeed: real, currentWaterUse: real,
                                                 newWaterUse: real, waterSaved: real, waterSavingsPercent: real,
                                                 systemEfficiency: real, systemCost: real, annualWaterSavings: real,
                                                 laborCostReduction: real, annualSavings: real,
                                                 paybackPeriod: Option<real>, recommendations: seq<OfflineTip>)

  /**
   * `irrigationService.getOfflineCalculation(data)` as written: gravity is the
   * current system, and the percentage divides the new efficiency by 0.45.
   * The payback divides zero by zero (`NaN`, `None`) exactly for a zero area.
   */
  function OfflineIrrigationAsWritten(area: real, systemType: Option<string>): (r: OfflineIrrigation)
    ensures r.baseWaterNeed == 500.0 * area && r.adjustedWaterNeed == r.baseWaterNeed
    ensures r.currentWaterUse == r.baseWaterNeed / 0.45
    ensures r.newWaterUse == r.baseWaterNeed / OfflineEfficiency(systemType)
    ensures r.waterSaved == r.baseWaterNeed * (1.0 - OfflineEfficiency(systemType))
    ensures r.waterSavingsPercent == (1.0 - OfflineEfficiency(systemType) / 0.45) * 100.0
    ensures r.systemEfficiency == OfflineEfficiency(systemType) * 100.0
    ensures r.systemCost == 2500.0 * area && r.laborCostReduction == 1000.0 * area
    ensures r.annualWaterSavings == r.waterSaved * 0.002
    ensures r.annualSavings == r.annualWaterSavings + r.laborCostReduction
    ensures r.paybackPeriod.None? <==> area == 0.0
    ensures r.paybackPeriod.Some? ==> r.paybackPeriod.value == r.systemCost / r.annualSavings
    ensures r.recommendations == [OfflineData]
  {
    var base := area * 500.0;
    var eff := OfflineEfficiency(systemType);
    var saved := base * (1.0 - eff);
    var costSavings := saved * 0.002;
    var annual := costSavings + area * 1000.0;
    assert annual == area * (1001.0 - eff);
    OfflineIrrigation(base, base, base / 0.45, base / eff, saved, (1.0 - eff / 0.45) * 100.0, eff * 100.0,
                      area * 2500.0, costSavings, area * 1000.0, annual,
                      if annual == 0.0 then None else Some((area * 2500.0) / annual), [OfflineData])
  }

  /** The offline irrigation payback does not depend on the area: 2500 over 1000 plus the water saved per unit. */
  lemma OfflineIrrigationPaybackIgnoresArea(area: real, systemType: Option<string>)
    requires area != 0.0
    ensures OfflineIrrigationAsWritten(area, systemType).paybackPeriod == Some(2500.0 / (1001.0 - OfflineEfficiency(systemType)))
    ensures OfflineIrrigationAsWritten(area, Some("goteo")).paybackPeriod == Some(2500.0 / 1000.1)
  {
    PaybackOfEfficiency(area, OfflineEfficiency(systemType));
    PaybackOfEfficiency(area, 0.9);
  }

  lemma PaybackOfEfficiency(area: real, e: real)
    requires area != 0.0 && e < 1.0
    ensures (area * 2500.0) / (area * 500.0 * (1.0 - e) * 0.002 + area * 1000.0) == 2500.0 / (1001.0 - e)
  {
    CommonFactor(area * 2500.0, area * 500.0 * (1.0 - e) * 0.002 + area * 1000.0, 2500.0, 1001.0 - e, area);
  }

  /** As written, no system ever shows a saving offline: drip irrigation shows -100 percent. */
  lemma OfflinePercentAsWrittenNeverPositive(area: real, systemType: Option<string>)
    ensures OfflineIrrigationAsWritten(area, systemType).waterSavingsPercent <= 0.0
    ensures OfflineIrrigationAsWritten(area, Some("goteo")).waterSavingsPercent == -100.0
  {
  }

  /** The offline figures with the percentage the backend computes: the current use over the new one. */
  function OfflineIrrigationCalculation(area: real, systemType: Option<string>): (r: OfflineIrrigation)
    ensures r == OfflineIrrigationAsWritten(area, systemType).(waterSavingsPercent := (1.0 - 0.45 / OfflineEfficiency(systemType)) * 100.0)
  {
    OfflineIrrigationAsWritten(area, systemType).(waterSavingsPercent := (1.0 - 0.45 / OfflineEfficiency(systemType)) * 100.0)
  }

  /**
   * The corrected percentage is the backend's for a gravity-irrigated field,
   * is positive for every system better than gravity, and is the share of the
   * current use that the new system saves.
   */
  lemma OfflinePercentMatchesBackend(area: real, systemType: Option<string>)
    requires area > 0.0
    ensures var r := OfflineIrrigationCalculation(area, systemType);
      && (r.waterSavingsPercent > 0.0 <==> OfflineEfficiency(systemType) > 0.45)
      && r.waterSavingsPercent == (r.currentWaterUse - r.newWaterUse) / r.currentWaterUse * 100.0
  {
    var r := OfflineIrrigationCalculation(area, systemType);
    var e := OfflineEfficiency(systemType);
    var b := r.baseWaterNeed;
    assert b > 0.0;
    var c, n := b / 0.45, b / e;
    assert n * e == b;
    assert (c - n) / c == 1.0 - n / c by {
      assert ((c - n) / c) * c == c - n;
      assert (1.0 - n / c) * c == c - n;
      Cancel((c - n) / c, 1.0 - n / c, c);
    }
    assert n / c == 0.45 / e by {
      assert (n / c) * c == n;
      assert (0.45 / e) * c * e == 0.45 * c;
      assert 0.45 * c == b;
      assert (n / c) * c * e == b;
      assert ((n / c) * e) * c == ((0.45 / e) * e) * c;
    }
    if e > 0.45 {
      assert 0.45 / e < 1.0 by { assert (0.45 / e) * e == 0.45; }
    } else {
      assert 0.45 / e >= 1.0;
    }
  }

  // ---------------------------------------------------------------------------
  // Test SMS

  datatype OfflineSms = OfflineSms(success: bool, messageId: string, phone: string, status: string, message: string)

  /** The offline result of `sendTestSMS(phone)` at clock reading `now`. */
  function OfflineTestSms(phone: string, now: nat): (r: OfflineSms)
    ensures r.success && r.status == "offline" && r.phone == phone
    ensures StartsWith(r.messageId, "offline_") && r.messageId[8..] == NatToString(now)
  {
    OfflineSms(true, "offline_" + NatToString(now), phone, "offline", "SMS simulado en modo offline")
  }

  /** Distinct clock readings give distinct offline ids. */
  lemma OfflineIdsDistinct(phone: string, t1: nat, t2: nat)
    requires t1 != t2
    ensures OfflineTestSms(phone, t1).messageId != OfflineTestSms(phone, t2).messageId
  {
    if OfflineTestSms(phone, t1).messageId == OfflineTestSms(phone, t2).messageId {
      NatToStringInjective(t1, t2);
    }
  }
}
