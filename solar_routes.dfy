/**
 * The solar routes: the generation and investment figures of a panel
 * installation, the advice derived from them, and the location listing.
 */
module SolarRoutes {
  import opened Common

  datatype Site = Site(irradiation: real, efficiency: real)
  datatype Panel = Panel(efficiency: real, costPerWatt: real, lifespan: nat)

  /** `SOLAR_DATA.locations`, in declaration order. */
  const Locations: seq<(string, Site)> := [
    ("lima", Site(4.5, 0.85)), ("arequipa", Site(5.2, 0.88)), ("cusco", Site(4.8, 0.82)),
    ("trujillo", Site(4.3, 0.86)), ("piura", Site(4.9, 0.87)), ("ica", Site(5.1, 0.89)),
    ("tacna", Site(5.3, 0.90)), ("default", Site(4.6, 0.85))]

  const DefaultSite := Site(4.6, 0.85)

  /** The site of a location key, falling back to `default`. */
  function SiteOf(table: seq<(string, Site)>, key: string, fallback: Site): (s: Site)
    ensures (forall i :: 0 <= i < |table| ==> table[i].0 != key) ==> s == fallback
    ensures forall i :: 0 <= i < |table| && table[i].0 == key && (forall j :: 0 <= j < i ==> table[j].0 != key)
              ==> s == table[i].1
  {
    if table == [] then fallback
    else if table[0].0 == key then table[0].1
    else SiteOf(table[1..], key, fallback)
  }

  /** `SOLAR_DATA.systemTypes[systemType] || ...monocristalino`. */
  function PanelOf(systemType: string): (p: Panel)
    ensures p.efficiency > 0.0 && p.costPerWatt > 0.0 && p.lifespan > 0
    ensures systemType != "policristalino" && systemType != "amorfo" ==> p == Panel(0.20, 1.2, 25)
  {
    if systemType == "policristalino" then Panel(0.16, 1.0, 22)
    else if systemType == "amorfo" then Panel(0.10, 0.8, 20)
    else Panel(0.20, 1.2, 25)
  }

  /** `SOLAR_DATA.electricityRates[electricityRate] || ...residential`. */
  function Tariff(rate: string): (t: real)
    ensures t > 0.0
    ensures rate != "commercial" && rate != "industrial" ==> t == 0.22
  {
    if rate == "commercial" then 0.28 else if rate == "industrial" then 0.18 else 0.22
  }

  lemma LocationsArePositive()
    ensures forall i :: 0 <= i < |Locations| ==> Locations[i].1.irradiation > 0.0 && Locations[i].1.efficiency > 0.0
  {
  }

  // ---------------------------------------------------------------------------
  // POST /calculate

  datatype SolarFigures = SolarFigures(panelPower: real, systemPower: real, daily: real, monthly: real, annual: real,
                                       systemCost: real, monthlySavings: real, annualSavings: real,
                                       payback: real, totalSavings: real, roi: real)

  /** The arithmetic of the route for one area, site, panel and tariff. */
  function Figures(area: real, site: Site, panel: Panel, tariff: real): (f: SolarFigures)
    requires area > 0.0 && site.irradiation > 0.0 && site.efficiency > 0.0
    requires panel.efficiency > 0.0 && panel.costPerWatt > 0.0 && tariff > 0.0
    ensures f.panelPower == 200.0 * area && f.systemPower == f.panelPower * panel.efficiency
    ensures f.daily == f.systemPower * site.irradiation * site.efficiency / 1000.0
    ensures f.monthly == 30.0 * f.daily && f.annual == 365.0 * f.daily
    ensures f.systemCost == f.panelPower * panel.costPerWatt
    ensures f.monthlySavings == f.monthly * tariff && f.annualSavings == f.annual * tariff
    ensures f.totalSavings == f.annualSavings * (panel.lifespan as real)
    ensures f.annualSavings > 0.0 && f.systemCost > 0.0
    ensures f.payback * f.annualSavings == f.systemCost
  {
    var panelPower := area * 200.0;
    var systemPower := panelPower * panel.efficiency;
    var daily := systemPower * site.irradiation * site.efficiency / 1000.0;
    var monthly := daily * 30.0;
    var annual := daily * 365.0;
    var cost := panelPower * panel.costPerWatt;
    Positive3(panelPower, panel.efficiency, site.irradiation);
    Positive3(systemPower * site.irradiation, site.efficiency, tariff);
    var monthlySavings := monthly * tariff;
    var annualSavings := annual * tariff;
    var payback := cost / annualSavings;
    var total := annualSavings * (panel.lifespan as real);
    SolarFigures(panelPower, systemPower, daily, monthly, annual, cost, monthlySavings, annualSavings,
                 payback, total, ((total - cost) / cost) * 100.0)
  }

  lemma Positive3(x: real, y: real, z: real)
    requires x > 0.0 && y > 0.0 && z > 0.0
    ensures x * y > 0.0 && x * y * z > 0.0
  {
    assert x * y > 0.0;
  }

  /** The yearly saving per watt of panel. */
  function SavingPerWatt(site: Site, panel: Panel, tariff: real): real
  {
    panel.efficiency * site.irradiation * site.efficiency / 1000.0 * 365.0 * tariff
  }

  /**
   * The payback and the return depend only on the site, the panel and the
   * tariff: the area cancels out of both quotients.
   */
  lemma PaybackAndRoiIgnoreArea(area: real, site: Site, panel: Panel, tariff: real)
    requires area > 0.0 && site.irradiation > 0.0 && site.efficiency > 0.0
    requires panel.efficiency > 0.0 && panel.costPerWatt > 0.0 && tariff > 0.0
    ensures SavingPerWatt(site, panel, tariff) > 0.0
    ensures Figures(area, site, panel, tariff).payback == panel.costPerWatt / SavingPerWatt(site, panel, tariff)
    ensures Figures(area, site, panel, tariff).roi
            == ((panel.lifespan as real) / Figures(area, site, panel, tariff).payback - 1.0) * 100.0
  {
    var f := Figures(area, site, panel, tariff);
    var w := 200.0 * area;
    var k := SavingPerWatt(site, panel, tariff);
    Positive3(panel.efficiency, site.irradiation, site.efficiency);
    assert k > 0.0;
    assert f.annualSavings == w * k;
    assert f.systemCost == w * panel.costPerWatt;
    assert f.payback == panel.costPerWatt / k by {
      assert f.payback * (w * k) == w * panel.costPerWatt;
      assert (f.payback * k) * w == panel.costPerWatt * w;
      Cancel(f.payback * k, panel.costPerWatt, w);
    }
    var life := panel.lifespan as real;
    assert f.roi == ((f.annualSavings * life - f.systemCost) / f.systemCost) * 100.0;
    assert (f.annualSavings * life - f.systemCost) / f.systemCost == life / f.payback - 1.0 by {
      var c := f.systemCost;
      var q := (f.annualSavings * life - c) / c;
      assert q * c == f.annualSavings * life - c;
      assert f.payback > 0.0;
      var p := f.payback;
      assert f.annualSavings * p == c;
      var r := life / p - 1.0;
      assert (life / p) * p == life;
      assert r * c == (life / p) * (f.annualSavings * p) - c;
      assert (life / p) * (f.annualSavings * p) == f.annualSavings * ((life / p) * p);
      Cancel(q, r, c);
    }
  }

  datatype SolarTip =
    | ExcellentInvestment(payback: real)
    | GoodInvestment(payback: real)
    | ConsiderOptimising(payback: real)
    | ExceptionalRoi(roi: real)
    | ConsiderExpanding
    | ExcessGeneration
    | ConsiderUpgrade

  /** `generateSolarRecommendations` on the unrounded payback and return, in push order. */
  function SolarRecommendations(area: real, systemType: string, payback: real, roi: real, monthly: real,
                                consumption: Option<real>): (r: seq<SolarTip>)
    ensures |r| >= 1
    ensures r[0] == (if payback < 5.0 then ExcellentInvestment(payback)
                     else if payback < 8.0 then GoodInvestment(payback) else ConsiderOptimising(payback))
    ensures forall i :: 1 <= i < |r| ==> !r[i].ExcellentInvestment? && !r[i].GoodInvestment? && !r[i].ConsiderOptimising?
    ensures ExceptionalRoi(roi) in r <==> roi > 200.0
    ensures ConsiderExpanding in r <==> area < 10.0
    ensures ExcessGeneration in r <==>
      (consumption.Some? && consumption.value != 0.0 && monthly > consumption.value * 1.2)
    ensures ConsiderUpgrade in r <==> systemType == "amorfo"
  {
    [if payback < 5.0 then ExcellentInvestment(payback)
     else if payback < 8.0 then GoodInvestment(payback) else ConsiderOptimising(payback)]
    + (if roi > 200.0 then [ExceptionalRoi(roi)] else [])
    + (if area < 10.0 then [ConsiderExpanding] else [])
    + (if consumption.Some? && consumption.value != 0.0 && monthly > consumption.value * 1.2 then [ExcessGeneration] else [])
    + (if systemType == "amorfo" then [ConsiderUpgrade] else [])
  }

  datatype SolarBody = SolarBody(area: Option<real>, systemType: Option<string>, location: Option<string>,
                                 electricityRate: Option<string>, monthlyConsumption: Option<real>)

  /** The figures as the response shows them. */
  datatype SolarResult = SolarResult(panelPower: int, systemPower: int, dailyGeneration: real,
                                     monthlyGeneration: real, annualGeneration: real, systemCost: real,
                                     monthlySavings: real, annualSavings: real, paybackPeriod: real,
                                     totalSavings: real, roi: real, recommendations: seq<SolarTip>)

  datatype SolarReply = SolarRejected(message: string) | SolarCalculated(result: SolarResult)

  const AreaNotPositive := "El área debe ser un número positivo"

  function OrDefault(o: Option<string>, d: string): string
  {
    if o.Some? then o.value else d
  }

  /** The site, panel and tariff of a request after the fallbacks. */
  function Inputs(b: SolarBody): (Site, Panel, real)
  {
    (SiteOf(Locations, ToLower(OrDefault(b.location, "default")), DefaultSite),
     PanelOf(OrDefault(b.systemType, "monocristalino")), Tariff(OrDefault(b.electricityRate, "residential")))
  }

  /** `POST /calculate`: a missing, zero or negative area is refused; every lookup falls back. */
  function Calculate(b: SolarBody): (r: SolarReply)
    ensures r.SolarRejected? <==> b.area.None? || b.area.value <= 0.0
    ensures r.SolarRejected? ==> r.message == AreaNotPositive
    ensures r.SolarCalculated? ==>
      var (site, panel, tariff) := Inputs(b);
      site.irradiation > 0.0 && site.efficiency > 0.0
      && var f := Figures(b.area.value, site, panel, tariff);
      && r.result.panelPower == Round(200.0 * b.area.value)
      && r.result.systemPower == Round(f.systemPower)
      && r.result.dailyGeneration == Round2(f.daily)
      && r.result.monthlyGeneration == Round2(f.monthly)
      && r.result.annualGeneration == Round2(f.annual)
      && r.result.systemCost == Round2(f.systemCost)
      && r.result.monthlySavings == Round2(f.monthlySavings)
      && r.result.annualSavings == Round2(f.annualSavings)
      && r.result.totalSavings == Round2(f.totalSavings)
      && r.result.paybackPeriod == Round2(f.payback) && r.result.roi == Round2(f.roi)
      && r.result.recommendations
         == SolarRecommendations(b.area.value, OrDefault(b.systemType, "monocristalino"), f.payback, f.roi,
                                 f.monthly, b.monthlyConsumption)
  {
    if b.area.None? || b.area.value <= 0.0 then SolarRejected(AreaNotPositive)
    else
      var (site, panel, tariff) := Inputs(b);
      LocationsArePositive();
      SitePositive(Locations, ToLower(OrDefault(b.location, "default")), DefaultSite);
      var f := Figures(b.area.value, site, panel, tariff);
      SolarCalculated(SolarResult(Round(f.panelPower), Round(f.systemPower), Round2(f.daily), Round2(f.monthly),
                                  Round2(f.annual), Round2(f.systemCost), Round2(f.monthlySavings),
                                  Round2(f.annualSavings), Round2(f.payback), Round2(f.totalSavings), Round2(f.roi),
                                  SolarRecommendations(b.area.value, OrDefault(b.systemType, "monocristalino"),
                                                       f.payback, f.roi, f.monthly, b.monthlyConsumption)))
  }

  lemma {:induction false} SitePositive(table: seq<(string, Site)>, key: string, fallback: Site)
    requires fallback.irradiation > 0.0 && fallback.efficiency > 0.0
    requires forall i :: 0 <= i < |table| ==> table[i].1.irradiation > 0.0 && table[i].1.efficiency > 0.0
    ensures SiteOf(table, key, fallback).irradiation > 0.0 && SiteOf(table, key, fallback).efficiency > 0.0
  {
    if table != [] && table[0].0 != key {
      SitePositive(table[1..], key, fallback);
    }
  }

  /** The location is matched in lower case: `Cusco` and `CUSCO` find the `cusco` site. */
  lemma LocationIgnoresCase(b: SolarBody, c: SolarBody)
    requires b.location.Some? && c.location.Some? && ToLower(b.location.value) == ToLower(c.location.value)
    requires b.systemType == c.systemType && b.electricityRate == c.electricityRate
    ensures Inputs(b) == Inputs(c)
  {
  }

  // ---------------------------------------------------------------------------
  // GET /locations

  datatype LocationInfo = LocationInfo(id: string, name: string, irradiation: real, efficiency: real)

  /** `key.charAt(0).toUpperCase() + key.slice(1)`. */
  function Capitalize(key: string): (r: string)
    ensures |r| == |key|
    ensures |key| > 0 ==> r[0] == UpperChar(key[0]) && r[1..] == key[1..]
  {
    if key == [] then [] else [UpperChar(key[0])] + key[1..]
  }

  /** The listing: every location but `default`, in order, with its name capitalised. */
  function ListLocations(table: seq<(string, Site)>): (r: seq<LocationInfo>)
    ensures |r| <= |table|
    ensures forall x :: x in r ==> x.id != "default" && x.name == Capitalize(x.id)
    ensures forall i :: 0 <= i < |table| && table[i].0 != "default" ==>
              LocationInfo(table[i].0, Capitalize(table[i].0), table[i].1.irradiation, table[i].1.efficiency) in r
    ensures forall x :: x in r ==> exists i :: 0 <= i < |table| && table[i].0 == x.id && table[i].1 == Site(x.irradiation, x.efficiency)
  {
    if table == [] then []
    else
      var rest := ListLocations(table[1..]);
      var (key, site) := table[0];
      if key == "default" then
        assert forall x :: x in rest ==> exists i :: 0 <= i < |table| && table[i].0 == x.id && table[i].1 == Site(x.irradiation, x.efficiency) by {
          forall x | x in rest
            ensures exists i :: 0 <= i < |table| && table[i].0 == x.id && table[i].1 == Site(x.irradiation, x.efficiency)
          {
            var j :| 0 <= j < |table[1..]| && table[1..][j].0 == x.id && table[1..][j].1 == Site(x.irradiation, x.efficiency);
            assert table[j + 1] == table[1..][j];
          }
        }
        rest
      else
        var r := [LocationInfo(key, Capitalize(key), site.irradiation, site.efficiency)] + rest;
        assert forall x :: x in r ==> exists i :: 0 <= i < |table| && table[i].0 == x.id && table[i].1 == Site(x.irradiation, x.efficiency) by {
          forall x | x in r
            ensures exists i :: 0 <= i < |table| && table[i].0 == x.id && table[i].1 == Site(x.irradiation, x.efficiency)
          {
            if x in rest {
              var j :| 0 <= j < |table[1..]| && table[1..][j].0 == x.id && table[1..][j].1 == Site(x.irradiation, x.efficiency);
              assert table[j + 1] == table[1..][j];
            } else {
              assert table[0].0 == x.id;
            }
          }
        }
        r
  }
}
