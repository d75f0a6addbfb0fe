/**
 * The per-record physical model: vehicle-km travelled and gross emissions per
 * pollutant, CO2 sequestration and canopy deposition of PM2.5 and NOx, and the
 * net values and per-km² efficiencies. Each stage extends a record with new
 * columns and leaves the columns it reads untouched.
 */
module FeatureEngineering {
  import opened Config
  import opened Wrappers

  /** One observation row (city, ward, day) as read by the calculators. */
  datatype Observation = Observation(
    cityId: string, wardId: string, dailyDate: int,
    trafficIndex: real, avgSpeedKph: real,
    maxTempC: real, humidityPct: real, windSpeedMs: real,
    medianNdvi: real, forestAreaSqkm: real,
    pm25AmbientUgM3: real, noxAmbientUgM3: real,
    totalVehicles: real, carProp: real, truckProp: real, twowheelerProp: real)

  /** Values of one pollutant per vehicle class. */
  datatype ClassBreakdown = ClassBreakdown(car: real, truck: real, twowheeler: real)

  /** Columns added by the vehicular emissions stage. */
  datatype EmissionColumns = EmissionColumns(
    totalVktKm: real,
    co2: ClassBreakdown, pm25: ClassBreakdown, nox: ClassBreakdown,
    co2EmissionKg: real, pm25EmissionKg: real, noxEmissionKg: real)

  /** Columns added by the sequestration and removal stage. */
  datatype RemovalColumns = RemovalColumns(
    fNdvi: real, fTemp: real, fHumidity: real,
    co2SequesteredKg: real,
    ambientPm25KgM3: real, ambientNoxKgM3: real,
    canopyAreaSqm: real,
    pm25RemovedKg: real, noxRemovedKg: real)

  /** Columns added by the net stage; an efficiency is missing when the forest area is zero. */
  datatype NetColumns = NetColumns(
    netCo2Kg: real, netPm25Kg: real, netNoxKg: real,
    sequestrationEfficiency: Option<real>,
    pm25RemovalEfficiency: Option<real>,
    noxRemovalEfficiency: Option<real>)

  /** A row after the vehicular emissions stage. */
  datatype EmissionRow = EmissionRow(obs: Observation, emissions: EmissionColumns)

  /** A row after all three stages. */
  datatype EngineeredRow = EngineeredRow(
    obs: Observation, emissions: EmissionColumns, removal: RemovalColumns, net: NetColumns)

  const CANOPY_SQM_PER_SQKM: real := 150000.0
  const SECONDS_PER_DAY: real := 86400.0
  const KG_PER_UG: real := 0.000000001

  // ---------------------------------------------------------------------------
  // Vehicular emissions
  // ---------------------------------------------------------------------------

  /** Congestion raises per-km intensity: 1 at a free road, 1.5 at index 100. */
  function CongestionFactor(trafficIndex: real): real {
    1.0 + (trafficIndex / 100.0) * 0.5
  }

  /** Average trip distance, shrinking as congestion grows (no clamp). */
  function TripDistanceKm(trafficIndex: real): real {
    50.0 - trafficIndex / 2.0
  }

  /**
   * Vehicle-km travelled: 10% of vehicles active, times congestion, times trip
   * distance. Non-negative on the documented index range [0, 100]; since the
   * source does not clamp, an index above 100 gives a negative distance.
   */
  function TotalVkt(totalVehicles: real, trafficIndex: real): (vkt: real)
    ensures 0.0 <= trafficIndex <= 100.0 && totalVehicles >= 0.0 ==> vkt >= 0.0
    ensures trafficIndex > 100.0 && totalVehicles > 0.0 ==> vkt < 0.0
    ensures trafficIndex == 100.0 ==> vkt == 0.0
  {
    var active := totalVehicles * 0.1;
    VktSign(active, CongestionFactor(trafficIndex), TripDistanceKm(trafficIndex));
    active * CongestionFactor(trafficIndex) * TripDistanceKm(trafficIndex)
  }

  /** Sign of the product active × congestion × distance. */
  lemma VktSign(active: real, c: real, d: real)
    ensures active >= 0.0 && c >= 0.0 && d >= 0.0 ==> active * c * d >= 0.0
    ensures active > 0.0 && c > 0.0 && d < 0.0 ==> active * c * d < 0.0
  {
    if active >= 0.0 && c >= 0.0 && d >= 0.0 {
      MulNonNegative(active, c);
      MulNonNegative(active * c, d);
    }
    if active > 0.0 && c > 0.0 && d < 0.0 {
      assert active * c > 0.0;
    }
  }

  lemma MulNonNegative(x: real, y: real)
    requires x >= 0.0 && y >= 0.0
    ensures x * y >= 0.0
  {
  }

  /** Emission in kg of one class: VKT times the class share times its factor (g to kg). */
  function ClassEmissionKg(vkt: real, prop: real, p: Pollutant, c: VehicleClass): real {
    vkt * prop * EmissionFactor(p, c) / 1000.0
  }

  /** Fleet-averaged emission factor of a pollutant in g/km for the record's class shares. */
  function FleetFactor(o: Observation, p: Pollutant): real {
    o.carProp * EmissionFactor(p, Car)
    + o.truckProp * EmissionFactor(p, Truck)
    + o.twowheelerProp * EmissionFactor(p, TwoWheeler)
  }

  function Breakdown(o: Observation, vkt: real, p: Pollutant): ClassBreakdown {
    ClassBreakdown(
      ClassEmissionKg(vkt, o.carProp, p, Car),
      ClassEmissionKg(vkt, o.truckProp, p, Truck),
      ClassEmissionKg(vkt, o.twowheelerProp, p, TwoWheeler))
  }

  function Sum(b: ClassBreakdown): real {
    b.car + b.truck + b.twowheeler
  }

  /** The total emission column of a pollutant. */
  function EmissionKg(e: EmissionColumns, p: Pollutant): real {
    match p
    case CO2 => e.co2EmissionKg
    case PM25 => e.pm25EmissionKg
    case NOX => e.noxEmissionKg
  }

  /** The per-class columns of a pollutant. */
  function ClassColumns(e: EmissionColumns, p: Pollutant): ClassBreakdown {
    match p
    case CO2 => e.co2
    case PM25 => e.pm25
    case NOX => e.nox
  }

  /**
   * The vehicular emissions stage. Each pollutant total is the sum of its three
   * class terms, and equals VKT times the fleet-averaged factor, in kg.
   */
  function VehicularEmissions(o: Observation): (e: EmissionColumns)
    ensures e.totalVktKm == TotalVkt(o.totalVehicles, o.trafficIndex)
    ensures forall p :: EmissionKg(e, p) == Sum(ClassColumns(e, p))
    ensures forall p :: EmissionKg(e, p) == e.totalVktKm * FleetFactor(o, p) / 1000.0
  {
    var vkt := TotalVkt(o.totalVehicles, o.trafficIndex);
    var co2, pm25, nox := Breakdown(o, vkt, CO2), Breakdown(o, vkt, PM25), Breakdown(o, vkt, NOX);
    var e := EmissionColumns(vkt, co2, pm25, nox, Sum(co2), Sum(pm25), Sum(nox));
    forall p
      ensures EmissionKg(e, p) == Sum(ClassColumns(e, p))
      ensures EmissionKg(e, p) == vkt * FleetFactor(o, p) / 1000.0
    {
      assert ClassColumns(e, p) == Breakdown(o, vkt, p) && EmissionKg(e, p) == Sum(Breakdown(o, vkt, p));
      BreakdownTotal(o, vkt, p);
    }
    e
  }

  lemma BreakdownTotal(o: Observation, vkt: real, p: Pollutant)
    ensures Sum(Breakdown(o, vkt, p)) == vkt * FleetFactor(o, p) / 1000.0
  {
    var a, b, c := EmissionFactor(p, Car), EmissionFactor(p, Truck), EmissionFactor(p, TwoWheeler);
    calc {
      Sum(Breakdown(o, vkt, p));
      vkt * o.carProp * a / 1000.0 + vkt * o.truckProp * b / 1000.0 + vkt * o.twowheelerProp * c / 1000.0;
      { assert vkt * o.carProp * a + vkt * o.truckProp * b + vkt * o.twowheelerProp * c
          == vkt * (o.carProp * a + o.truckProp * b + o.twowheelerProp * c); }
      vkt * FleetFactor(o, p) / 1000.0;
    }
  }

  /** Inputs on which the model is documented to be meaningful. */
  predicate ValidObservation(o: Observation) {
    && 0.0 <= o.trafficIndex <= 100.0
    && o.totalVehicles >= 0.0
    && o.carProp >= 0.0 && o.truckProp >= 0.0 && o.twowheelerProp >= 0.0
    && o.medianNdvi >= 0.0
    && o.forestAreaSqkm >= 0.0
    && o.pm25AmbientUgM3 >= 0.0 && o.noxAmbientUgM3 >= 0.0
  }

  /** On a traffic index in [0, 100] every class term and every pollutant total is non-negative. */
  lemma EmissionsNonNegative(o: Observation, p: Pollutant)
    requires 0.0 <= o.trafficIndex <= 100.0 && o.totalVehicles >= 0.0
    requires o.carProp >= 0.0 && o.truckProp >= 0.0 && o.twowheelerProp >= 0.0
    ensures var e := VehicularEmissions(o);
      var b := ClassColumns(e, p);
      b.car >= 0.0 && b.truck >= 0.0 && b.twowheeler >= 0.0 && EmissionKg(e, p) >= 0.0
  {
    var e := VehicularEmissions(o);
    var vkt := e.totalVktKm;
    assert vkt >= 0.0;
    assert ClassColumns(e, p) == Breakdown(o, vkt, p);
    MulNonNegative(vkt, o.carProp);
    MulNonNegative(vkt * o.carProp, EmissionFactor(p, Car));
    MulNonNegative(vkt, o.truckProp);
    MulNonNegative(vkt * o.truckProp, EmissionFactor(p, Truck));
    MulNonNegative(vkt, o.twowheelerProp);
    MulNonNegative(vkt * o.twowheelerProp, EmissionFactor(p, TwoWheeler));
  }

  // ---------------------------------------------------------------------------
  // Sequestration and removal
  // ---------------------------------------------------------------------------

  /** numpy's clip: the nearest point of [lo, hi]. */
  function Clip(x: real, lo: real, hi: real): (r: real)
    requires lo <= hi
    ensures lo <= r <= hi
    ensures lo <= x <= hi ==> r == x
    ensures x < lo ==> r == lo
    ensures x > hi ==> r == hi
  {
    if x < lo then lo else if x > hi then hi else x
  }

  /**
   * NDVI health factor: linear up to the healthy ceiling, a flat 1.5 above it.
   * It never exceeds 1.5, is 1.5 exactly above the ceiling, and at or below the
   * ceiling it never exceeds 1 (the factor jumps from 1 to 1.5 at the ceiling).
   */
  function NdviFactor(ndvi: real): (f: real)
    ensures f <= 1.5
    ensures ndvi >= 0.0 ==> f >= 0.0
    ensures f == 1.5 <==> ndvi > MAX_NDVI_HEALTHY
    ensures ndvi <= MAX_NDVI_HEALTHY ==> f * MAX_NDVI_HEALTHY == ndvi && f <= 1.0
  {
    if ndvi > MAX_NDVI_HEALTHY then 1.5 else ndvi / MAX_NDVI_HEALTHY
  }

  /** A healthier canopy never lowers the NDVI factor. */
  lemma NdviFactorMonotone(a: real, b: real)
    requires a <= b
    ensures NdviFactor(a) <= NdviFactor(b)
  {
  }

  /** The unclipped temperature stress curve: flat on [20, 30], linear outside. */
  function TempStress(t: real): real {
    if 20.0 <= t <= 30.0 then 1.0
    else if t < 20.0 then 0.7 + (t / 20.0) * 0.3
    else 1.0 - ((t - 30.0) / 20.0) * 0.5
  }

  /**
   * Temperature stress factor, clipped to [0.3, 1.2]. Its largest value is 1,
   * so the upper clip never applies, and it is 1 exactly on [20, 30] °C.
   */
  function TempFactor(t: real): (f: real)
    ensures 0.3 <= f <= 1.0
    ensures f == 1.0 <==> 20.0 <= t <= 30.0
  {
    Clip(TempStress(t), 0.3, 1.2)
  }

  /** The unclipped humidity stress curve: flat on [60, 80], linear outside. */
  function HumidityStress(h: real): real {
    if 60.0 <= h <= 80.0 then 1.0
    else if h < 60.0 then 0.5 + (h / 60.0) * 0.5
    else 1.0 - ((h - 80.0) / 20.0) * 0.3
  }

  /**
   * Humidity stress factor, clipped to [0.4, 1.1]. Its largest value is 1, so
   * the upper clip never applies, and it is 1 exactly on [60, 80] %.
   */
  function HumidityFactor(h: real): (f: real)
    ensures 0.4 <= f <= 1.0
    ensures f == 1.0 <==> 60.0 <= h <= 80.0
  {
    Clip(HumidityStress(h), 0.4, 1.1)
  }

  function Abs(x: real): real {
    if x < 0.0 then -x else x
  }

  /**
   * The temperature factor is continuous everywhere, in particular at 20 °C and
   * 30 °C where the branches meet: it changes by at most 1/40 per degree.
   */
  lemma TempFactorLipschitz(x: real, y: real)
    requires x <= y
    ensures Abs(TempFactor(y) - TempFactor(x)) <= (y - x) / 40.0
  {
    StressLipschitz(x, y);
    ClipLipschitz(TempStress(x), TempStress(y), 0.3, 1.2);
  }

  lemma StressLipschitz(x: real, y: real)
    requires x <= y
    ensures Abs(TempStress(y) - TempStress(x)) <= (y - x) / 40.0
    ensures Abs(HumidityStress(y) - HumidityStress(x)) <= (y - x) * 3.0 / 200.0
  {
  }

  lemma ClipLipschitz(a: real, b: real, lo: real, hi: real)
    requires lo <= hi
    ensures Abs(Clip(b, lo, hi) - Clip(a, lo, hi)) <= Abs(b - a)
  {
  }

  /** The humidity factor is continuous everywhere: it changes by at most 0.015 per percent. */
  lemma HumidityFactorLipschitz(x: real, y: real)
    requires x <= y
    ensures Abs(HumidityFactor(y) - HumidityFactor(x)) <= (y - x) * 3.0 / 200.0
  {
    StressLipschitz(x, y);
    ClipLipschitz(HumidityStress(x), HumidityStress(y), 0.4, 1.1);
  }

  /** Below 20 °C the factor rises with temperature; above 30 °C it falls. */
  lemma TempFactorUnimodal(x: real, y: real)
    requires x <= y
    ensures y <= 20.0 ==> TempFactor(x) <= TempFactor(y)
    ensures 30.0 <= x ==> TempFactor(x) >= TempFactor(y)
  {
  }

  /** Wind adjustment of deposition: a step function, 0.7 below 1 m/s, 1.3 above 5 m/s, else 1. */
  function WindEffect(wind: real): (m: real)
    ensures m == 0.7 <==> wind < 1.0
    ensures m == 1.3 <==> wind > 5.0
    ensures m == 1.0 <==> 1.0 <= wind <= 5.0
  {
    if wind < 1.0 then 0.7 else if wind > 5.0 then 1.3 else 1.0
  }

  /** More wind never lowers the deposition multiplier. */
  lemma WindEffectMonotone(a: real, b: real)
    requires a <= b
    ensures WindEffect(a) <= WindEffect(b)
  {
  }

  /**
   * CO2 sequestered per km² of forest per day: the base rate scaled by the three
   * health and stress factors; at most 1.5 times the base rate.
   */
  function SequestrationRate(ndvi: real, temp: real, humidity: real): (rate: real)
    ensures ndvi >= 0.0 ==> rate >= 0.0
    ensures rate <= CO2_BASE_KG_SQKM_DAY * 1.5
  {
    var rate := CO2_BASE_KG_SQKM_DAY * NdviFactor(ndvi) * TempFactor(temp) * HumidityFactor(humidity);
    ProductBounds(CO2_BASE_KG_SQKM_DAY, NdviFactor(ndvi), TempFactor(temp), HumidityFactor(humidity), rate);
    rate
  }

  /** CO2 sequestered in kg/day by a forest area. */
  function Co2SequesteredKg(area: real, ndvi: real, temp: real, humidity: real): (kg: real)
    ensures area >= 0.0 && ndvi >= 0.0 ==> kg >= 0.0
    ensures area >= 0.0 ==> kg <= area * CO2_BASE_KG_SQKM_DAY * 1.5
  {
    var rate := SequestrationRate(ndvi, temp, humidity);
    if area >= 0.0 then
      MulLe(area, rate, CO2_BASE_KG_SQKM_DAY * 1.5);
      (if ndvi >= 0.0 then MulNonNegative(area, rate); area * rate else area * rate)
    else area * rate
  }

  /** Bounds of base × fn × ft × fh for stress factors in [0, 1] and an NDVI factor at most 1.5. */
  lemma ProductBounds(base: real, fn: real, ft: real, fh: real, y: real)
    requires 0.0 <= ft <= 1.0 && 0.0 <= fh <= 1.0 && fn <= 1.5
    requires y == base * fn * ft * fh
    ensures base >= 0.0 && fn >= 0.0 ==> y >= 0.0
    ensures base >= 0.0 ==> y <= base * 1.5
  {
    if base >= 0.0 {
      MulBounded(ft, fh);
      var q := ft * fh;
      MulNonNegative(base, q);
      if fn >= 0.0 {
        MulNonNegative(base * q, fn);
      }
      MulLe(base * q, fn, 1.5);
      MulLe(base * 1.5, q, 1.0);
      calc {
        y;
        (base * q) * fn;
      <= (base * q) * 1.5;
        (base * 1.5) * q;
      <= (base * 1.5) * 1.0;
        base * 1.5;
      }
    }
  }

  lemma MulBounded(x: real, y: real)
    requires 0.0 <= x <= 1.0 && 0.0 <= y <= 1.0
    ensures 0.0 <= x * y <= 1.0
  {
    MulNonNegative(x, y);
    MulLe(x, y, 1.0);
    assert x * 1.0 == x;
  }

  lemma MulLe(k: real, a: real, b: real)
    requires k >= 0.0 && a <= b
    ensures k * a <= k * b
  {
    MulNonNegative(k, b - a);
    assert k * (b - a) == k * b - k * a;
  }

  /** The removal rate per km² of forest in kg/day, which does not depend on the area. */
  function RemovalPerSqkm(depositionVelocity: real, wind: real, ambientUgM3: real): (rate: real)
    ensures depositionVelocity >= 0.0 && ambientUgM3 >= 0.0 ==> rate >= 0.0
  {
    var v := depositionVelocity * WindEffect(wind);
    var c := ambientUgM3 * KG_PER_UG;
    NonNegativeProduct4(CANOPY_SQM_PER_SQKM, v, c, SECONDS_PER_DAY);
    CANOPY_SQM_PER_SQKM * v * c * SECONDS_PER_DAY
  }

  /** The deposition removal in kg/day of one pollutant over a forest area. */
  function RemovalKg(area: real, depositionVelocity: real, wind: real, ambientUgM3: real): (kg: real)
    ensures area >= 0.0 && depositionVelocity >= 0.0 && ambientUgM3 >= 0.0 ==> kg >= 0.0
  {
    var rate := RemovalPerSqkm(depositionVelocity, wind, ambientUgM3);
    if area >= 0.0 && rate >= 0.0 then MulNonNegative(area, rate); area * rate else area * rate
  }

  lemma NonNegativeProduct4(a: real, b: real, c: real, d: real)
    ensures a >= 0.0 && b >= 0.0 && c >= 0.0 && d >= 0.0 ==> a * b * c * d >= 0.0
  {
    if a >= 0.0 && b >= 0.0 && c >= 0.0 && d >= 0.0 {
      MulNonNegative(a, b);
      MulNonNegative(a * b, c);
      MulNonNegative(a * b * c, d);
    }
  }

  /** Removal is linear in the forest area. */
  lemma RemovalLinearInArea(a1: real, a2: real, k: real, v: real, wind: real, conc: real)
    ensures RemovalKg(a1 + a2, v, wind, conc) == RemovalKg(a1, v, wind, conc) + RemovalKg(a2, v, wind, conc)
    ensures RemovalKg(k * a1, v, wind, conc) == k * RemovalKg(a1, v, wind, conc)
  {
    var r := RemovalPerSqkm(v, wind, conc);
    assert (a1 + a2) * r == a1 * r + a2 * r;
    assert (k * a1) * r == k * (a1 * r);
  }

  /** The per-km² removal rate is proportional to the ambient concentration. */
  lemma RemovalRateProportional(v: real, wind: real, conc: real)
    ensures RemovalPerSqkm(v, wind, conc) == RemovalPerSqkm(v, wind, 1.0) * conc
  {
    var w := v * WindEffect(wind);
    calc {
      RemovalPerSqkm(v, wind, conc);
      CANOPY_SQM_PER_SQKM * w * (conc * KG_PER_UG) * SECONDS_PER_DAY;
      (CANOPY_SQM_PER_SQKM * w * (1.0 * KG_PER_UG) * SECONDS_PER_DAY) * conc;
      RemovalPerSqkm(v, wind, 1.0) * conc;
    }
  }

  /** Removal is linear in the ambient concentration. */
  lemma RemovalLinearInConcentration(area: real, v: real, wind: real, c1: real, c2: real, k: real)
    ensures RemovalKg(area, v, wind, c1 + c2) == RemovalKg(area, v, wind, c1) + RemovalKg(area, v, wind, c2)
    ensures RemovalKg(area, v, wind, k * c1) == k * RemovalKg(area, v, wind, c1)
  {
    var unit := RemovalPerSqkm(v, wind, 1.0);
    RemovalRateProportional(v, wind, c1);
    RemovalRateProportional(v, wind, c2);
    RemovalRateProportional(v, wind, c1 + c2);
    RemovalRateProportional(v, wind, k * c1);
    assert area * (unit * (c1 + c2)) == area * (unit * c1) + area * (unit * c2);
    assert area * (unit * (k * c1)) == k * (area * (unit * c1));
  }

  /** The sequestration and removal stage. */
  function SequestrationAndRemoval(o: Observation): (s: RemovalColumns)
    ensures s.fNdvi == NdviFactor(o.medianNdvi) && s.fTemp == TempFactor(o.maxTempC)
    ensures s.fHumidity == HumidityFactor(o.humidityPct)
    ensures s.co2SequesteredKg == Co2SequesteredKg(o.forestAreaSqkm, o.medianNdvi, o.maxTempC, o.humidityPct)
    ensures s.canopyAreaSqm == o.forestAreaSqkm * CANOPY_SQM_PER_SQKM
    ensures s.pm25RemovedKg == RemovalKg(o.forestAreaSqkm, PM25_DEPOSITION_VELOCITY_MS, o.windSpeedMs, o.pm25AmbientUgM3)
    ensures s.noxRemovedKg == RemovalKg(o.forestAreaSqkm, NOX_DEPOSITION_VELOCITY_MS, o.windSpeedMs, o.noxAmbientUgM3)
  {
    var ndviMax := MAX_NDVI_HEALTHY;
    var fNdvi := if o.medianNdvi > ndviMax then 1.5 else o.medianNdvi / ndviMax;
    var fTemp := Clip(TempStress(o.maxTempC), 0.3, 1.2);
    var fHumidity := Clip(HumidityStress(o.humidityPct), 0.4, 1.1);
    var sequestered := o.forestAreaSqkm * CO2_BASE_KG_SQKM_DAY * fNdvi * fTemp * fHumidity;
    var pm25KgM3 := o.pm25AmbientUgM3 * KG_PER_UG;
    var noxKgM3 := o.noxAmbientUgM3 * KG_PER_UG;
    var canopy := o.forestAreaSqkm * CANOPY_SQM_PER_SQKM;
    var windEffect := WindEffect(o.windSpeedMs);
    var pm25 := canopy * (PM25_DEPOSITION_VELOCITY_MS * windEffect) * pm25KgM3 * SECONDS_PER_DAY;
    var nox := canopy * (NOX_DEPOSITION_VELOCITY_MS * windEffect) * noxKgM3 * SECONDS_PER_DAY;
    RemovalColumns(fNdvi, fTemp, fHumidity, sequestered, pm25KgM3, noxKgM3, canopy, pm25, nox)
  }

  // ---------------------------------------------------------------------------
  // Net values
  // ---------------------------------------------------------------------------

  /** removed / area, missing (NaN or infinite in the source) when the area is zero. */
  function Efficiency(removed: real, area: real): (r: Option<real>)
    ensures r.None? <==> area == 0.0
    ensures r.Some? ==> r.value * area == removed
  {
    if area == 0.0 then None else Some(removed / area)
  }

  /** The net stage: emission minus removal per pollutant (may be negative), plus efficiencies. */
  function NetPollutants(e: EmissionColumns, s: RemovalColumns, area: real): (n: NetColumns)
    ensures n.netCo2Kg + s.co2SequesteredKg == e.co2EmissionKg
    ensures n.netPm25Kg + s.pm25RemovedKg == e.pm25EmissionKg
    ensures n.netNoxKg + s.noxRemovedKg == e.noxEmissionKg
    ensures n.netCo2Kg < 0.0 <==> s.co2SequesteredKg > e.co2EmissionKg
    ensures n.sequestrationEfficiency == Efficiency(s.co2SequesteredKg, area)
    ensures n.pm25RemovalEfficiency == Efficiency(s.pm25RemovedKg, area)
    ensures n.noxRemovalEfficiency == Efficiency(s.noxRemovedKg, area)
  {
    NetColumns(
      e.co2EmissionKg - s.co2SequesteredKg,
      e.pm25EmissionKg - s.pm25RemovedKg,
      e.noxEmissionKg - s.noxRemovedKg,
      if area == 0.0 then None else Some(s.co2SequesteredKg / area),
      if area == 0.0 then None else Some(s.pm25RemovedKg / area),
      if area == 0.0 then None else Some(s.noxRemovedKg / area))
  }

  /** All three stages on one record, in the order of the module-level pipeline. */
  function Engineer(o: Observation): (r: EngineeredRow)
    ensures r.obs == o
  {
    var e := VehicularEmissions(o);
    var s := SequestrationAndRemoval(o);
    EngineeredRow(o, e, s, NetPollutants(e, s, o.forestAreaSqkm))
  }

  /** On a positive area the sequestration efficiency is the per-km² rate, independent of the area. */
  lemma SequestrationEfficiencyIsRate(o: Observation)
    requires o.forestAreaSqkm > 0.0
    ensures Engineer(o).net.sequestrationEfficiency
      == Some(SequestrationRate(o.medianNdvi, o.maxTempC, o.humidityPct))
  {
    var a := o.forestAreaSqkm;
    var total := SequestrationAndRemoval(o).co2SequesteredKg;
    var rate := SequestrationRate(o.medianNdvi, o.maxTempC, o.humidityPct);
    assert total == a * rate;
    DivideOut(a, rate, total);
    assert Engineer(o).net.sequestrationEfficiency == Efficiency(total, a);
  }

  /** On a positive area the PM2.5 and NOx removal efficiencies are the per-km² removal rates. */
  lemma RemovalEfficiencyIsRate(o: Observation)
    requires o.forestAreaSqkm > 0.0
    ensures Engineer(o).net.pm25RemovalEfficiency
      == Some(RemovalPerSqkm(PM25_DEPOSITION_VELOCITY_MS, o.windSpeedMs, o.pm25AmbientUgM3))
    ensures Engineer(o).net.noxRemovalEfficiency
      == Some(RemovalPerSqkm(NOX_DEPOSITION_VELOCITY_MS, o.windSpeedMs, o.noxAmbientUgM3))
  {
    var a := o.forestAreaSqkm;
    var s := SequestrationAndRemoval(o);
    var pm25 := RemovalPerSqkm(PM25_DEPOSITION_VELOCITY_MS, o.windSpeedMs, o.pm25AmbientUgM3);
    var nox := RemovalPerSqkm(NOX_DEPOSITION_VELOCITY_MS, o.windSpeedMs, o.noxAmbientUgM3);
    assert s.pm25RemovedKg == a * pm25;
    assert s.noxRemovedKg == a * nox;
    DivideOut(a, pm25, s.pm25RemovedKg);
    DivideOut(a, nox, s.noxRemovedKg);
    assert Engineer(o).net == NetPollutants(VehicularEmissions(o), s, a);
  }

  lemma DivideOut(a: real, rate: real, total: real)
    requires a != 0.0 && total == a * rate
    ensures Efficiency(total, a) == Some(rate)
  {
    assert total / a == rate;
  }

  /**
   * On a valid record gross emission and removal are non-negative, so each net
   * value lies between minus the removal and the gross emission.
   */
  lemma ValidRecordBounds(o: Observation)
    requires ValidObservation(o)
    ensures var r := Engineer(o);
      && r.emissions.co2EmissionKg >= 0.0 && r.emissions.pm25EmissionKg >= 0.0 && r.emissions.noxEmissionKg >= 0.0
      && r.removal.co2SequesteredKg >= 0.0 && r.removal.pm25RemovedKg >= 0.0 && r.removal.noxRemovedKg >= 0.0
      && -r.removal.co2SequesteredKg <= r.net.netCo2Kg <= r.emissions.co2EmissionKg
      && -r.removal.pm25RemovedKg <= r.net.netPm25Kg <= r.emissions.pm25EmissionKg
      && -r.removal.noxRemovedKg <= r.net.netNoxKg <= r.emissions.noxEmissionKg
  {
    EmissionsNonNegative(o, CO2);
    EmissionsNonNegative(o, PM25);
    EmissionsNonNegative(o, NOX);
  }

  /**
   * A worked record: 35.2 km² of forest at NDVI 0.45, 32 °C and 65 % humidity
   * sequesters 35.2 × 1500 × 0.5625 × 0.95 × 1 = 28215 kg of CO2 per day.
   */
  lemma SequestrationExample()
    ensures NdviFactor(0.45) == 0.5625 && TempFactor(32.0) == 0.95 && HumidityFactor(65.0) == 1.0
    ensures Co2SequesteredKg(35.2, 0.45, 32.0, 65.0) == 28215.0
  {
  }

  // ---------------------------------------------------------------------------
  // Frame-level wrappers
  // ---------------------------------------------------------------------------

  /** The module-level emissions wrapper: every row keeps its columns and gains the emission columns. */
  function CalculateVehicularEmissions(df: seq<Observation>): (r: seq<EmissionRow>)
    ensures |r| == |df|
    ensures forall i :: 0 <= i < |df| ==> r[i].obs == df[i] && r[i].emissions == VehicularEmissions(df[i])
  {
    seq(|df|, i requires 0 <= i < |df| => EmissionRow(df[i], VehicularEmissions(df[i])))
  }

  /** The module-level pipeline wrapper: emissions, then removal, then net values, row by row. */
  function CalculateSequestrationAndRemoval(df: seq<Observation>): (r: seq<EngineeredRow>)
    ensures |r| == |df|
    ensures forall i :: 0 <= i < |df| ==> r[i].obs == df[i] && r[i] == Engineer(df[i])
  {
    seq(|df|, i requires 0 <= i < |df| => Engineer(df[i]))
  }
}
