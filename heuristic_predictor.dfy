/**
 * The serverless heuristic estimator: each policy lever scales the city's base
 * net values by a floored factor, traffic acting on every pollutant,
 * afforestation on CO2 only and the fleet upgrade on PM2.5 and NOx only.
 */
module HeuristicPredictor {
  import opened Rounding

  /** Base net values of a city: CO2, PM2.5, NOx. */
  datatype BaseValues = BaseValues(co2: real, pm25: real, nox: real)

  const BASE_VALUES: map<string, BaseValues> := map[
    "delhi" := BaseValues(35000.0, 150.0, 280.0),
    "mumbai" := BaseValues(28000.0, 120.0, 220.0),
    "bengaluru" := BaseValues(32000.0, 130.0, 240.0),
    "chennai" := BaseValues(25000.0, 110.0, 200.0),
    "kolkata" := BaseValues(22000.0, 100.0, 180.0)
  ]

  /** The request parameters echoed back. */
  datatype Parameters = Parameters(trafficReduction: real, afforestation: real, bsUpgrade: real)

  /** The rounded results: CO2 to whole units, PM2.5 and NOx to hundredths. */
  datatype Results = Results(
    netCo2: int, netPm25: real, netNox: real,
    co2Reduction: int, pm25Reduction: real, noxReduction: real)

  /** The whole response of predict_impact. */
  datatype Prediction = Prediction(success: bool, timestamp: string, city: string, parameters: Parameters, results: Results)

  /** The base values of a city, Delhi's for a city the table does not list. */
  function Base(city: string): (b: BaseValues)
    ensures city in BASE_VALUES ==> b == BASE_VALUES[city]
    ensures city !in BASE_VALUES ==> b == BASE_VALUES["delhi"]
    ensures b.co2 > 0.0 && b.pm25 > 0.0 && b.nox > 0.0
  {
    if city in BASE_VALUES then BASE_VALUES[city] else BASE_VALUES["delhi"]
  }

  function Max(a: real, b: real): (m: real)
    ensures m >= a && m >= b && (m == a || m == b)
  {
    if a < b then b else a
  }

  /** max(floor, 1 − p/100 × slope): at least the floor, at most 1 for p ≥ 0. */
  function Impact(floor: real, slope: real, p: real): (f: real)
    requires 0.0 < floor < 1.0 && slope > 0.0
    ensures f >= floor
    ensures p >= 0.0 ==> f <= 1.0
    ensures p == 0.0 ==> f == 1.0
  {
    Max(floor, 1.0 - (p / 100.0) * slope)
  }

  function TrafficImpact(trafficReduction: real): real { Impact(0.5, 0.7, trafficReduction) }
  function ForestImpact(afforestation: real): real { Impact(0.3, 0.4, afforestation) }
  function UpgradeImpact(bsUpgrade: real): real { Impact(0.4, 0.6, bsUpgrade) }

  /** Each impact factor is non-increasing in its parameter. */
  lemma ImpactMonotone(floor: real, slope: real, p: real, q: real)
    requires 0.0 < floor < 1.0 && slope > 0.0 && p <= q
    ensures Impact(floor, slope, q) <= Impact(floor, slope, p)
  {
    assert (p / 100.0) * slope <= (q / 100.0) * slope;
  }

  /** A city's base values scaled by the three impact factors: traffic on all, forest on CO2, upgrade on PM2.5 and NOx. */
  function Scale(base: BaseValues, traffic: real, forest: real, upgrade: real): BaseValues
  {
    BaseValues(base.co2 * traffic * forest, base.pm25 * traffic * upgrade, base.nox * traffic * upgrade)
  }

  /** The net values before rounding. */
  function NetValues(city: string, trafficReduction: real, afforestation: real, bsUpgrade: real): (n: BaseValues)
  {
    Scale(Base(city), TrafficImpact(trafficReduction), ForestImpact(afforestation), UpgradeImpact(bsUpgrade))
  }

  /** predict_impact: the parameters echoed, the net values and the reductions, rounded. */
  function PredictImpact(city: string, trafficReduction: real, afforestation: real, bsUpgrade: real, timestamp: string)
    : (p: Prediction)
    ensures p.success && p.city == city && p.timestamp == timestamp
    ensures p.parameters == Parameters(trafficReduction, afforestation, bsUpgrade)
    ensures var n := NetValues(city, trafficReduction, afforestation, bsUpgrade);
      && n.co2 - 0.5 <= p.results.netCo2 as real <= n.co2 + 0.5
      && n.pm25 - 0.005 <= p.results.netPm25 <= n.pm25 + 0.005
      && n.nox - 0.005 <= p.results.netNox <= n.nox + 0.005
    ensures var b := Base(city); var n := NetValues(city, trafficReduction, afforestation, bsUpgrade);
      && b.co2 - n.co2 - 0.5 <= p.results.co2Reduction as real <= b.co2 - n.co2 + 0.5
      && b.pm25 - n.pm25 - 0.005 <= p.results.pm25Reduction <= b.pm25 - n.pm25 + 0.005
      && b.nox - n.nox - 0.005 <= p.results.noxReduction <= b.nox - n.nox + 0.005
  {
    var base := Base(city);
    var n := NetValues(city, trafficReduction, afforestation, bsUpgrade);
    Prediction(true, timestamp, city, Parameters(trafficReduction, afforestation, bsUpgrade),
      Results(
        RoundHalfEven(n.co2), RoundTo2(n.pm25), RoundTo2(n.nox),
        RoundHalfEven(base.co2 - n.co2), RoundTo2(base.pm25 - n.pm25), RoundTo2(base.nox - n.nox)))
  }

  /** With every lever at 0 the net values are the city's base values and every reduction is 0. */
  lemma NoPolicyKeepsBase(city: string, ts: string)
    ensures NetValues(city, 0.0, 0.0, 0.0) == Base(city)
    ensures var r := PredictImpact(city, 0.0, 0.0, 0.0, ts).results;
      r.co2Reduction == 0 && r.pm25Reduction == 0.0 && r.noxReduction == 0.0
  {
    RoundTo2Exact(0.0);
  }

  /** Net CO2 ignores the fleet upgrade; net PM2.5 and NOx ignore afforestation. */
  lemma LeversAreSeparable(city: string, t: real, a: real, a': real, b: real, b': real)
    ensures NetValues(city, t, a, b).co2 == NetValues(city, t, a, b').co2
    ensures NetValues(city, t, a, b).pm25 == NetValues(city, t, a', b).pm25
    ensures NetValues(city, t, a, b).nox == NetValues(city, t, a', b).nox
  {
  }

  /** For non-negative levers no net value exceeds the city's base value. */
  lemma NetValuesBelowBase(city: string, t: real, a: real, b: real)
    requires t >= 0.0 && a >= 0.0 && b >= 0.0
    ensures var n, base := NetValues(city, t, a, b), Base(city);
      base.co2 - n.co2 >= 0.0 && base.pm25 - n.pm25 >= 0.0 && base.nox - n.nox >= 0.0
  {
    ScaleBelow(Base(city), TrafficImpact(t), ForestImpact(a), UpgradeImpact(b));
  }

  /** For non-negative levers every reported reduction is non-negative. */
  lemma ReductionsNonNegative(city: string, t: real, a: real, b: real, ts: string)
    requires t >= 0.0 && a >= 0.0 && b >= 0.0
    ensures var r := PredictImpact(city, t, a, b, ts).results;
      r.co2Reduction >= 0 && r.pm25Reduction >= 0.0 && r.noxReduction >= 0.0
  {
    NetValuesBelowBase(city, t, a, b);
    var base, n := Base(city), NetValues(city, t, a, b);
    RoundHalfEvenNonNegative(base.co2 - n.co2);
    RoundTo2NonNegative(base.pm25 - n.pm25);
    RoundTo2NonNegative(base.nox - n.nox);
  }

  /** Factors in [0, 1] scale non-negative base values down. */
  lemma ScaleBelow(base: BaseValues, traffic: real, forest: real, upgrade: real)
    requires base.co2 >= 0.0 && base.pm25 >= 0.0 && base.nox >= 0.0
    requires 0.0 <= traffic <= 1.0 && 0.0 <= forest <= 1.0 && 0.0 <= upgrade <= 1.0
    ensures var n := Scale(base, traffic, forest, upgrade);
      n.co2 <= base.co2 && n.pm25 <= base.pm25 && n.nox <= base.nox
  {
    var n := Scale(base, traffic, forest, upgrade);
    ScaledDown(base.co2, traffic, forest, n.co2);
    ScaledDown(base.pm25, traffic, upgrade, n.pm25);
    ScaledDown(base.nox, traffic, upgrade, n.nox);
  }

  /** A non-negative amount scaled by two factors in [0, 1] does not grow. */
  lemma ScaledDown(x: real, f: real, g: real, y: real)
    requires x >= 0.0 && 0.0 <= f <= 1.0 && 0.0 <= g <= 1.0 && y == x * f * g
    ensures y <= x
  {
    assert 0.0 <= x * f <= x;
    assert 0.0 <= (x * f) * g <= x * f;
  }

  /** Smaller non-negative factors give smaller or equal net values. */
  lemma ScaleMonotone(base: BaseValues, t1: real, t2: real, f1: real, f2: real, u1: real, u2: real)
    requires base.co2 >= 0.0 && base.pm25 >= 0.0 && base.nox >= 0.0
    requires 0.0 <= t1 <= t2 && 0.0 <= f1 <= f2 && 0.0 <= u1 <= u2
    ensures var n1, n2 := Scale(base, t1, f1, u1), Scale(base, t2, f2, u2);
      n1.co2 <= n2.co2 && n1.pm25 <= n2.pm25 && n1.nox <= n2.nox
  {
    var n1, n2 := Scale(base, t1, f1, u1), Scale(base, t2, f2, u2);
    Grows(base.co2, t1, t2, f1, f2, n1.co2, n2.co2);
    Grows(base.pm25, t1, t2, u1, u2, n1.pm25, n2.pm25);
    Grows(base.nox, t1, t2, u1, u2, n1.nox, n2.nox);
  }

  /** x × f × g does not shrink when the non-negative factors f and g grow. */
  lemma Grows(x: real, f1: real, f2: real, g1: real, g2: real, y1: real, y2: real)
    requires x >= 0.0 && 0.0 <= f1 <= f2 && 0.0 <= g1 <= g2
    requires y1 == x * f1 * g1 && y2 == x * f2 * g2
    ensures y1 <= y2
  {
    assert 0.0 <= x * f1 <= x * f2;
    assert (x * f1) * g1 <= (x * f1) * g2;
    assert (x * f1) * g2 <= (x * f2) * g2;
  }

  /** A larger traffic reduction never raises any net value. */
  lemma TrafficMonotone(city: string, t1: real, t2: real, a: real, b: real)
    requires t1 <= t2
    ensures NetValues(city, t2, a, b).co2 <= NetValues(city, t1, a, b).co2
    ensures NetValues(city, t2, a, b).pm25 <= NetValues(city, t1, a, b).pm25
    ensures NetValues(city, t2, a, b).nox <= NetValues(city, t1, a, b).nox
  {
    ImpactMonotone(0.5, 0.7, t1, t2);
    var fi, ui := ForestImpact(a), UpgradeImpact(b);
    ScaleMonotone(Base(city), TrafficImpact(t2), TrafficImpact(t1), fi, fi, ui, ui);
  }

  /** More afforestation never raises net CO2. */
  lemma AfforestationMonotone(city: string, t: real, a1: real, a2: real, b: real)
    requires a1 <= a2
    ensures NetValues(city, t, a2, b).co2 <= NetValues(city, t, a1, b).co2
  {
    ImpactMonotone(0.3, 0.4, a1, a2);
    var ti, ui := TrafficImpact(t), UpgradeImpact(b);
    ScaleMonotone(Base(city), ti, ti, ForestImpact(a2), ForestImpact(a1), ui, ui);
  }

  /** A larger fleet upgrade never raises net PM2.5 or NOx. */
  lemma UpgradeMonotone(city: string, t: real, a: real, b1: real, b2: real)
    requires b1 <= b2
    ensures NetValues(city, t, a, b2).pm25 <= NetValues(city, t, a, b1).pm25
    ensures NetValues(city, t, a, b2).nox <= NetValues(city, t, a, b1).nox
  {
    ImpactMonotone(0.4, 0.6, b1, b2);
    var ti, fi := TrafficImpact(t), ForestImpact(a);
    ScaleMonotone(Base(city), ti, ti, fi, fi, UpgradeImpact(b2), UpgradeImpact(b1));
  }

  /** A city missing from the table is given Delhi's values. */
  lemma UnknownCityFallsBackToDelhi(city: string, t: real, a: real, b: real)
    requires city !in BASE_VALUES
    ensures NetValues(city, t, a, b) == NetValues("delhi", t, a, b)
  {
  }

  /** Delhi with a 20% traffic cut, 10 sq km of new forest and a 50% fleet upgrade. */
  lemma DelhiExample(ts: string)
    ensures NetValues("delhi", 20.0, 10.0, 50.0) == BaseValues(28896.0, 90.3, 168.56)
    ensures PredictImpact("delhi", 20.0, 10.0, 50.0, ts).results == Results(28896, 90.3, 168.56, 6104, 59.7, 111.44)
  {
    assert TrafficImpact(20.0) == 0.86;
    assert ForestImpact(10.0) == 0.96;
    assert UpgradeImpact(50.0) == 0.7;
    assert IsWhole(28896.0) && IsWhole(6104.0);
    RoundTo2Exact(90.3);
    RoundTo2Exact(168.56);
    RoundTo2Exact(59.7);
    RoundTo2Exact(111.44);
  }
}
