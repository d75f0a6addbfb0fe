/**
 * The policy-scenario transform and the baseline-versus-scenario comparison of
 * the prediction service: a feature record is derived from the request with or
 * without the policy levers applied, both records go through the same trained
 * predictor, and the difference of the two predictions (in tonnes) is the
 * policy impact.
 */
module PolicyApi {
  import opened Wrappers
  import opened TimeFeatures

  /** The request: current conditions of one ward plus the three policy levers. */
  datatype PolicyInput = PolicyInput(
    cityId: string, wardId: string,
    trafficIndex: real, avgSpeedKph: real,
    medianNdvi: real, forestAreaSqkm: real,
    maxTempC: real, humidityPct: real, windSpeedMs: real,
    pm25AmbientUgM3: real, noxAmbientUgM3: real,
    trafficReductionPct: real, afforestationIncreaseSqkm: real, bsNormUpgradePct: real)

  /** The feature dictionary handed to the predictor. */
  datatype FeatureRecord = FeatureRecord(
    trafficIndex: real, avgSpeedKph: real,
    maxTempC: real, humidityPct: real, windSpeedMs: real,
    medianNdvi: real, forestAreaSqkm: real,
    pm25AmbientUgM3: real, noxAmbientUgM3: real,
    cityId: string, wardId: string,
    time: TimeColumns,
    trafficRollingMean7: real, trafficRollingStd7: real,
    ndviRollingMean7: real, tempRollingMean7: real)

  /** Net CO2, PM2.5 and NOx of one prediction. */
  datatype PollutantTriple = PollutantTriple(co2: real, pm25: real, nox: real)

  /** The errors the endpoint reports (both as HTTP 500). */
  datatype ApiError = ModelNotLoaded | DivisionByZero

  /** The response: scenario net values in tonnes/day and the policy impact per pollutant. */
  datatype PredictionResponse = PredictionResponse(
    city: string,
    netCo2TonnesDay: real, netPm25TonnesDay: real, netNoxTonnesDay: real,
    policyImpactCo2: real, policyImpactPm25: real, policyImpactNox: real)

  const SPEED_CAP_KPH: real := 70.0

  function Min(a: real, b: real): (m: real)
    ensures m <= a && m <= b && (m == a || m == b)
  {
    if b < a then b else a
  }

  /**
   * The feature record of a request. Only a traffic reduction of exactly 100 %
   * fails (the speed division by a zero reduction factor); the BS-norm upgrade
   * lever never changes a field; the rolling proxies are fixed multiples of the
   * post-policy values.
   */
  function FeatureDict(data: PolicyInput, applyPolicies: bool, now: CalendarDate): (r: Result<FeatureRecord, ApiError>)
    ensures r.Failure? <==> applyPolicies && data.trafficReductionPct == 100.0
    ensures r.Failure? ==> r.error == DivisionByZero
    ensures r.Success? ==>
      var f := r.value;
      && f.maxTempC == data.maxTempC && f.humidityPct == data.humidityPct
      && f.windSpeedMs == data.windSpeedMs && f.medianNdvi == data.medianNdvi
      && f.pm25AmbientUgM3 == data.pm25AmbientUgM3 && f.noxAmbientUgM3 == data.noxAmbientUgM3
      && f.cityId == data.cityId && f.wardId == data.wardId
      && f.time == TimeColumnsOf(now)
      && f.trafficRollingMean7 == f.trafficIndex * 0.95 && f.trafficRollingStd7 == f.trafficIndex * 0.1
      && f.ndviRollingMean7 == f.medianNdvi * 1.02 && f.tempRollingMean7 == f.maxTempC * 0.98
    ensures applyPolicies && 0.0 < data.trafficReductionPct && data.trafficReductionPct != 100.0 ==>
      var k := 1.0 - data.trafficReductionPct / 100.0;
      && r.value.trafficIndex == data.trafficIndex * k
      && r.value.avgSpeedKph == Min(SPEED_CAP_KPH, data.avgSpeedKph / k)
    ensures !applyPolicies || data.trafficReductionPct <= 0.0 ==>
      r.value.trafficIndex == data.trafficIndex && r.value.avgSpeedKph == data.avgSpeedKph
    ensures r.Success? ==>
      r.value.forestAreaSqkm == data.forestAreaSqkm + (if applyPolicies then data.afforestationIncreaseSqkm else 0.0)
  {
    var reduce := applyPolicies && data.trafficReductionPct > 0.0;
    var factor := 1.0 - data.trafficReductionPct / 100.0;
    if reduce && factor == 0.0 then Failure(DivisionByZero)
    else
      var traffic := if reduce then data.trafficIndex * factor else data.trafficIndex;
      var speed := if reduce then Min(SPEED_CAP_KPH, data.avgSpeedKph / factor) else data.avgSpeedKph;
      var forest := if applyPolicies then data.forestAreaSqkm + data.afforestationIncreaseSqkm else data.forestAreaSqkm;
      Success(FeatureRecord(
        traffic, speed, data.maxTempC, data.humidityPct, data.windSpeedMs,
        data.medianNdvi, forest, data.pm25AmbientUgM3, data.noxAmbientUgM3,
        data.cityId, data.wardId, TimeColumnsOf(now),
        traffic * 0.95, traffic * 0.1, data.medianNdvi * 1.02, data.maxTempC * 0.98))
  }

  /**
   * create_feature_dict: builds the baseline dictionary, then updates it in
   * place with the policy levers and the rolling proxies.
   */
  method CreateFeatureDict(data: PolicyInput, applyPolicies: bool, now: CalendarDate)
    returns (r: Result<FeatureRecord, ApiError>)
    ensures r == FeatureDict(data, applyPolicies, now)
  {
    var features := FeatureRecord(
      data.trafficIndex, data.avgSpeedKph, data.maxTempC, data.humidityPct, data.windSpeedMs,
      data.medianNdvi, data.forestAreaSqkm, data.pm25AmbientUgM3, data.noxAmbientUgM3,
      data.cityId, data.wardId,
      TimeColumns(0, 0, 0, 0, 0), 0.0, 0.0, 0.0, 0.0);
    features := features.(time := TimeColumns(
      now.dayOfWeek, now.dayOfYear, now.month,
      if now.dayOfWeek >= 5 then 1 else 0,
      (now.month - 1) / 3 + 1));
    assert features.time == TimeColumnsOf(now);
    ghost var spec := FeatureDict(data, applyPolicies, now);
    if applyPolicies {
      if data.trafficReductionPct > 0.0 {
        var reductionFactor := 1.0 - data.trafficReductionPct / 100.0;
        features := features.(trafficIndex := features.trafficIndex * reductionFactor);
        if reductionFactor == 0.0 {
          return Failure(DivisionByZero);
        }
        features := features.(avgSpeedKph := Min(SPEED_CAP_KPH, features.avgSpeedKph / reductionFactor));
      }
      features := features.(forestAreaSqkm := features.forestAreaSqkm + data.afforestationIncreaseSqkm);
    }
    features := features.(trafficRollingMean7 := features.trafficIndex * 0.95);
    features := features.(trafficRollingStd7 := features.trafficIndex * 0.1);
    features := features.(ndviRollingMean7 := features.medianNdvi * 1.02);
    features := features.(tempRollingMean7 := features.maxTempC * 0.98);
    assert spec.Success?;
    assert features.trafficIndex == spec.value.trafficIndex;
    assert features.avgSpeedKph == spec.value.avgSpeedKph;
    assert features.forestAreaSqkm == spec.value.forestAreaSqkm;
    r := Success(features);
  }

  /** Without policies the record carries the eleven request fields unchanged. */
  lemma BaselineCarriesInputs(data: PolicyInput, now: CalendarDate)
    ensures FeatureDict(data, false, now).Success?
    ensures var f := FeatureDict(data, false, now).value;
      && f.trafficIndex == data.trafficIndex && f.avgSpeedKph == data.avgSpeedKph
      && f.forestAreaSqkm == data.forestAreaSqkm
  {
  }

  /** The BS-norm upgrade lever changes no field of either record. */
  lemma BsUpgradeChangesNothing(data: PolicyInput, applyPolicies: bool, now: CalendarDate, upgradePct: real)
    ensures FeatureDict(data.(bsNormUpgradePct := upgradePct), applyPolicies, now) == FeatureDict(data, applyPolicies, now)
  {
  }

  /** With no traffic reduction and no afforestation the scenario record is the baseline record. */
  lemma NoOpPolicyIsBaseline(data: PolicyInput, now: CalendarDate)
    requires data.trafficReductionPct <= 0.0 && data.afforestationIncreaseSqkm == 0.0
    ensures FeatureDict(data, true, now) == FeatureDict(data, false, now)
  {
  }

  /** Dividing a non-negative value by a factor in (0, 1) does not lower it. */
  lemma DivideByFraction(s: real, k: real)
    requires 0.0 < k < 1.0 && s >= 0.0
    ensures s / k >= s
  {
    assert s / k * k == s;
  }

  /**
   * A traffic reduction strictly between 0 and 100 % scales the traffic index
   * by the remaining fraction and divides the speed by it, capped at 70 km/h:
   * a non-negative traffic index goes down and any speed up to the cap goes up
   * (inverse relationship). A non-positive reduction leaves both alone.
   */
  lemma TrafficReductionEffect(data: PolicyInput, now: CalendarDate)
    requires data.trafficReductionPct != 100.0
    ensures var f, k := FeatureDict(data, true, now).value, 1.0 - data.trafficReductionPct / 100.0;
      && (0.0 < data.trafficReductionPct < 100.0 ==>
          && f.trafficIndex == data.trafficIndex * k
          && f.avgSpeedKph == Min(SPEED_CAP_KPH, data.avgSpeedKph / k)
          && (data.trafficIndex >= 0.0 ==> 0.0 <= f.trafficIndex <= data.trafficIndex)
          && f.avgSpeedKph <= SPEED_CAP_KPH
          && (data.avgSpeedKph <= SPEED_CAP_KPH && data.avgSpeedKph >= 0.0 ==> f.avgSpeedKph >= data.avgSpeedKph))
      && (data.trafficReductionPct <= 0.0 ==>
          f.trafficIndex == data.trafficIndex && f.avgSpeedKph == data.avgSpeedKph)
  {
    if 0.0 < data.trafficReductionPct < 100.0 {
      var k := 1.0 - data.trafficReductionPct / 100.0;
      assert 0.0 < k < 1.0;
      if data.trafficIndex >= 0.0 {
        assert 0.0 <= data.trafficIndex * k <= data.trafficIndex * 1.0;
      }
      if data.avgSpeedKph >= 0.0 {
        DivideByFraction(data.avgSpeedKph, k);
      }
    }
  }

  /** Afforestation is added to the forest area, with no cap. */
  lemma AfforestationAdditive(data: PolicyInput, now: CalendarDate)
    requires data.trafficReductionPct != 100.0
    ensures FeatureDict(data, true, now).value.forestAreaSqkm
      == FeatureDict(data, false, now).value.forestAreaSqkm + data.afforestationIncreaseSqkm
  {
  }

  /** Weather, vegetation, ambient pollution, identifiers and time features agree between baseline and scenario. */
  lemma ScenarioSharesContext(data: PolicyInput, now: CalendarDate)
    requires data.trafficReductionPct != 100.0
    ensures var b, s := FeatureDict(data, false, now).value, FeatureDict(data, true, now).value;
      && b.maxTempC == s.maxTempC && b.humidityPct == s.humidityPct && b.windSpeedMs == s.windSpeedMs
      && b.medianNdvi == s.medianNdvi && b.pm25AmbientUgM3 == s.pm25AmbientUgM3
      && b.noxAmbientUgM3 == s.noxAmbientUgM3 && b.cityId == s.cityId && b.wardId == s.wardId
      && b.time == s.time && b.ndviRollingMean7 == s.ndviRollingMean7 && b.tempRollingMean7 == s.tempRollingMean7
  {
  }

  /**
   * The response built from the two predictions (kg/day): both are converted
   * to tonnes before subtracting, the net values reported are the scenario's,
   * and a negative impact means the policy lowered the prediction.
   */
  function ImpactResponse(city: string, baselineKg: PollutantTriple, scenarioKg: PollutantTriple): (r: PredictionResponse)
    ensures r.city == city
    ensures r.netCo2TonnesDay * 1000.0 == scenarioKg.co2
    ensures r.netPm25TonnesDay * 1000.0 == scenarioKg.pm25
    ensures r.netNoxTonnesDay * 1000.0 == scenarioKg.nox
    ensures r.policyImpactCo2 * 1000.0 == scenarioKg.co2 - baselineKg.co2
    ensures r.policyImpactPm25 * 1000.0 == scenarioKg.pm25 - baselineKg.pm25
    ensures r.policyImpactNox * 1000.0 == scenarioKg.nox - baselineKg.nox
    ensures r.policyImpactCo2 < 0.0 <==> scenarioKg.co2 < baselineKg.co2
  {
    var b := PollutantTriple(baselineKg.co2 / 1000.0, baselineKg.pm25 / 1000.0, baselineKg.nox / 1000.0);
    var s := PollutantTriple(scenarioKg.co2 / 1000.0, scenarioKg.pm25 / 1000.0, scenarioKg.nox / 1000.0);
    var impact := PollutantTriple(s.co2 - b.co2, s.pm25 - b.pm25, s.nox - b.nox);
    PredictionResponse(city, s.co2, s.pm25, s.nox, impact.co2, impact.pm25, impact.nox)
  }

  /** The outcome of the endpoint for a loaded predictor. */
  function NetImpact(data: PolicyInput, predict: FeatureRecord -> PollutantTriple, now: CalendarDate)
    : (r: Result<PredictionResponse, ApiError>)
    ensures r.Failure? <==> data.trafficReductionPct == 100.0
    ensures r.Failure? ==> r.error == DivisionByZero
    ensures r.Success? ==>
      && FeatureDict(data, false, now).Success? && FeatureDict(data, true, now).Success?
      && r.value == ImpactResponse(data.cityId,
           predict(FeatureDict(data, false, now).value), predict(FeatureDict(data, true, now).value))
  {
    var baseline := FeatureDict(data, false, now);
    var scenario :- FeatureDict(data, true, now);
    Success(ImpactResponse(data.cityId, predict(baseline.value), predict(scenario)))
  }

  /**
   * predict_net_impact, with the trained predictor passed in (None when no
   * model was loaded at startup).
   */
  method PredictNetImpact(data: PolicyInput, model: Option<FeatureRecord -> PollutantTriple>, now: CalendarDate)
    returns (r: Result<PredictionResponse, ApiError>)
    ensures model.None? ==> r == Failure(ModelNotLoaded)
    ensures model.Some? ==> r == NetImpact(data, model.value, now)
  {
    if model.None? {
      return Failure(ModelNotLoaded);
    }
    var predict := model.value;
    var baselineFeatures := CreateFeatureDict(data, false, now);
    var scenarioFeatures :- CreateFeatureDict(data, true, now);
    var baselinePred := predict(baselineFeatures.value);
    var scenarioPred := predict(scenarioFeatures);
    r := Success(ImpactResponse(data.cityId, baselinePred, scenarioPred));
  }

  /** When the predictor gives the same values for baseline and scenario, every impact is zero. */
  lemma EqualPredictionsZeroImpact(city: string, kg: PollutantTriple)
    ensures var r := ImpactResponse(city, kg, kg);
      r.policyImpactCo2 == 0.0 && r.policyImpactPm25 == 0.0 && r.policyImpactNox == 0.0
  {
  }

  /** A request with no traffic reduction and no afforestation reports zero impact, whatever the predictor. */
  lemma NoOpPolicyZeroImpact(data: PolicyInput, predict: FeatureRecord -> PollutantTriple, now: CalendarDate)
    requires data.trafficReductionPct <= 0.0 && data.afforestationIncreaseSqkm == 0.0
    ensures NetImpact(data, predict, now).Success?
    ensures var r := NetImpact(data, predict, now).value;
      r.policyImpactCo2 == 0.0 && r.policyImpactPm25 == 0.0 && r.policyImpactNox == 0.0
  {
    NoOpPolicyIsBaseline(data, now);
    var b := FeatureDict(data, false, now).value;
    EqualPredictionsZeroImpact(data.cityId, predict(b));
  }
}
