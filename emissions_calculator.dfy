/**
 * The fuel-based CO2 calculator: distance times a per-fuel factor (kg CO2 per
 * km), rounded to two decimals, with its input validation, and the batch form
 * that fills a column for every row of a frame and fails as a whole.
 */
module EmissionsCalculator {
  import opened Wrappers
  import opened Rounding

  /** kg CO2 per km for each supported fuel (keys are lower case). */
  const EMISSION_FACTORS: map<string, real> := map[
    "petrol" := 0.21,
    "diesel" := 0.25,
    "electric" := 0.05,
    "hybrid" := 0.12
  ]

  /** ValueError for the first two, TypeError for the third. */
  datatype CalcError = DistanceNotPositive | UnsupportedFuelType(fuelType: string) | NotADataFrame | EmptyFrame

  /** str.lower() on one character (ASCII letters only). */
  function LowerChar(c: char): (l: char)
    ensures 'A' <= c <= 'Z' ==> l as int == c as int + 32
    ensures !('A' <= c <= 'Z') ==> l == c
    ensures !('A' <= l <= 'Z')
  {
    if 'A' <= c <= 'Z' then (c as int + 32) as char else c
  }

  /** str.lower(): every upper-case ASCII letter replaced by its lower-case form. */
  function ToLower(s: string): (l: string)
    ensures |l| == |s|
    ensures forall i :: 0 <= i < |s| ==> l[i] == LowerChar(s[i])
  {
    seq(|s|, i requires 0 <= i < |s| => LowerChar(s[i]))
  }

  /** Lower-casing twice is lower-casing once. */
  lemma ToLowerIdempotent(s: string)
    ensures ToLower(ToLower(s)) == ToLower(s)
  {
    var l := ToLower(s);
    assert forall i :: 0 <= i < |l| ==> LowerChar(l[i]) == l[i];
    assert ToLower(l) == l;
  }

  /**
   * calculate_emissions: a non-positive distance and an unknown fuel are
   * rejected, in that order; otherwise the emission is distance × factor of
   * the lower-cased fuel, rounded to the nearest hundredth.
   */
  function CalculateEmissions(distance: real, fuelType: string): (r: Result<real, CalcError>)
    ensures distance <= 0.0 ==> r == Failure(DistanceNotPositive)
    ensures distance > 0.0 && ToLower(fuelType) !in EMISSION_FACTORS ==> r == Failure(UnsupportedFuelType(fuelType))
    ensures distance > 0.0 && ToLower(fuelType) in EMISSION_FACTORS ==>
      && r.Success?
      && r.value == RoundTo2(distance * EMISSION_FACTORS[ToLower(fuelType)])
      && r.value >= 0.0
  {
    if distance <= 0.0 then Failure(DistanceNotPositive)
    else if ToLower(fuelType) !in EMISSION_FACTORS then Failure(UnsupportedFuelType(fuelType))
    else
      var emissions := distance * EMISSION_FACTORS[ToLower(fuelType)];
      RoundTo2NonNegative(emissions);
      Success(RoundTo2(emissions))
  }

  /** 100 km on petrol gives 21.0 kg, whatever the case of the fuel name. */
  lemma PetrolExample()
    ensures CalculateEmissions(100.0, "petrol") == Success(21.0)
    ensures CalculateEmissions(100.0, "Petrol") == Success(21.0)
  {
    assert ToLower("petrol") == "petrol";
    assert ToLower("Petrol") == "petrol";
    assert "petrol" in EMISSION_FACTORS && EMISSION_FACTORS["petrol"] == 0.21;
    assert RoundTo2(100.0 * 0.21) == 21.0 by { RoundTo2Exact(21.0); }
  }

  /** A negative distance is rejected. */
  lemma NegativeDistanceExample()
    ensures CalculateEmissions(-100.0, "petrol") == Failure(DistanceNotPositive)
  {
  }

  /** An unknown fuel is rejected. */
  lemma UnknownFuelExample()
    ensures CalculateEmissions(100.0, "invalid_fuel") == Failure(UnsupportedFuelType("invalid_fuel"))
  {
    assert ToLower("invalid_fuel") == "invalid_fuel";
    assert "invalid_fuel" !in EMISSION_FACTORS by { assert |"invalid_fuel"| == 12; }
  }

  /** The fuel lookup ignores letter case: a name and its lower-case form succeed together, with the same emission. */
  lemma CaseInsensitive(distance: real, fuelType: string)
    ensures CalculateEmissions(distance, fuelType).Success? <==> CalculateEmissions(distance, ToLower(fuelType)).Success?
    ensures CalculateEmissions(distance, fuelType).Success? ==>
      CalculateEmissions(distance, fuelType).value == CalculateEmissions(distance, ToLower(fuelType)).value
  {
    var l := ToLower(fuelType);
    ToLowerIdempotent(fuelType);
    assert ToLower(l) == l;
    if distance > 0.0 && l in EMISSION_FACTORS {
      var v := RoundTo2(distance * EMISSION_FACTORS[l]);
      assert CalculateEmissions(distance, fuelType) == Success(v);
      assert CalculateEmissions(distance, l) == Success(v);
    }
  }

  /** Before rounding, at a positive distance: electric < hybrid < petrol < diesel. */
  lemma FuelOrdering(distance: real)
    requires distance > 0.0
    ensures distance * EMISSION_FACTORS["electric"] < distance * EMISSION_FACTORS["hybrid"]
    ensures distance * EMISSION_FACTORS["hybrid"] < distance * EMISSION_FACTORS["petrol"]
    ensures distance * EMISSION_FACTORS["petrol"] < distance * EMISSION_FACTORS["diesel"]
  {
  }

  /** For a supported fuel the unrounded emission is strictly increasing in distance. */
  lemma MonotoneInDistance(d1: real, d2: real, fuelType: string)
    requires 0.0 < d1 < d2 && ToLower(fuelType) in EMISSION_FACTORS
    ensures d1 * EMISSION_FACTORS[ToLower(fuelType)] < d2 * EMISSION_FACTORS[ToLower(fuelType)]
  {
    var fuel := ToLower(fuelType);
    FactorsPositive(fuel);
    var f := EMISSION_FACTORS[fuel];
    ScaledRoundingMonotone(d1, d2, f, d1 * f, d2 * f);
  }

  /** The rounded result never decreases with distance. */
  lemma RoundedMonotoneInDistance(d1: real, d2: real, fuelType: string)
    requires 0.0 < d1 <= d2 && ToLower(fuelType) in EMISSION_FACTORS
    ensures CalculateEmissions(d1, fuelType).value <= CalculateEmissions(d2, fuelType).value
  {
    var fuel := ToLower(fuelType);
    FactorsPositive(fuel);
    var f := EMISSION_FACTORS[fuel];
    var x, y := d1 * f, d2 * f;
    EmissionValue(d1, fuelType, f, x);
    EmissionValue(d2, fuelType, f, y);
    ScaledRoundingMonotone(d1, d2, f, x, y);
  }

  lemma EmissionValue(d: real, fuelType: string, f: real, x: real)
    requires d > 0.0 && ToLower(fuelType) in EMISSION_FACTORS
    requires f == EMISSION_FACTORS[ToLower(fuelType)] && x == d * f
    ensures CalculateEmissions(d, fuelType) == Success(RoundTo2(x))
  {
  }

  lemma FactorsPositive(fuel: string)
    requires fuel in EMISSION_FACTORS
    ensures EMISSION_FACTORS[fuel] > 0.0
  {
  }

  /** Scaling by a positive factor keeps order, before and after rounding. */
  lemma ScaledRoundingMonotone(d1: real, d2: real, f: real, x: real, y: real)
    requires 0.0 < d1 <= d2 && f > 0.0 && x == d1 * f && y == d2 * f
    ensures x <= y && (d1 < d2 ==> x < y)
    ensures RoundTo2(x) <= RoundTo2(y)
  {
    assert x <= y && (d1 < d2 ==> x < y);
    RoundTo2Monotone(x, y);
  }

  /** A row of the vehicle frame: distance, fuel type and any other columns. */
  datatype VehicleRow<X> = VehicleRow(distance: real, fuelType: string, otherColumns: X)

  /** A row of the result: the input row plus the calculated_emissions column. */
  datatype EmissionRow<X> = EmissionRow(input: VehicleRow<X>, calculatedEmissions: real)

  /** What the batch form is handed: a frame, or some other value. */
  datatype BulkInput<X> = DataFrame(rows: seq<VehicleRow<X>>) | NotAFrame

  function RowEmissions<X>(row: VehicleRow<X>): Result<real, CalcError> {
    CalculateEmissions(row.distance, row.fuelType)
  }

  /** Index of the first row that fails, or |rows| when every row succeeds. */
  function FirstInvalid<X>(rows: seq<VehicleRow<X>>): (k: nat)
    ensures k <= |rows|
    ensures forall j :: 0 <= j < k ==> RowEmissions(rows[j]).Success?
    ensures k < |rows| ==> RowEmissions(rows[k]).Failure?
  {
    if rows == [] then 0
    else if RowEmissions(rows[0]).Failure? then 0
    else 1 + FirstInvalid(rows[1..])
  }

  /**
   * The row-wise apply in order: either every row's emission, each row kept
   * as it was, or the error of the first row that fails.
   */
  function ApplyRows<X>(rows: seq<VehicleRow<X>>): (r: Result<seq<EmissionRow<X>>, CalcError>)
    ensures r.Success? <==> forall i :: 0 <= i < |rows| ==> RowEmissions(rows[i]).Success?
    ensures r.Success? ==>
      && |r.value| == |rows|
      && forall i :: 0 <= i < |rows| ==>
        r.value[i].input == rows[i] && RowEmissions(rows[i]) == Success(r.value[i].calculatedEmissions)
    ensures r.Failure? ==>
      var k := FirstInvalid(rows);
      k < |rows| && r.error == RowEmissions(rows[k]).error
  {
    if rows == [] then Success([])
    else
      match RowEmissions(rows[0])
      case Failure(e) => Failure(e)
      case Success(v) =>
        match ApplyRows(rows[1..])
        case Failure(e) =>
          assert forall i :: 1 <= i < |rows| ==> rows[1..][i - 1] == rows[i];
          Failure(e)
        case Success(tail) =>
          assert forall i :: 1 <= i < |rows| ==> rows[1..][i - 1] == rows[i];
          Success([EmissionRow(rows[0], v)] + tail)
  }

  /**
   * calculate_bulk_emissions: a non-frame is a TypeError; a frame without rows
   * is a ValueError (the apply over no rows yields a copy of the whole frame,
   * which cannot be stored as the one new column); otherwise the apply over a copy.
   */
  function CalculateBulkEmissions<X>(data: BulkInput<X>): (r: Result<seq<EmissionRow<X>>, CalcError>)
    ensures data.NotAFrame? ==> r == Failure(NotADataFrame)
    ensures data.DataFrame? && |data.rows| == 0 ==> r == Failure(EmptyFrame)
    ensures data.DataFrame? && |data.rows| > 0 ==> r == ApplyRows(data.rows)
  {
    match data
    case NotAFrame => Failure(NotADataFrame)
    case DataFrame(rows) => if |rows| == 0 then Failure(EmptyFrame) else ApplyRows(rows)
  }

  /** The batch form succeeds exactly on a non-empty frame whose every row succeeds, one result per row. */
  lemma BulkSucceedsIff<X>(data: BulkInput<X>)
    ensures CalculateBulkEmissions(data).Success? <==>
      && data.DataFrame? && |data.rows| > 0
      && forall i :: 0 <= i < |data.rows| ==> CalculateEmissions(data.rows[i].distance, data.rows[i].fuelType).Success?
    ensures CalculateBulkEmissions(data).Success? ==>
      && |CalculateBulkEmissions(data).value| == |data.rows|
      && forall i :: 0 <= i < |data.rows| ==>
        CalculateBulkEmissions(data).value[i].input == data.rows[i] &&
        CalculateEmissions(data.rows[i].distance, data.rows[i].fuelType)
          == Success(CalculateBulkEmissions(data).value[i].calculatedEmissions)
  {
    if data.DataFrame? && |data.rows| > 0 {
      assert forall i :: 0 <= i < |data.rows| ==> RowEmissions(data.rows[i]) == CalculateEmissions(data.rows[i].distance, data.rows[i].fuelType);
    }
  }
}
