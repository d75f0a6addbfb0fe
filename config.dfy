/**
 * The constant reference tables of the system: the list of supported cities,
 * their forest cover and vehicle fleet, the per-class emission factors and the
 * sequestration / deposition parameters.
 */
module Config {

  datatype Pollutant = CO2 | PM25 | NOX

  datatype VehicleClass = Car | Truck | TwoWheeler

  /** Forest cover of a city (ISFR 2023): area in km², tree cover in percent. */
  datatype ForestCover = ForestCover(areaSqkm: real, treeCoverPercent: real)

  /** Registered vehicles of a city (thousands) and the share of each class. */
  datatype VehicleFleet = VehicleFleet(totalVehicles: real, carProp: real, truckProp: real, twowheelerProp: real)

  const CITIES: seq<string> :=
    ["Delhi", "Mumbai", "Bengaluru", "Chennai", "Kolkata",
     "Hyderabad", "Pune", "Ahmedabad", "Surat", "Jaipur"]

  const FOREST_COVER_DATA: map<string, ForestCover> := map[
    "Delhi" := ForestCover(176.0, 11.87),
    "Mumbai" := ForestCover(130.0, 18.0),
    "Bengaluru" := ForestCover(110.0, 15.0),
    "Chennai" := ForestCover(85.0, 12.0),
    "Kolkata" := ForestCover(95.0, 14.0),
    "Hyderabad" := ForestCover(120.0, 16.0),
    "Pune" := ForestCover(140.0, 17.0),
    "Ahmedabad" := ForestCover(90.0, 10.0),
    "Surat" := ForestCover(80.0, 9.0),
    "Jaipur" := ForestCover(100.0, 11.0)
  ]

  const VEHICLE_DATA: map<string, VehicleFleet> := map[
    "Delhi" := VehicleFleet(11893.0, 0.35, 0.05, 0.55),
    "Mumbai" := VehicleFleet(3876.17, 0.30, 0.10, 0.55),
    "Bengaluru" := VehicleFleet(9638.36, 0.40, 0.08, 0.48),
    "Chennai" := VehicleFleet(6351.73, 0.38, 0.07, 0.50),
    "Kolkata" := VehicleFleet(1024.08, 0.32, 0.06, 0.57),
    "Hyderabad" := VehicleFleet(3242.81, 0.36, 0.08, 0.52),
    "Pune" := VehicleFleet(3198.83, 0.42, 0.09, 0.45),
    "Ahmedabad" := VehicleFleet(4571.19, 0.34, 0.08, 0.54),
    "Surat" := VehicleFleet(2800.0, 0.33, 0.10, 0.53),
    "Jaipur" := VehicleFleet(3168.34, 0.37, 0.07, 0.52)
  ]

  /** Emission factor of one vehicle class for one pollutant, in g/km (ARAI/CPCB). */
  function EmissionFactor(p: Pollutant, c: VehicleClass): (gPerKm: real)
    ensures gPerKm > 0.0
  {
    match p
    case CO2 => (match c case Car => 150.0 case Truck => 450.0 case TwoWheeler => 80.0)
    case PM25 => (match c case Car => 0.005 case Truck => 0.05 case TwoWheeler => 0.002)
    case NOX => (match c case Car => 0.18 case Truck => 1.5 case TwoWheeler => 0.08)
  }

  /** Sequestration and deposition parameters. */
  const CO2_BASE_KG_SQKM_DAY: real := 1500.0
  const PM25_DEPOSITION_VELOCITY_MS: real := 0.005
  const NOX_DEPOSITION_VELOCITY_MS: real := 0.003
  const MAX_NDVI_HEALTHY: real := 0.8

  /** Number of wards every city is split into when records are generated. */
  const WARDS_PER_CITY: real := 5.0

  /** Every listed city can be looked up in both city tables, and the tables list no other city. */
  lemma CitiesHaveTableEntries()
    ensures forall c :: c in CITIES ==> c in FOREST_COVER_DATA && c in VEHICLE_DATA
    ensures FOREST_COVER_DATA.Keys == VEHICLE_DATA.Keys == set c | c in CITIES
    ensures |CITIES| == 10
  {
  }

  /** Every fleet share lies in [0, 1] and the three shares sum to at most 1 (0.95 to 0.96). */
  lemma FleetProportionsWellFormed()
    ensures forall c :: c in VEHICLE_DATA ==>
      var f := VEHICLE_DATA[c];
      && 0.0 <= f.carProp <= 1.0 && 0.0 <= f.truckProp <= 1.0 && 0.0 <= f.twowheelerProp <= 1.0
      && 0.95 <= f.carProp + f.truckProp + f.twowheelerProp <= 0.96
      && f.totalVehicles > 0.0
  {
  }

  /** For every pollutant a truck emits more per km than a car, and a car more than a two-wheeler. */
  lemma EmissionFactorsOrdered(p: Pollutant)
    ensures EmissionFactor(p, Truck) > EmissionFactor(p, Car) > EmissionFactor(p, TwoWheeler) > 0.0
  {
  }

  /** The sequestration parameters are positive, so dividing by the healthy NDVI ceiling is defined. */
  lemma SequestrationParametersPositive()
    ensures CO2_BASE_KG_SQKM_DAY > 0.0 && PM25_DEPOSITION_VELOCITY_MS > 0.0
    ensures NOX_DEPOSITION_VELOCITY_MS > 0.0 && MAX_NDVI_HEALTHY > 0.0
  {
  }

  /** Every city's forest area is positive, and so is the per-ward share of it. */
  lemma ForestAreasPositive()
    ensures forall c :: c in FOREST_COVER_DATA ==>
      FOREST_COVER_DATA[c].areaSqkm > 0.0 && FOREST_COVER_DATA[c].areaSqkm / WARDS_PER_CITY > 0.0
  {
  }
}
