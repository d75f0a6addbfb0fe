# Urban pollution net-impact model

This project is a Dafny model of the deterministic core of an urban pollution net-impact predictor. For each city, ward and day, the system computes:

- vehicle emissions of CO2, PM2.5 and NOx from traffic and fleet composition;
- the CO2 that vegetation sequesters and the PM2.5 and NOx it removes by dry deposition, from NDVI, weather and forest area;
- net pollution, which is emission minus removal, together with per-square-kilometre removal efficiencies.

Around that pipeline the system offers:

- a policy scenario API. It builds a baseline feature record and a policy-adjusted feature record (traffic reduction, afforestation), runs both through a trained predictor, and reports the scenario's net values in tonnes and the change against the baseline;
- a lightweight heuristic predictor that scales fixed per-city base values by three policy levers;
- a scalar and bulk CO2 calculator keyed by fuel type;
- calendar features and grouped trailing (rolling) means over a ward-level frame.

Modules:

- `Wrappers`: `Option` and `Result`.
- `Config`: the city list, the forest-cover and vehicle tables, the emission factor table and the sequestration constants, with lemmas that the tables are well formed.
- `FeatureEngineering`: the emission, sequestration and removal, and net-pollutant pipeline, as functions on one observation, lifted to sequences of rows.
- `Rounding`: Python's `round(x)` and `round(x, 2)` on exact reals. Ties go to the even neighbour.
- `EmissionsCalculator`: `calculate_emissions` and `calculate_bulk_emissions`.
- `HeuristicPredictor`: `predict_impact` of the lightweight HTTP predictor.
- `TimeFeatures`: `create_time_features` and the calendar part of the API feature record.
- `PolicyApi`: `create_feature_dict` is an imperative method proved equal to a specification function. The arithmetic of `predict_net_impact` is a method where the trained model is a parameter.
- `RowOrder`: the `(city_id, ward_id, daily_date)` sort order and a stable insertion sort, proved to sort and to permute.
- `RollingFeatures`: `calculate_rolling_features`.
  - The trailing mean is a one-pass method. It keeps a bounded per-(city, ward) history map and is proved equal to a specification function: the mean of the last `w` values of the same group up to and including that row.
  - The loop over columns and windows is a method proved equal to a fold over the frame.

Places where the code's behaviour differs from what its own comments and names suggest. The model follows the code:

- `src/feature_engineering.py:24-28` computes VKT as `50 - traffic_index / 2` kilometres per vehicle, with no clamp. A traffic index above 100 gives negative VKT and negative emissions (`FeatureEngineering.TotalVkt`).
- `src/api.py:229-230` comments on a BS-upgrade lever in `create_feature_dict` but has no code under the comment. The scenario record does not depend on `bs_norm_upgrade_pct` (`PolicyApi.BsUpgradeChangesNothing`).
- `src/feature_engineering.py:103` and `:113` clip the temperature and humidity factors to [0.3, 1.2] and [0.4, 1.1]. No branch above them exceeds 1.0, so the upper bounds never bind. The model proves the factors lie in [0.3, 1.0] and [0.4, 1.0].
- `src/feature_engineering.py:86-91` is commented "NDVI health factor (0 to 1.5)". It rises linearly to 1 at the healthy maximum of 0.8, then jumps to 1.5 just above it (`FeatureEngineering.NdviFactor`).
- `src/feature_engineering.py:170-172` divides by the forest area. An area of 0 divides by zero. The model represents that efficiency as `None`, which stands for pandas' NaN/inf.
- `src/api.py:220-223` divides by `1 - traffic_reduction_pct / 100`. A reduction of exactly 100 % divides by zero in the scenario record. The API's exception handler turns that into an HTTP 500, modelled as `Failure(DivisionByZero)`.

## Model

| member | source | states |
|---|---|---|
| Config.EmissionFactor | src/config.py:47-57 | every per-class emission factor of every pollutant is strictly positive |
| Config.CitiesHaveTableEntries | src/config.py:13-44 | the ten configured cities are exactly the keys of both the forest-cover and the vehicle table |
| Config.FleetProportionsWellFormed | src/config.py:33-44 | every fleet share is in [0, 1], each city's shares sum to between 0.95 and 0.96, and every vehicle count is positive |
| Config.EmissionFactorsOrdered | src/config.py:47-57 | for each pollutant the truck factor exceeds the car factor, which exceeds the two-wheeler factor, which is positive |
| Config.SequestrationParametersPositive | src/config.py:60-65 | base sequestration rate, both deposition velocities and the healthy-NDVI ceiling are positive |
| Config.ForestAreasPositive | src/config.py:19-30 | every configured forest area is positive, and so is its per-ward share |
| FeatureEngineering.TotalVkt | src/feature_engineering.py:20-28 | VKT is non-negative for a traffic index in [0, 100], zero at exactly 100, and negative above 100 for a non-empty fleet |
| FeatureEngineering.VehicularEmissions | src/feature_engineering.py:14-77 | each pollutant total is the sum of its car, truck and two-wheeler columns and equals VKT times the share-weighted factor divided by 1000; VKT is carried through |
| FeatureEngineering.EmissionsNonNegative | src/feature_engineering.py:30-74 | for a valid observation every per-class term and every pollutant total is non-negative |
| FeatureEngineering.NdviFactor | src/feature_engineering.py:86-92 | the factor is at most 1.5, non-negative for non-negative NDVI, equals 1.5 exactly above the healthy ceiling, and below it scales NDVI linearly to at most 1 |
| FeatureEngineering.NdviFactorMonotone | src/feature_engineering.py:88-92 | the NDVI factor never decreases as NDVI grows |
| FeatureEngineering.Clip | src/feature_engineering.py:103 | the clipped value lies in the interval, and equals the input when the input is inside it |
| FeatureEngineering.TempFactor | src/feature_engineering.py:94-103 | the temperature factor lies in [0.3, 1.0] and is 1 exactly on the optimal band [20, 30] °C |
| FeatureEngineering.TempFactorLipschitz | src/feature_engineering.py:96-103 | the temperature factor changes by at most 1/40 per degree |
| FeatureEngineering.TempFactorUnimodal | src/feature_engineering.py:96-103 | the factor never decreases up to 20 °C and never increases from 30 °C |
| FeatureEngineering.HumidityFactor | src/feature_engineering.py:105-113 | the humidity factor lies in [0.4, 1.0] and is 1 exactly on the optimal band [60, 80] % |
| FeatureEngineering.HumidityFactorLipschitz | src/feature_engineering.py:106-113 | the humidity factor changes by at most 3/200 per percentage point |
| FeatureEngineering.WindEffect | src/feature_engineering.py:131-135 | the multiplier is 0.7 exactly below 1 m/s, 1.3 exactly above 5 m/s, and 1 otherwise |
| FeatureEngineering.WindEffectMonotone | src/feature_engineering.py:132-135 | stronger wind never lowers the deposition multiplier |
| FeatureEngineering.SequestrationRate | src/feature_engineering.py:115-120 | the per-km² rate is non-negative for non-negative NDVI and never exceeds 1.5 times the base rate |
| FeatureEngineering.Co2SequesteredKg | src/feature_engineering.py:116-120 | sequestered CO2 is non-negative and at most area × base rate × 1.5 |
| FeatureEngineering.SequestrationExample | src/feature_engineering.py:87-120 | NDVI 0.45 gives 0.5625, 32 °C gives 0.95, 65 % gives 1, and 35.2 km² then sequesters exactly 28215 kg |
| FeatureEngineering.RemovalKg | src/feature_engineering.py:140-156 | removed mass is non-negative for a non-negative area, deposition velocity and ambient concentration |
| FeatureEngineering.RemovalLinearInArea | src/feature_engineering.py:127-156 | removal is additive over forest area and scales linearly with it |
| FeatureEngineering.RemovalRateProportional | src/feature_engineering.py:140-156 | the per-km² removal rate is proportional to the ambient concentration |
| FeatureEngineering.RemovalLinearInConcentration | src/feature_engineering.py:124-156 | removal scales linearly with the ambient concentration |
| FeatureEngineering.SequestrationAndRemoval | src/feature_engineering.py:79-159 | the removal columns are the sequestration and deposition quantities of the observation, with the intermediate factors carried |
| FeatureEngineering.Efficiency | src/feature_engineering.py:169-172 | the efficiency is undefined exactly when the area is 0, and otherwise times the area gives back the removed mass |
| FeatureEngineering.NetPollutants | src/feature_engineering.py:161-174 | net plus removal equals emission for each pollutant; net is negative exactly when removal exceeds emission; the efficiencies divide removal by area |
| FeatureEngineering.SequestrationEfficiencyIsRate | src/feature_engineering.py:116-170 | on a positive area the sequestration efficiency equals the per-km² sequestration rate |
| FeatureEngineering.RemovalEfficiencyIsRate | src/feature_engineering.py:140-172 | on a positive area the PM2.5 and NOx efficiencies equal the per-km² removal rates |
| FeatureEngineering.ValidRecordBounds | src/feature_engineering.py:165-167 | for a valid observation all emissions and removals are non-negative and each net value lies between minus the removal and the emission |
| FeatureEngineering.Engineer | src/feature_engineering.py:180-185 | the engineered row keeps the observation it was computed from |
| FeatureEngineering.CalculateVehicularEmissions | src/feature_engineering.py:176-178 | one output row per input row, each keeping its observation and carrying that observation's emissions |
| FeatureEngineering.CalculateSequestrationAndRemoval | src/feature_engineering.py:180-185 | one output row per input row, each equal to the full chain applied to that row's observation |
| Rounding.RoundHalfEven | api/predict.py:65 | the result is within 0.5 of the input, whole numbers are kept, and exact halves go to the even neighbour |
| Rounding.RoundTo2 | src/emissions_calculator.py:48 | the two-decimal result is within 0.005 of the input |
| Rounding.RoundTo2OnGrid | src/emissions_calculator.py:48 | the result is a whole number of hundredths |
| Rounding.RoundTo2Exact | src/emissions_calculator.py:48 | a value that already has two decimals is returned unchanged |
| Rounding.RoundTo2Monotone | src/emissions_calculator.py:48 | rounding to two decimals never reverses an order |
| Rounding.RoundHalfEvenMonotone | api/predict.py:65 | rounding to an integer never reverses an order |
| Rounding.RoundTo2NonNegative | api/predict.py:66-70 | a non-negative value rounds to a non-negative value |
| EmissionsCalculator.ToLower | src/emissions_calculator.py:40 | lower-casing keeps the length and maps each character to its ASCII lower case |
| EmissionsCalculator.ToLowerIdempotent | src/emissions_calculator.py:40-44 | lower-casing twice equals lower-casing once |
| EmissionsCalculator.CalculateEmissions | src/emissions_calculator.py:24-52 | a non-positive distance fails first; otherwise an unknown lower-cased fuel fails; otherwise the result is distance × factor rounded to 2 decimals |
| EmissionsCalculator.PetrolExample | src/emissions_calculator.py:44-48 | 100 km on "Petrol" emits 21.0 kg |
| EmissionsCalculator.NegativeDistanceExample | src/emissions_calculator.py:37-38 | a zero or negative distance is rejected whatever the fuel |
| EmissionsCalculator.UnknownFuelExample | src/emissions_calculator.py:40-41 | an unsupported fuel is reported with the name as given |
| EmissionsCalculator.CaseInsensitive | src/emissions_calculator.py:40-44 | fuel names that lower-case to the same string give the same result |
| EmissionsCalculator.FuelOrdering | src/emissions_calculator.py:17-22 | diesel > petrol > hybrid > electric > 0 |
| EmissionsCalculator.MonotoneInDistance | src/emissions_calculator.py:44-45 | for a supported fuel the unrounded emission strictly grows with distance |
| EmissionsCalculator.RoundedMonotoneInDistance | src/emissions_calculator.py:44-48 | for a supported fuel a longer distance never returns a smaller rounded emission |
| EmissionsCalculator.ApplyRows | src/emissions_calculator.py:68-72 | succeeds exactly when every row succeeds, keeps every row with its own result, and otherwise fails with the first failing row's error |
| EmissionsCalculator.CalculateBulkEmissions | src/emissions_calculator.py:54-78 | a non-frame input fails with the type error; a frame without rows fails with the value error; a non-empty frame gets one result per row as in the row-by-row rule |
| EmissionsCalculator.BulkSucceedsIff | src/emissions_calculator.py:54-78 | the batch form succeeds exactly on a non-empty frame whose every row succeeds, and then keeps each row with that row's own emission |
| HeuristicPredictor.Base | api/predict.py:37-45 | a listed city gets its own base values, any other city gets Delhi's, and all base values are positive |
| HeuristicPredictor.Impact | api/predict.py:47-49 | an impact factor is at least its floor, at most 1 for a non-negative lever, and exactly 1 for a zero lever |
| HeuristicPredictor.ImpactMonotone | api/predict.py:47-49 | a stronger lever never raises its impact factor |
| HeuristicPredictor.PredictImpact | api/predict.py:36-72 | the response succeeds and echoes the city, the timestamp and the lever values; each rounded net value is within the rounding error of the exact net value; each rounded reduction is within the rounding error of the city's base value minus the exact net value |
| HeuristicPredictor.NoPolicyKeepsBase | api/predict.py:47-70 | with all levers at zero the net values are the base values and every reduction is 0 |
| HeuristicPredictor.LeversAreSeparable | api/predict.py:51-53 | CO2 does not depend on the upgrade lever, and PM2.5 and NOx do not depend on afforestation |
| HeuristicPredictor.NetValuesBelowBase | api/predict.py:47-53 | for non-negative levers no net value exceeds its base value |
| HeuristicPredictor.ReductionsNonNegative | api/predict.py:65-70 | for non-negative levers every reported reduction is non-negative |
| HeuristicPredictor.TrafficMonotone | api/predict.py:47-53 | more traffic reduction never raises any net value |
| HeuristicPredictor.AfforestationMonotone | api/predict.py:48-51 | more afforestation never raises net CO2 |
| HeuristicPredictor.UpgradeMonotone | api/predict.py:49-53 | a stronger emission-standard upgrade never raises net PM2.5 or NOx |
| HeuristicPredictor.UnknownCityFallsBackToDelhi | api/predict.py:45 | an unlisted city is predicted exactly as Delhi |
| HeuristicPredictor.DelhiExample | api/predict.py:36-72 | Delhi with levers 20, 10 and 50 gives net values 28896, 90.3 and 168.56 and reductions 6104, 59.7 and 111.44 |
| TimeFeatures.IsWeekend | src/utils.py:32 | the flag is 0 or 1, and 1 exactly for Saturday and Sunday |
| TimeFeatures.Quarter | src/api.py:212 | the quarter is the q with 3(q−1) < month ≤ 3q, and lies in 1..4 for a real month |
| TimeFeatures.QuarterMonths | src/utils.py:33 | quarter q holds exactly the months 3q−2 to 3q |
| TimeFeatures.TimeColumnsOf | src/api.py:206-214 | day of week, day of year and month are carried; the weekend flag is 1 exactly on Saturday and Sunday; the quarter is the one whose three months contain the month; a valid date gives in-range flags |
| TimeFeatures.CreateTimeFeatures | src/utils.py:15-35 | one output row per input row, keeping the row and adding the calendar columns of its own date |
| PolicyApi.FeatureDict | src/api.py:174-252 | fails with a division by zero exactly for a policy record with a 100 % reduction; otherwise it copies weather, vegetation, pollution and identifiers, adds the calendar columns of the given date, and sets the rolling proxies as fixed multiples of the final traffic, NDVI and temperature; a policy record with a reduction strictly above 0 multiplies the traffic index by `1 - pct/100` and sets the speed to `min(70, speed / (1 - pct/100))`; without the policy, or with a non-positive reduction, both are kept; the forest area gains the afforestation increase exactly when the policy is applied |
| PolicyApi.CreateFeatureDict | src/api.py:174-252 | the record-updating method builds exactly the record the specification function describes |
| PolicyApi.BaselineCarriesInputs | src/api.py:187-199 | the baseline record always exists and carries every input driver unchanged |
| PolicyApi.BsUpgradeChangesNothing | src/api.py:229-230 | the emission-standard upgrade lever does not influence either record |
| PolicyApi.NoOpPolicyIsBaseline | src/api.py:217-250 | with no traffic reduction and no afforestation the policy record equals the baseline |
| PolicyApi.TrafficReductionEffect | src/api.py:219-224 | a reduction strictly between 0 and 100 % sets the traffic index to `traffic * (1 - pct/100)` and the speed to `min(70, speed / (1 - pct/100))`; hence a non-negative index stays non-negative and no larger, speed is capped at 70 km/h, and a speed already in [0, 70] is never lowered; a non-positive reduction keeps index and speed |
| PolicyApi.AfforestationAdditive | src/api.py:227 | the scenario forest area is the baseline area plus the afforestation increase |
| PolicyApi.ScenarioSharesContext | src/api.py:187-250 | baseline and scenario agree on weather, NDVI, pollution, identifiers, calendar and the NDVI and temperature proxies |
| PolicyApi.ImpactResponse | src/api.py:149-164 | reported tonnes times 1000 are the scenario kilograms, the impact times 1000 is scenario minus baseline, and the CO2 impact is negative exactly when the scenario predicts less |
| PolicyApi.NetImpact | src/api.py:137-164 | the computation fails exactly when the traffic reduction is 100 %, then with the division error; otherwise both feature records are built and the response compares the model's predictions on the baseline and the scenario record |
| PolicyApi.PredictNetImpact | src/api.py:128-171 | without a model the call fails with the model-not-loaded error; with one it returns the net-impact computation |
| PolicyApi.EqualPredictionsZeroImpact | src/api.py:149-154 | equal baseline and scenario predictions give zero policy impact |
| PolicyApi.NoOpPolicyZeroImpact | src/api.py:137-154 | a scenario with no traffic reduction and no afforestation has zero impact under any model |
| RowOrder.KeyLeTotal | src/utils.py:52 | any two rows are comparable in the (city, ward, date) order |
| RowOrder.KeyLeTransitive | src/utils.py:52 | the (city, ward, date) order is transitive |
| RowOrder.SortRows | src/utils.py:52 | sorting keeps the length and the multiset of rows |
| RowOrder.SortRowsSorted | src/utils.py:52 | the sorted frame is ordered by (city, ward, date) |
| RowOrder.SortRowsOfSorted | src/utils.py:52 | sorting an already sorted frame changes nothing |
| RollingFeatures.RollingMean | src/utils.py:56-58 | the one-pass method yields, for every row, the mean of the last w values of that row's (city, ward) group up to and including the row |
| RollingFeatures.FirstOfGroupIsOwnValue | src/utils.py:56-58 | with min_periods = 1 the first row of a group has its own value as mean |
| RollingFeatures.WindowOneIsIdentity | src/utils.py:56-58 | a window of 1 reproduces the column |
| RollingFeatures.GroupIsolation | src/utils.py:56-58 | a row's mean depends only on earlier values of its own group |
| RollingFeatures.RollingMeanWithinWindow | src/utils.py:56-58 | every rolling mean lies between the smallest and the largest value of its window |
| RollingFeatures.MeanBetweenMinMax | src/utils.py:56-58 | a mean lies between the minimum and maximum of its values |
| RollingFeatures.ParseNatToString | src/utils.py:56 | the decimal rendering of a window size reads back as that size |
| RollingFeatures.IntToStringInjective | src/utils.py:56 | distinct window sizes render as distinct strings |
| RollingFeatures.MeanColumnNamesDistinct | src/utils.py:56 | two different windows on one column produce different column names |
| RollingFeatures.MeanColumnNameInjective | src/utils.py:56 | a mean column name determines both its column and its window |
| RollingFeatures.DefaultWindowNames | src/utils.py:39-56 | the default windows name the columns `<column>_rolling_mean_7` and `<column>_rolling_mean_30` |
| RollingFeatures.SortFrame | src/utils.py:52 | the sorted frame is well formed, keeps its column names, is ordered by (city, ward, date) and permutes the rows |
| RollingFeatures.AddMeanColumn | src/utils.py:56-58 | a missing column fails with its name; a window below 1 on a non-empty frame fails; otherwise the frame gains the column and keeps its row keys |
| RollingFeatures.AddMeanColumnValues | src/utils.py:56-58 | each row's new column holds its group's trailing mean and the row's other columns are unchanged |
| RollingFeatures.AddWindowsSuccess | src/utils.py:55-58 | the loop over one column's windows succeeds exactly when there are no windows, or the column exists and the frame is empty or every window is at least 1 |
| RollingFeatures.AddWindowsErrors | src/utils.py:55-58 | a failure over windows is the missing column, or on a non-empty frame a listed window below 1 |
| RollingFeatures.AddColumnsSucceeds | src/utils.py:54-58 | every column present plus valid windows, or an empty frame, means the loop succeeds |
| RollingFeatures.AddColumnsErrors | src/utils.py:54-58 | a failure over columns names a requested column that is missing or a requested window that is invalid |
| RollingFeatures.AddColumnsNames | src/utils.py:54-58 | on success the frame keeps every original column and gains a mean column for every (column, window) pair |
| RollingFeatures.AddColumnsStopsAtFailure | src/utils.py:54-58 | once the loop fails, later columns do not change the outcome |
| RollingFeatures.NoWindowsOnlySorts | src/utils.py:54-55 | with no windows the loop leaves the frame unchanged |
| RollingFeatures.MissingFirstColumn | src/utils.py:52-58 | a missing first column is reported before any other problem |
| RollingFeatures.SingleColumnMeans | src/utils.py:52-58 | one column and one valid window give the sorted rows, each with its trailing group mean |
| RollingFeatures.RollingFeatures | src/utils.py:38-63 | the result is sorted and row-for-row the sorted input's keys, keeps every column, adds every (column, window) mean column, succeeds whenever every column is present and the windows are valid or the frame is empty, and fails only with a missing requested column or a listed invalid window; every row of the result holds a value for exactly its columns |
| RollingFeatures.RollingFeaturesMeans | src/utils.py:38-63 | with every requested column present and every window at least 1, the call succeeds; at every row, each (column, window) mean column holds the trailing group mean of that column over the sorted rows; every input column that is not one of the assigned names keeps its sorted value |
| RollingFeatures.AssignMeanColumn | src/utils.py:56-58 | the method that validates the column and window, then makes one pass, returns exactly the mean-column specification |
| RollingFeatures.AddWindowsLoop | src/utils.py:55-58 | the inner loop over windows returns exactly the fold over windows |
| RollingFeatures.CalculateRollingFeatures | src/utils.py:38-63 | the sort-then-nested-loops method returns exactly the rolling-features specification |

## Left out

- Reading and writing data, logging, the HTTP servers, request parsing and JSON responses are not modelled. The FastAPI and `BaseHTTPRequestHandler` glue is left out, with its mapping of exceptions to HTTP 500; errors are returned as `Result` values instead.
- The trained model, model loading and training are not modelled. `MODEL.predict` is a function parameter, and a model that is not loaded is `None`.
- All arithmetic is on exact reals. IEEE-754 effects are not modelled: binary representation, overflow, NaN propagation, and cases like `round(2.675, 2)`.
- Rounding.RoundHalfEven, Rounding.RoundTo2: round exact decimals half-to-even; Python rounds the nearest binary double, which can differ on inputs that are not exactly representable.
- Division by a zero forest area produces NaN or infinity in pandas. The model returns `None` for that efficiency.
- EmissionsCalculator.ToLower: lower-cases ASCII letters only, while Python's `str.lower` also maps other Unicode letters.
- `datetime.now()` and `pd.to_datetime` are not modelled. The current date is a `CalendarDate` parameter, and each row carries an already-parsed date. The ISO timestamp in the heuristic predictor's response is abstracted as a parameter.
- EmissionsCalculator.CalculateBulkEmissions: a frame without rows always fails with `EmptyFrame`. In pandas the empty `apply` returns a copy of the whole frame, and storing that as one column raises only when the frame has more than one column. The modelled rows always carry `distance` and `fuel_type`, so the model does not cover an empty frame with a single column.
- RollingFeatures.RollingFeaturesMeans: does not cover a requested column that is itself one of the assigned mean names (for example `x` and `x_rolling_mean_7` with window 7). There the later means are taken over values the call itself wrote.
- Dynamic typing is not modelled. That includes non-numeric cells, a `fuel_type` that is not a string, pydantic validation, and missing `distance`/`fuel_type` columns in the bulk input.
- RollingFeatures.RollingFeatures, RollingFeatures.CalculateRollingFeatures: do not add the `<column>_rolling_std_<window>` columns. A sample standard deviation needs a square root, and it is NaN for a one-row window.
- RollingFeatures.AddMeanColumn: raises the invalid-window error only for a non-empty frame, where pandas builds a rolling window. Non-integer window sizes are not modelled.
- The key columns `city_id`, `ward_id` and `daily_date` are row fields, not value columns, so they cannot be requested as rolling columns.
- The fleet BS-upgrade lever of `create_feature_dict` has no effect in the code, so the model gives it none.
- The other scripts, dashboards, data acquisition, report generation and visualisation are outside this model.
