# Data-centre cooling and load-shifting optimizer — a Dafny model

This project models the core of a one-day scheduler for a 50 MW data centre in Phoenix. Over 24
hours it decides how much of the 20 MW of shiftable batch load to run each hour, and which
cooling mode each hour uses. The goal is to minimise electricity, water and demand charges. Three
parts of the system are modelled:

- **The linear production model** (`LinearOptimizer`, `linear_optimizer.dfy`).
  - It states the bounds, batch-completion, load-balance and capacity constraints as predicates
    over a candidate schedule, and the objective, with its penalty for running the chiller above
    95 °F, as a function.
  - The results extraction is a method whose loop builds the hourly table and keeps four running
    totals. It is proved equal to a closed-form specification (`Extraction`).
  - The optimizer object is a class with `model` and `results` fields. Its `Solve` separates five
    cases: no model, solver unavailable, solver call raised, not optimal, and optimal.
- **The richer model** (`ArizonaOptimizer`, `arizona_optimizer.dfy`).
  - The water-cooling efficiency curve is given both as the knot-scanning loop and in closed form.
  - The constraints are predicates: one cooling mode per hour, cooling capacity, chiller stages,
    ramp limits, thermal-storage balance, peak tracking and demand response.
  - The objective includes a demand charge and a demand-response incentive.
  - The savings and environmental figures are measured against a baseline priced at the mean
    price.
  - It also covers the load factor and the ordered fallback over solvers.
- **Input normalisation** (`DataInterface`, `data_interface.dfy`).
  - Forcing any hourly list to exactly 24 entries.
  - Replacing implausible temperatures, and converting Celsius columns.
  - Estimating time-of-use prices from demand, and the rejection rules for a prepared dataset.
  - Reading the EIA and NOAA JSON shapes by key precedence.
  - The two loaders that chain these steps.

Supporting modules:

- `Sums` (`sums.dfy`): sums, means, running peaks and extrema of hourly columns.
- `Json` (`json.dfy`): the JSON and Python values the loaders receive. It supplies Python's `in`,
  indexing, iteration and truthiness, each returning the exception Python would raise.
- `Solvers` (`solvers.dfy`): solver termination conditions.
- `Wrappers` (`wrappers.dfy`): `Option` and `Result`.

The modelling conventions are:

- All quantities are `real`.
- Hourly series are `seq<real>`.
- A solved schedule is a value of the decision-variable datatype.
- What a solver returns is an input: `SolverRun` for the linear model, and a `SolverOutcomes`
  function from solver name and options to an attempt for the richer one.
- The time-of-use prices that the loader draws at random are an input, `touPrices`.
- Files and data frames become the values read from them: the JSON content, or the temperature,
  price and demand columns found in them.

Where the code and its documentation disagree, the model follows the code:

- The linear model has no capacity parameter.
- The linear baseline uses a fixed $70/MWh.
- The linear summary has no `baseline_cost` field.
- Nothing proves that daily savings are non-negative, and they need not be.

## Model

| member | source | states |
|---|---|---|
| LinearOptimizer.HourPenalty | model/optimizer_linear.py:93-97 | the hour's penalty is 0 at or below 95 °F or under water cooling, is positive for a chiller hour above 95 °F, and is never negative |
| LinearOptimizer.Feasible | model/optimizer_linear.py:48-76 | the constraint set of the program: variable bounds, at least 160 MWh of batch load, load balance and capacity; pinned down by FeasibleHourLoads and FlatWaterScheduleFeasible |
| LinearOptimizer.Objective | model/optimizer_linear.py:82-99 | the minimised objective as electricity, water and penalty sums; TotalCostIsObjectiveWithoutPenalty ties it to the reported total |
| LinearOptimizer.FeasibleHourLoads | model/optimizer_linear.py:48-76 | in a feasible schedule a water hour draws 37.5 MW plus its batch load; a chiller hour draws 48 MW plus its batch load and runs at most 12 MW of batch load; every hour's draw is in [37.5, 60] MW |
| LinearOptimizer.FlatWaterScheduleFeasible | model/optimizer_linear.py:56-76 | the constraint set can always be met: water cooling with 20/3 MW of batch load every hour satisfies the bounds, completion, load balance and capacity |
| LinearOptimizer.Truncate | model/optimizer_linear.py:146 | the integer conversion of the cooling flag gives back a 0/1 value unchanged and never makes a non-negative value negative |
| LinearOptimizer.HourlyRecordAt | model/optimizer_linear.py:143-156 | each hour's record copies the hour, batch load, total load, price and temperature; its costs are priced from the record's own load, price and integer cooling flag |
| LinearOptimizer.HourlyData | model/optimizer_linear.py:142-163 | the hourly table has exactly 24 records, record h being hour h |
| LinearOptimizer.BaselineCost | model/optimizer_linear.py:166 | the baseline is (30 + 20/3 + 18) MW for 24 h at $70/MWh, which is $91.84 |
| LinearOptimizer.SavingsFor | model/optimizer_linear.py:175-179 | daily savings plus total cost equal the baseline; annual savings are 365 × daily; percentage × baseline = 100 × daily; the percentage is positive iff the cost is below the baseline, and at most 100 iff the cost is non-negative |
| LinearOptimizer.EnvironmentalFor | model/optimizer_linear.py:181-186 | water saved and peak reduction are never negative; below 34560 gallons and 50 MW they are exactly the differences; a peak of 50 MW or more gives no reduction |
| LinearOptimizer.AppendRecord | model/optimizer_linear.py:158-161 | appending an hourly record adds its electricity cost, water cost and gallons to the three sums, and raises the running peak to its load if larger |
| LinearOptimizer.Extraction | model/optimizer_linear.py:128-188 | the results record without its loop; ExtractResults computes it, and ExtractedPeak, FeasibleWaterUse and FeasibleCostNonNegative state its properties |
| LinearOptimizer.ExtractResults | model/optimizer_linear.py:128-188 | the loop's record equals the specification: the 24-record table, costs as sums of the hourly columns, total = electricity + water, peak as a running maximum from 0, then the savings and environmental figures |
| LinearOptimizer.TotalCostIsObjectiveWithoutPenalty | model/optimizer_linear.py:82-99 | for a feasible schedule, the reported total cost plus the temperature penalty is the minimised objective |
| LinearOptimizer.ExtractedPeak | model/optimizer_linear.py:161 | the reported peak is non-negative, at least every hour's total load, and either 0 or the load of some hour |
| LinearOptimizer.FeasiblePeakReduction | model/optimizer_linear.py:184 | for a feasible schedule the peak lies in [37.5, 60] MW and the peak reduction in [0, 12.5] MW |
| LinearOptimizer.WaterGallonsTotal | model/optimizer_linear.py:160 | the gallons total is 120 × the number of water-cooled hours, which lies between 0 and 24 |
| LinearOptimizer.FeasibleWaterUse | model/optimizer_linear.py:182-183 | reported water use is 120 gallons per water hour, at most 2880, so water saved is exactly 34560 minus water used: the clamp never applies |
| LinearOptimizer.FeasibleCostNonNegative | model/optimizer_linear.py:152-178 | with non-negative prices, the electricity and water costs of a feasible schedule are non-negative, so at most 100% is saved |
| LinearOptimizer.LinearDataCenterOptimizer.constructor | model/optimizer_linear.py:28-29 | a new optimizer has no model and no results |
| LinearOptimizer.LinearDataCenterOptimizer.BuildModel | model/optimizer_linear.py:40-44 | the program is stored exactly when both hourly lists have 24 entries; otherwise building fails and the stored model is unchanged |
| LinearOptimizer.LinearDataCenterOptimizer.Solve | model/optimizer_linear.py:106-126 | no model: error; solver unavailable: error; the solver call raises: error; not optimal: empty reply; optimal: results set to and returned as the extraction of the solved schedule; results otherwise unchanged |
| ArizonaOptimizer.WaterEfficiency | model/optimizer.py:48-55 | the efficiency always lies in [0.70, 1.0] |
| ArizonaOptimizer.InterpolationAgrees | model/optimizer.py:256-260 | between each pair of consecutive knots the curve is the straight line through them |
| ArizonaOptimizer.EfficiencyAtKnots | model/optimizer.py:48-55 | the curve takes each knot's value at its knot, 1.0 at or below 75 °F and 0.70 at or above 120 °F |
| ArizonaOptimizer.EfficiencyNonIncreasing | model/optimizer.py:48-55 | a higher temperature never gives a higher efficiency |
| ArizonaOptimizer.GetWaterEfficiency | model/optimizer.py:249-261 | the knot scan with early return computes the piecewise-linear curve |
| ArizonaOptimizer.Feasible | model/optimizer.py:97-223 | every bound and constraint of the program; OneCoolingModePerHour, ChillerHourStages, CoolingLimitsBatch, PeakDemandAtLeast, StorageLevel and RampDrift state what it implies |
| ArizonaOptimizer.Objective | model/optimizer.py:226-244 | the five-term objective; ReportedCostsAddUp ties it to the reported costs |
| ArizonaOptimizer.StageCoolingIsThreePerStage | model/optimizer.py:143-144 | chiller cooling is 3 MW per active stage |
| ArizonaOptimizer.OneCoolingModePerHour | model/optimizer.py:129-148 | in a feasible hour exactly one of water, chiller and hybrid cooling is on: "off" is never feasible |
| ArizonaOptimizer.ChillerHourStages | model/optimizer.py:135-148 | a feasible chiller hour runs at least 3 + 0.1 × batch-load stages |
| ArizonaOptimizer.CoolingLimitsBatch | model/optimizer.py:135-148 | a feasible hybrid hour runs at most 15 MW of batch load; a water hour at most 50 × efficiency − 30 MW, and at most 5 MW at 120 °F or above |
| ArizonaOptimizer.MinRuntimeRedundant | model/optimizer.py:159-164 | the simplified minimum-runtime constraint follows from the batch-load bounds alone |
| ArizonaOptimizer.PeakDemandAtLeast | model/optimizer.py:180-186 | in a feasible assignment the peak-demand variable is at least 37.5 MW |
| ArizonaOptimizer.StorageLevel | model/optimizer.py:193-199 | the stored cold water at hour h is 100 plus the net flows (+20 per water hour, −15 per hybrid hour) of hours 1..h |
| ArizonaOptimizer.RampDrift | model/optimizer.py:167-177 | under the ramp limits the batch load at hour h is within 5h MW of hour 0's |
| ArizonaOptimizer.HourlyRecordAt | model/optimizer.py:315-325 | each hour's record copies the hour's variable values, temperature and price |
| ArizonaOptimizer.HourlyData | model/optimizer.py:314-327 | the hourly table has exactly 24 records, record h being hour h |
| ArizonaOptimizer.BaselineCost | model/optimizer.py:359-371 | the flat baseline priced at the mean price plus its demand charge; BaselineIsFlatSchedule relates it to hour-by-hour pricing and PercentageFinite shows it positive |
| ArizonaOptimizer.BaselineIsFlatSchedule | model/optimizer.py:359-371 | pricing the flat baseline draw at the mean price equals pricing it hour by hour, plus the demand charge; with non-negative prices the baseline is positive |
| ArizonaOptimizer.SavingsFor | model/optimizer.py:338-343 | daily savings plus total cost equal the baseline; annual savings are 365 × daily; the percentage is finite iff the baseline is non-zero and then × baseline = 100 × daily; with a positive baseline it is positive iff the cost is below it |
| ArizonaOptimizer.Extraction | model/optimizer.py:304-357 | the results record without its loop; ExtractResults computes it, and FeasibleWaterReport and FeasiblePeakReport state its properties |
| ArizonaOptimizer.ExtractResults | model/optimizer.py:304-357 | the loop's record equals the specification: the 24-record table, the objective as total cost, the summed columns, the demand charge, savings against the mean-price baseline, and unclamped environmental figures |
| ArizonaOptimizer.ReportedCostsAddUp | model/optimizer.py:328-335 | the reported total is the reported energy cost plus demand charge plus water cost, plus carbon cost, less the demand-response incentive |
| ArizonaOptimizer.WaterUseColumnScaled | model/optimizer.py:345-349 | with the water-cost rule, reported water use is 24000/3.24 times the summed water cost |
| ArizonaOptimizer.FeasibleWaterReport | model/optimizer.py:345-353 | for a feasible assignment water use lies in [0, 69120] gallons, is consistent with the water cost, and water saved is 34560 minus it |
| ArizonaOptimizer.FeasiblePeakReport | model/optimizer.py:329-354 | peak reduction plus peak is 50 MW; for a feasible assignment the reduction is at most 12.5 MW and the demand charge at least $506.25 |
| ArizonaOptimizer.PercentageFinite | model/optimizer.py:359-371 | with non-negative prices the baseline is positive, so the percentage saved is a finite number |
| ArizonaOptimizer.MeanToPeak | model/optimizer.py:415-419 | the mean of non-negative loads under a positive peak is at most 100% of it, and exactly 100% iff every load is the peak |
| ArizonaOptimizer.LoadFactor | model/optimizer.py:415-419 | the mean batch load as a percentage of the largest, or 0; LoadFactorBounds bounds it |
| ArizonaOptimizer.LoadFactorBounds | model/optimizer.py:415-419 | for non-negative batch loads the load factor lies in [0, 100], and is 100 exactly when the batch load is the same positive value every hour |
| ArizonaOptimizer.Candidates | model/optimizer.py:277 | the requested solver, then highs, glpk, cbc and ipopt; FirstSolved and FirstSolvedIsFirst describe the search over them |
| ArizonaOptimizer.SolverOptions | model/optimizer.py:284-287 | the time limit as `timelimit` for gurobi, cplex and cbc, as `tmlim` for glpk, otherwise none; the attempts of FirstSolved are made with these options |
| ArizonaOptimizer.FirstSolved | model/optimizer.py:278-300 | a solver found by the search is one of the candidates and ends optimal, and its assignment is that solver's |
| ArizonaOptimizer.FirstSolvedIsFirst | model/optimizer.py:278-302 | the search finds nothing iff no candidate ends optimal; otherwise it finds one that every earlier candidate failed before |
| ArizonaOptimizer.ArizonaDataCenterOptimizer.constructor | model/optimizer.py:57-58 | a new optimizer has no model and no results |
| ArizonaOptimizer.ArizonaDataCenterOptimizer.BuildModel | model/optimizer.py:82-216 | building succeeds iff there are 24 temperatures and 24 prices and the grid series is empty or has at least 20 entries; the first failing rule names the error; a failed build leaves the model unchanged |
| ArizonaOptimizer.ArizonaDataCenterOptimizer.Solve | model/optimizer.py:263-302 | no model: error; no candidate optimal: error and results unchanged; otherwise results set to and returned as the extraction of the first optimal candidate's assignment |
| DataInterface.EnsureDay | model/data_interface.py:290-308 | the result always has 24 entries; an empty list gives 24 zeros, a list of 24 or more gives its first 24 |
| DataInterface.EnsureDayCycles | model/data_interface.py:302-306 | for a non-empty list, hour i holds entry i mod n |
| DataInterface.EnsureDayIdempotent | model/data_interface.py:290-308 | normalising twice is normalising once |
| DataInterface.EnsureDayValue | model/data_interface.py:290-308 | whatever the value, a success has 24 entries; a falsy value gives 24 zeros; a list is cut or repeated |
| DataInterface.ClampTemperature | model/data_interface.py:310-323 | the result is in [50, 125] °F, and equals the reading exactly when the reading is in that range |
| DataInterface.ValidatePhoenixTemperatures | model/data_interface.py:310-323 | the loop replaces each reading below 50 by 85 and above 125 by 115, keeping the length |
| DataInterface.ValidationFixedPoints | model/data_interface.py:310-323 | validation keeps a list exactly when every reading is in [50, 125], and validating twice is validating once |
| DataInterface.FromCelsiusIfLow | model/data_interface.py:192-195 | the Celsius-to-Fahrenheit conversion of a low column; CelsiusConversion states when it applies and that it is invertible |
| DataInterface.CelsiusConversion | model/data_interface.py:192-195 | the conversion keeps the length, is undone by the inverse formula and gives readings below 122 °F; it happens only when the maximum is below 50, and otherwise the column is unchanged |
| DataInterface.TouMultiplier | model/data_interface.py:244-250 | the multiplier is 1.5, 0.6 or 1 |
| DataInterface.EstimatedPrices | model/data_interface.py:225-254 | one price per demand entry, each (0.05 + 0.10 × normalised demand) × multiplier × 1000 |
| DataInterface.EstimatePricesFromDemand | model/data_interface.py:225-254 | an empty demand gives the time-of-use prices; otherwise the loop computes the estimated prices |
| DataInterface.NormalizedInUnit | model/data_interface.py:235-240 | normalised demand lies in [0, 1], and is 0 for a flat series |
| DataInterface.EstimatedPriceBounds | model/data_interface.py:238-252 | each estimated price lies between 50 and 150 $/MWh times its multiplier, so within [30, 225]; a flat series gets the bottom of the band |
| DataInterface.EstimatedPriceMonotone | model/data_interface.py:238-252 | between hours with the same multiplier, higher demand never gets a lower price |
| DataInterface.ValidateData | model/data_interface.py:364-382 | the checks of a prepared dataset in source order; ValidateDataAccepts states when it accepts and which warnings it reports |
| DataInterface.ValidateDataAccepts | model/data_interface.py:364-382 | a dataset passes iff both lists have 24 entries and no price is negative; each warning is reported iff its condition holds; a negative price is reported before a wrong length |
| DataInterface.FieldIfPresent | model/data_interface.py:137-140 | on a dict, the field is read exactly when its key is present |
| DataInterface.ReadResponseItems | model/data_interface.py:134-140 | the loop over `response.data` computes its specification and stops at the first item that raises |
| DataInterface.ReadDataItems | model/data_interface.py:142-150 | the loop over a top-level `data` list computes its specification |
| DataInterface.EiaSeries | model/data_interface.py:129-159 | the series of an EIA dict by key precedence; ParseEiaJson computes it, and EiaPrecedence, PlainDataIsDemand, DataRecords and ResponseRecords state its cases |
| DataInterface.ParseEiaJson | model/data_interface.py:129-159 | parsing computes the EIA key-precedence specification |
| DataInterface.EiaPrecedence | model/data_interface.py:134-157 | only the first present key among response, data, prices and demand decides the result; the other keys are ignored |
| DataInterface.PlainDataIsDemand | model/data_interface.py:149-150 | a `data` list without dicts becomes the demand series as it is, with no prices |
| DataInterface.DataRecords | model/data_interface.py:144-148 | `data` records that each have demand and price are read column by column |
| DataInterface.ResponseRecords | model/data_interface.py:136-140 | `response.data` items that are all dicts never raise; when each has value and price they are read column by column |
| DataInterface.ReadObservations | model/data_interface.py:219-221 | the loop over observations computes its specification and stops at the first that raises |
| DataInterface.TemperaturesOf | model/data_interface.py:203-223 | the temperatures of a JSON value by shape; ExtractTemperatures computes it, and TemperaturePrecedence and ObservationRecords state its cases |
| DataInterface.ExtractTemperatures | model/data_interface.py:203-223 | extraction computes the temperature-shape specification |
| DataInterface.TemperaturePrecedence | model/data_interface.py:203-223 | `temperatures` wins whatever else is present; then a `data` list; a dict matching no shape gives an empty list; a number, boolean or null raises |
| DataInterface.ObservationRecords | model/data_interface.py:218-221 | observations that each have a temperature are read column by column |
| DataInterface.PricesFor | model/data_interface.py:71-78 | given prices kept, else estimated from demand, else the time-of-use schedule; GivenPricesKept, PricesFromDemand and PricesFromSchedule state the three cases |
| DataInterface.ElectricityDataOf | model/data_interface.py:31-82 | read, fill in prices, force them to 24 hours; LoadElectricityData computes it and LoadedElectricityShape bounds its shape |
| DataInterface.LoadElectricityData | model/data_interface.py:31-82 | loading computes the specification: read the source, fill in missing prices from demand or the time-of-use schedule, force the prices to 24 hours |
| DataInterface.LoadedElectricityShape | model/data_interface.py:71-82 | a read error is passed on; a success has 24 prices and the demand as read |
| DataInterface.GivenPricesKept | model/data_interface.py:71-80 | a non-empty price list is never replaced, only cut or repeated to 24 hours |
| DataInterface.PricesFromDemand | model/data_interface.py:71-80 | without prices, numeric demand gives 24 estimated prices, hour i from demand entry i mod n, each within [30, 225] $/MWh |
| DataInterface.EstimatedDay | model/data_interface.py:225-308 | the estimated prices forced to 24 hours follow demand entry i mod n and lie within [30, 225] |
| DataInterface.PricesFromSchedule | model/data_interface.py:71-80 | with neither prices nor demand the day is the time-of-use schedule, each hour within 5% of its rate |
| DataInterface.WeatherOf | model/data_interface.py:84-127 | read, force to 24 hours, replace implausible readings; LoadWeatherData computes it, and LoadedWeatherInRange, WeatherListCycles and FahrenheitFrame state its properties |
| DataInterface.LoadWeatherData | model/data_interface.py:84-127 | loading computes the specification: read the source, force to 24 hours, then replace implausible readings |
| DataInterface.LoadedWeatherInRange | model/data_interface.py:120-127 | loaded weather is always 24 readings, each in [50, 125] °F |
| DataInterface.WeatherListCycles | model/data_interface.py:115-127 | a list loads iff the hours it supplies are all numbers; hour i then holds entry i mod n, replaced when implausible; an empty list gives 24 hours of 85 °F |
| DataInterface.FahrenheitFrame | model/data_interface.py:179-197 | a 24-hour frame column already in Fahrenheit loads as that column with implausible readings replaced |

## Left out

- The solver is not modelled: solving, availability, termination conditions and reading
  variable values. What a solver returns is an input, and no property claims the returned
  assignment is optimal.
- The richer model's `Solve` does not model a solver that raises after an optimal status while
  the results are read. With a complete assignment the extraction cannot fail.
- `_generate_tou_prices` and `_generate_phoenix_pattern` draw random numbers. The time-of-use
  prices are an input; `TouDay` states the band the generator stays in. The Phoenix pattern is
  never used by the modelled operations.
- Reading files (`pd.read_csv`, `open`, `json.load`) is not modelled. Neither is the
  column-name search in `_parse_eia_dataframe` and `_parse_noaa_csv`. A file or data frame is
  given by the values read from it, and the temperature column of a CSV is taken as numbers.
- `prepare_optimization_data` is not modelled: the date, the metadata and the call to
  validation. `_validate_data` is modelled on its own. `export_to_model_format` only repackages
  a dictionary and is not modelled.
- `generate_report` formats text and is not modelled. The load factor it prints is modelled.
- `max_cooling_switches` and `min_batch_runtime` are set in the constructor but unused, and the
  switch-limit constraint is commented out.
- The `timestamps` entry of the electricity data is always an empty list and is omitted.
- The printed warnings and status messages are not modelled. `ValidateData` returns the warnings
  as a list.
- Floating-point arithmetic is not modelled; all quantities are exact reals.
- ArizonaOptimizer.SavingsFor: dividing by a zero baseline yields floating-point infinity or
  NaN. Both are collapsed into `NotFinite`.
- EnsureDayValue: slicing a dict with more than 24 keys raises `TypeError` or `KeyError`
  depending on the Python version. The model always reports `TypeError`.
- Json.Lookup: an object value may repeat a key and `Lookup` then takes the first entry, where
  `json.load` keeps the last. Every object a loader reads comes from a Python dict, whose keys are
  distinct (`DistinctKeys`), and for those `LookupDistinct` shows the choice does not matter.
- Equality of a Python float with an int, and of `True` with 1, is not modelled. In the JSON
  values, booleans and numbers are distinct except where they are used as numbers.
