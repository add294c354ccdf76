/**
 * The richer formulation of the one-day schedule: three binary cooling modes per hour (water,
 * chiller, hybrid), six chiller stages, a thermal store, demand response and a peak-demand
 * variable priced by a demand charge. Constraints are predicates over an `Assignment` of the
 * decision variables; the solver is an input and the fallback over solvers is modelled as an
 * ordered search.
 */
module ArizonaOptimizer {
  import opened Wrappers
  import opened Sums
  import opened Solvers

  // Facility parameters fixed by the constructor.
  const TotalCapacityMw: real := 50.0
  const CriticalLoadMw: real := 30.0
  const FlexibleLoadMw: real := 20.0
  const CoolingCapacityMw: real := 15.0
  const WaterCoolingPue: real := 0.5
  const ChillerPueBase: real := 1.2
  const HybridCoolingPue: real := 0.8
  const WaterCostPer1000Gal: real := 3.24
  const DemandChargePerKw: real := 13.5
  const RampRateLimit: real := 5.0

  const Hours: nat := 24
  const ChillerStages: nat := 6
  const StageCoolingMw: real := 3.0
  const StorageCapacity: real := 1000.0
  const InitialStorage: real := 100.0
  const StorageCharge: real := 20.0     // stored per water-cooled hour
  const StorageDischarge: real := 15.0  // drawn per hybrid hour
  const DemandResponseIncentive: real := 50.0
  const BaselineWaterGallons: real := 34560.0
  const ReferenceCapacityMw: real := 50.0
  const CarbonTonsPerDollar: real := 0.00041

  /** Peak tariff hours, 3 PM to 8 PM. */
  predicate IsPeakHour(h: int)
  {
    15 <= h < 20
  }

  // ---------------------------------------------------------------------------------------
  // Water-cooling efficiency

  /** The efficiency curve's knots (°F, efficiency), in increasing temperature order. */
  const EfficiencyCurve: seq<(real, real)> :=
    [(75.0, 1.0), (85.0, 0.95), (95.0, 0.90), (105.0, 0.85), (115.0, 0.75), (120.0, 0.70)]

  /** The curve in closed form: flat outside [75, 120] °F, and linear with the given slope on each segment. */
  function WaterEfficiency(t: real): (e: real)
    ensures 0.70 <= e <= 1.0
  {
    if t <= 75.0 then 1.0
    else if t <= 85.0 then 1.0 - 0.005 * (t - 75.0)
    else if t <= 95.0 then 0.95 - 0.005 * (t - 85.0)
    else if t <= 105.0 then 0.90 - 0.005 * (t - 95.0)
    else if t <= 115.0 then 0.85 - 0.01 * (t - 105.0)
    else if t <= 120.0 then 0.75 - 0.01 * (t - 115.0)
    else 0.70
  }

  /** Linear interpolation between knots `i` and `i + 1` of the curve. */
  function Interpolate(i: nat, t: real): real
    requires i + 1 < |EfficiencyCurve|
  {
    var (t1, e1) := EfficiencyCurve[i];
    var (t2, e2) := EfficiencyCurve[i + 1];
    e1 + (e2 - e1) * (t - t1) / (t2 - t1)
  }

  /** Between two consecutive knots the curve is the straight line through them. */
  lemma {:induction false} InterpolationAgrees(i: nat, t: real)
    requires i + 1 < |EfficiencyCurve|
    requires EfficiencyCurve[i].0 <= t <= EfficiencyCurve[i + 1].0
    ensures WaterEfficiency(t) == Interpolate(i, t)
  {
    if i == 0 {
    } else if i == 1 {
    } else if i == 2 {
    } else if i == 3 {
    } else {
      assert i == 4;
    }
  }

  /** The curve passes through every knot and is clamped to the end knots' values outside them. */
  lemma EfficiencyAtKnots()
    ensures forall i :: 0 <= i < |EfficiencyCurve| ==> WaterEfficiency(EfficiencyCurve[i].0) == EfficiencyCurve[i].1
    ensures forall t :: t <= 75.0 ==> WaterEfficiency(t) == 1.0
    ensures forall t :: t >= 120.0 ==> WaterEfficiency(t) == 0.70
  {
  }

  /** Hotter air never makes water cooling more efficient. */
  lemma EfficiencyNonIncreasing(t1: real, t2: real)
    requires t1 <= t2
    ensures WaterEfficiency(t2) <= WaterEfficiency(t1)
  {
  }

  /** Scans the sorted knots and returns at the first one at or above the temperature, interpolating inside a segment. */
  method GetWaterEfficiency(temperature: real) returns (e: real)
    ensures e == WaterEfficiency(temperature)
  {
    var i := 0;
    while i < |EfficiencyCurve| - 1
      invariant 0 <= i <= |EfficiencyCurve| - 1
      invariant i > 0 ==> temperature > EfficiencyCurve[i].0
    {
      var (t, e1) := EfficiencyCurve[i];
      if temperature <= t {
        return e1;
      } else if temperature <= EfficiencyCurve[i + 1].0 {
        var (t2, e2) := EfficiencyCurve[i + 1];
        InterpolationAgrees(i, temperature);
        return e1 + (e2 - e1) * (temperature - t) / (t2 - t);
      }
      i := i + 1;
    }
    e := EfficiencyCurve[|EfficiencyCurve| - 1].1;
  }

  // ---------------------------------------------------------------------------------------
  // The program and an assignment of its variables

  /** The parameters of a built program: hourly temperatures (°F), hourly prices ($/MWh) and the grid-demand series, empty when none was given. */
  datatype Program = Program(temp: seq<real>, price: seq<real>, gridDemand: seq<real>)

  /** Both hourly lists index hours 0..23 exactly; a grid series, when given, has a value at every peak hour. */
  predicate WellFormed(p: Program)
  {
    |p.temp| == Hours && |p.price| == Hours && (p.gridDemand == [] || |p.gridDemand| >= 20)
  }

  /** The decision variables of one hour. */
  datatype HourVars = HourVars(
    batchLoad: real,
    useWater: real,
    useChiller: real,
    useHybrid: real,
    stagesOn: seq<real>,
    coldWaterStored: real,
    demandResponse: real,
    energyCost: real,
    waterCost: real,
    emissions: real)

  /** Values for every hourly variable and for the single peak-demand variable. */
  datatype Assignment = Assignment(hours: seq<HourVars>, peakDemand: real)

  predicate Shaped(a: Assignment)
  {
    |a.hours| == Hours
  }

  predicate IsBinary(x: real)
  {
    x == 0.0 || x == 1.0
  }

  // ---------------------------------------------------------------------------------------
  // Constraints

  /** Variable bounds and domains of one hour. */
  predicate InDomain(v: HourVars)
  {
    && 0.0 <= v.batchLoad <= FlexibleLoadMw
    && IsBinary(v.useWater) && IsBinary(v.useChiller) && IsBinary(v.useHybrid)
    && |v.stagesOn| == ChillerStages && (forall s :: 0 <= s < |v.stagesOn| ==> IsBinary(v.stagesOn[s]))
    && 0.0 <= v.coldWaterStored <= StorageCapacity
    && IsBinary(v.demandResponse)
    && v.energyCost >= 0.0 && v.waterCost >= 0.0 && v.emissions >= 0.0
  }

  /** At most one cooling mode per hour. */
  predicate ModeSelected(v: HourVars)
  {
    v.useWater + v.useChiller + v.useHybrid <= 1.0
  }

  /** Heat to remove: 30% of the IT load. */
  function HeatGenerated(v: HourVars): real
  {
    (CriticalLoadMw + v.batchLoad) * 0.3
  }

  /** Cooling from the active chiller stages, 3 MW each. */
  function StageCooling(stages: seq<real>): real
  {
    Sum(seq(|stages|, s requires 0 <= s < |stages| => stages[s] * StageCoolingMw))
  }

  /** Cooling delivered by the selected mode: water cooling derated by the temperature, staged chiller, or hybrid at 90%. */
  function CoolingProvided(temp: real, v: HourVars): real
  {
    v.useWater * CoolingCapacityMw * WaterEfficiency(temp)
    + v.useChiller * StageCooling(v.stagesOn)
    + v.useHybrid * CoolingCapacityMw * 0.9
  }

  predicate CoolingMet(temp: real, v: HourVars)
  {
    CoolingProvided(temp, v) >= HeatGenerated(v)
  }

  /** The facility draw in one hour: critical and batch load plus the selected mode's cooling draw. */
  function FacilityLoad(v: HourVars): real
  {
    CriticalLoadMw + v.batchLoad
    + v.useChiller * CoolingCapacityMw * ChillerPueBase
    + v.useWater * CoolingCapacityMw * WaterCoolingPue
    + v.useHybrid * CoolingCapacityMw * HybridCoolingPue
  }

  /** Gallons drawn in one hour: 120 under water cooling, 60 under hybrid cooling. */
  function HourGallons(v: HourVars): real
  {
    v.useWater * 120.0 + v.useHybrid * 60.0
  }

  predicate EnergyCostDefined(price: real, v: HourVars)
  {
    v.energyCost == FacilityLoad(v) * price / 1000.0
  }

  predicate WaterCostDefined(v: HourVars)
  {
    v.waterCost == HourGallons(v) * WaterCostPer1000Gal / 1000.0
  }

  /** Every constraint that concerns one hour alone. */
  predicate HourFeasible(temp: real, price: real, v: HourVars)
  {
    InDomain(v) && ModeSelected(v) && CoolingMet(temp, v) && EnergyCostDefined(price, v) && WaterCostDefined(v)
  }

  function BatchLoads(a: Assignment): (b: seq<real>)
    ensures |b| == |a.hours| && forall h :: 0 <= h < |b| ==> b[h] == a.hours[h].batchLoad
  {
    seq(|a.hours|, h requires 0 <= h < |a.hours| => a.hours[h].batchLoad)
  }

  /** Eight hours' worth of the flexible load is processed over the day. */
  predicate BatchCompleted(a: Assignment)
  {
    Sum(BatchLoads(a)) >= FlexibleLoadMw * 8.0
  }

  /** The simplified minimum-runtime rule, for every hour that has a successor. */
  predicate MinRuntimeHolds(a: Assignment)
    requires Shaped(a)
  {
    forall h :: 0 <= h < Hours - 1 ==> a.hours[h].batchLoad <= a.hours[h + 1].batchLoad + FlexibleLoadMw
  }

  /** The batch load moves by at most 5 MW from one hour to the next, in either direction. */
  predicate RampLimited(a: Assignment)
    requires Shaped(a)
  {
    forall h :: 0 < h < Hours ==>
      a.hours[h].batchLoad - a.hours[h - 1].batchLoad <= RampRateLimit
      && a.hours[h - 1].batchLoad - a.hours[h].batchLoad <= RampRateLimit
  }

  /** The peak-demand variable is non-negative and at least every hour's facility load. */
  predicate PeakTracked(a: Assignment)
  {
    a.peakDemand >= 0.0 && forall h :: 0 <= h < |a.hours| ==> FacilityLoad(a.hours[h]) <= a.peakDemand
  }

  /** The thermal store starts at 100 MWh, gains 20 in each water-cooled hour and loses 15 in each hybrid hour. */
  predicate StorageBalanced(a: Assignment)
    requires Shaped(a)
  {
    && a.hours[0].coldWaterStored == InitialStorage
    && forall h :: 0 < h < Hours ==>
         a.hours[h].coldWaterStored
         == a.hours[h - 1].coldWaterStored + a.hours[h].useWater * StorageCharge - a.hours[h].useHybrid * StorageDischarge
  }

  /** With grid data, demand response is on exactly in the peak hours whose grid demand exceeds 90% of the day's maximum; without, it is free. */
  predicate DemandResponseFixed(p: Program, a: Assignment)
    requires WellFormed(p) && Shaped(a)
  {
    p.gridDemand != [] ==>
      forall h :: 0 <= h < Hours ==>
        a.hours[h].demandResponse
        == if IsPeakHour(h) && p.gridDemand[h] > 0.9 * MaxOf(p.gridDemand) then 1.0 else 0.0
  }

  /** An assignment satisfying every bound and constraint of the program. */
  predicate Feasible(p: Program, a: Assignment)
    requires WellFormed(p)
  {
    && Shaped(a)
    && (forall h :: 0 <= h < Hours ==> HourFeasible(p.temp[h], p.price[h], a.hours[h]))
    && BatchCompleted(a)
    && MinRuntimeHolds(a)
    && RampLimited(a)
    && PeakTracked(a)
    && StorageBalanced(a)
    && DemandResponseFixed(p, a)
  }

  // ---------------------------------------------------------------------------------------
  // Objective

  function EnergyCosts(a: Assignment): (c: seq<real>)
    ensures |c| == |a.hours| && forall h :: 0 <= h < |c| ==> c[h] == a.hours[h].energyCost
  {
    seq(|a.hours|, h requires 0 <= h < |a.hours| => a.hours[h].energyCost)
  }

  function WaterCosts(a: Assignment): (c: seq<real>)
    ensures |c| == |a.hours| && forall h :: 0 <= h < |c| ==> c[h] == a.hours[h].waterCost
  {
    seq(|a.hours|, h requires 0 <= h < |a.hours| => a.hours[h].waterCost)
  }

  /** Carbon priced at $0.02 per unit of the emissions variable. */
  function CarbonCosts(a: Assignment): (c: seq<real>)
    ensures |c| == |a.hours| && forall h :: 0 <= h < |c| ==> c[h] == a.hours[h].emissions * 0.02
  {
    seq(|a.hours|, h requires 0 <= h < |a.hours| => a.hours[h].emissions * 0.02)
  }

  /** $50 earned for each hour of demand response. */
  function Incentives(a: Assignment): (c: seq<real>)
    ensures |c| == |a.hours| && forall h :: 0 <= h < |c| ==> c[h] == a.hours[h].demandResponse * DemandResponseIncentive
  {
    seq(|a.hours|, h requires 0 <= h < |a.hours| => a.hours[h].demandResponse * DemandResponseIncentive)
  }

  /** Energy cost plus demand charge plus water and carbon cost, less the demand-response incentive. */
  function Objective(a: Assignment): real
  {
    Sum(EnergyCosts(a)) + a.peakDemand * DemandChargePerKw + Sum(WaterCosts(a)) + Sum(CarbonCosts(a)) - Sum(Incentives(a))
  }

  // ---------------------------------------------------------------------------------------
  // What the constraints imply

  /** Active stages deliver 3 MW each. */
  lemma StageCoolingIsThreePerStage(stages: seq<real>)
    ensures StageCooling(stages) == 3.0 * Sum(stages)
  {
    SumScale(stages, 3.0, seq(|stages|, s requires 0 <= s < |stages| => stages[s] * StageCoolingMw));
  }

  /** The heat load is never zero, so a feasible hour runs exactly one cooling mode: "off" is never chosen. */
  lemma OneCoolingModePerHour(temp: real, price: real, v: HourVars)
    requires HourFeasible(temp, price, v)
    ensures v.useWater + v.useChiller + v.useHybrid == 1.0
  {
  }

  /** A chiller hour needs at least three stages, plus one more for every 10 MW of batch load. */
  lemma ChillerHourStages(temp: real, price: real, v: HourVars)
    requires HourFeasible(temp, price, v) && v.useChiller == 1.0
    ensures Sum(v.stagesOn) >= 3.0 + 0.1 * v.batchLoad
  {
    StageCoolingIsThreePerStage(v.stagesOn);
    OneCoolingModePerHour(temp, price, v);
  }

  /** Hybrid cooling covers at most 15 MW of batch load; water cooling covers what its derated capacity allows, 5 MW at 120 °F and above. */
  lemma CoolingLimitsBatch(temp: real, price: real, v: HourVars)
    requires HourFeasible(temp, price, v)
    ensures v.useHybrid == 1.0 ==> v.batchLoad <= 15.0
    ensures v.useWater == 1.0 ==> v.batchLoad <= 50.0 * WaterEfficiency(temp) - 30.0
    ensures v.useWater == 1.0 && temp >= 120.0 ==> v.batchLoad <= 5.0
  {
    OneCoolingModePerHour(temp, price, v);
  }

  /** The minimum-runtime rule is implied by the batch-load bounds and never binds. */
  lemma MinRuntimeRedundant(a: Assignment)
    requires Shaped(a)
    requires forall h :: 0 <= h < Hours ==> InDomain(a.hours[h])
    ensures MinRuntimeHolds(a)
  {
  }

  /** The peak-demand variable is at least 37.5 MW: the critical load plus the cheapest cooling draw. */
  lemma PeakDemandAtLeast(p: Program, a: Assignment)
    requires WellFormed(p) && Feasible(p, a)
    ensures a.peakDemand >= 37.5
  {
    var v := a.hours[0];
    assert HourFeasible(p.temp[0], p.price[0], v);
    OneCoolingModePerHour(p.temp[0], p.price[0], v);
    assert FacilityLoad(v) <= a.peakDemand;
  }

  /** The store's net change in hour `k`: nothing in hour 0, then 20 per water-cooled hour less 15 per hybrid hour. */
  function StorageFlows(a: Assignment): (f: seq<real>)
    ensures |f| == |a.hours|
    ensures forall k :: 0 < k < |f| ==> f[k] == a.hours[k].useWater * StorageCharge - a.hours[k].useHybrid * StorageDischarge
  {
    seq(|a.hours|, k requires 0 <= k < |a.hours| =>
      if k == 0 then 0.0 else a.hours[k].useWater * StorageCharge - a.hours[k].useHybrid * StorageDischarge)
  }

  /** The storage balance in closed form: the level at hour `h` is 100 MWh plus the net flows of hours 1..h. */
  lemma {:induction false} StorageLevel(a: Assignment, h: nat)
    requires Shaped(a) && StorageBalanced(a) && h < Hours
    ensures a.hours[h].coldWaterStored == InitialStorage + Sum(StorageFlows(a)[..h + 1])
  {
    var f := StorageFlows(a);
    if h == 0 {
      assert f[..1] == [f[0]];
      SumSnoc([], f[0]);
    } else {
      StorageLevel(a, h - 1);
      assert f[..h + 1] == f[..h] + [f[h]];
      SumSnoc(f[..h], f[h]);
    }
  }

  /** The ramp limit bounds how far the batch load can drift from its hour-0 value: 5 MW per elapsed hour. */
  lemma {:induction false} RampDrift(a: Assignment, h: nat)
    requires Shaped(a) && RampLimited(a) && h < Hours
    ensures a.hours[h].batchLoad - a.hours[0].batchLoad <= RampRateLimit * h as real
    ensures a.hours[0].batchLoad - a.hours[h].batchLoad <= RampRateLimit * h as real
  {
    if h > 0 {
      RampDrift(a, h - 1);
    }
  }

  // ---------------------------------------------------------------------------------------
  // Extracting the results record

  /** One row of the hourly table: the hour's variable values and parameters, as reported. */
  datatype HourlyRecord = HourlyRecord(
    hour: nat,
    batchLoadMw: real,
    waterCooling: real,
    chillerCooling: real,
    hybridCooling: real,
    energyCost: real,
    waterCost: real,
    temperature: real,
    electricityPrice: real)

  datatype Summary = Summary(totalCost: real, peakDemandMw: real, energyCost: real, waterCost: real, demandCharge: real)

  /** A quotient as floating point produces it: a finite value, or the infinity or NaN of dividing by zero. */
  datatype Ratio = Finite(value: real) | NotFinite

  datatype Savings = Savings(dailySavings: real, annualSavings: real, percentageSaved: Ratio)

  datatype Environmental = Environmental(waterUsedGallons: real, waterSavedGallons: real, peakReductionMw: real, carbonAvoidedTons: real)

  datatype Results = Results(hourlyData: seq<HourlyRecord>, summary: Summary, savings: Savings, environmental: Environmental)

  function HourlyRecordAt(p: Program, a: Assignment, h: nat): (r: HourlyRecord)
    requires WellFormed(p) && Shaped(a) && h < Hours
    ensures r.hour == h && r.batchLoadMw == a.hours[h].batchLoad
    ensures r.waterCooling == a.hours[h].useWater && r.chillerCooling == a.hours[h].useChiller && r.hybridCooling == a.hours[h].useHybrid
    ensures r.energyCost == a.hours[h].energyCost && r.waterCost == a.hours[h].waterCost
    ensures r.temperature == p.temp[h] && r.electricityPrice == p.price[h]
  {
    var v := a.hours[h];
    HourlyRecord(h, v.batchLoad, v.useWater, v.useChiller, v.useHybrid, v.energyCost, v.waterCost, p.temp[h], p.price[h])
  }

  /** The hourly table, one record per hour in hour order. */
  function HourlyData(p: Program, a: Assignment): (hs: seq<HourlyRecord>)
    requires WellFormed(p) && Shaped(a)
    ensures |hs| == Hours && forall h :: 0 <= h < Hours ==> hs[h] == HourlyRecordAt(p, a, h)
  {
    seq(Hours, h requires 0 <= h < Hours => HourlyRecordAt(p, a, h))
  }

  function EnergyCostColumn(hourly: seq<HourlyRecord>): (c: seq<real>)
    ensures |c| == |hourly| && forall h :: 0 <= h < |c| ==> c[h] == hourly[h].energyCost
  {
    seq(|hourly|, h requires 0 <= h < |hourly| => hourly[h].energyCost)
  }

  function WaterCostColumn(hourly: seq<HourlyRecord>): (c: seq<real>)
    ensures |c| == |hourly| && forall h :: 0 <= h < |c| ==> c[h] == hourly[h].waterCost
  {
    seq(|hourly|, h requires 0 <= h < |hourly| => hourly[h].waterCost)
  }

  /** Each record's gallons per hour, multiplied by 24 as the reported water use is. */
  function WaterUseColumn(hourly: seq<HourlyRecord>): (c: seq<real>)
    ensures |c| == |hourly| && forall h :: 0 <= h < |c| ==> c[h] == (hourly[h].waterCooling * 120.0 + hourly[h].hybridCooling * 60.0) * 24.0
  {
    seq(|hourly|, h requires 0 <= h < |hourly| => (hourly[h].waterCooling * 120.0 + hourly[h].hybridCooling * 60.0) * 24.0)
  }

  function BatchLoadColumn(hourly: seq<HourlyRecord>): (c: seq<real>)
    ensures |c| == |hourly| && forall h :: 0 <= h < |c| ==> c[h] == hourly[h].batchLoadMw
  {
    seq(|hourly|, h requires 0 <= h < |hourly| => hourly[h].batchLoadMw)
  }

  /** The no-optimisation baseline's flat draw: critical load, a third of the flexible load and full chiller cooling. */
  const BaselineLoadMw: real := CriticalLoadMw + FlexibleLoadMw / 3.0 + CoolingCapacityMw * ChillerPueBase

  /** The baseline's cost: its flat draw for 24 hours at the day's mean price, plus the demand charge on that draw. */
  function BaselineCost(prices: seq<real>): real
    requires |prices| == Hours
  {
    BaselineLoadMw * 24.0 * Mean(prices) / 1000.0 + BaselineLoadMw * DemandChargePerKw
  }

  /** The cost of the flat baseline draw in each hour at that hour's price. */
  function FlatEnergyCosts(prices: seq<real>): (c: seq<real>)
    ensures |c| == |prices| && forall h :: 0 <= h < |c| ==> c[h] == BaselineLoadMw / 1000.0 * prices[h]
  {
    seq(|prices|, h requires 0 <= h < |prices| => BaselineLoadMw / 1000.0 * prices[h])
  }

  /** Pricing the baseline at the mean price equals running the flat draw hour by hour at each hour's price; with non-negative prices it is at least the demand charge. */
  lemma BaselineIsFlatSchedule(prices: seq<real>)
    requires |prices| == Hours
    ensures BaselineCost(prices) == Sum(FlatEnergyCosts(prices)) + BaselineLoadMw * DemandChargePerKw
    ensures (forall h :: 0 <= h < Hours ==> prices[h] >= 0.0) ==> BaselineCost(prices) >= BaselineLoadMw * DemandChargePerKw > 0.0
  {
    SumScale(prices, BaselineLoadMw / 1000.0, FlatEnergyCosts(prices));
    if forall h :: 0 <= h < Hours ==> prices[h] >= 0.0 {
      SumNonNegative(prices);
    }
  }

  /** Savings against the baseline; the percentage is not a finite number when the baseline is zero. */
  function SavingsFor(totalCost: real, baseline: real): (s: Savings)
    ensures s.dailySavings + totalCost == baseline
    ensures s.annualSavings == 365.0 * s.dailySavings
    ensures s.percentageSaved.Finite? <==> baseline != 0.0
    ensures s.percentageSaved.Finite? ==> s.percentageSaved.value * baseline == s.dailySavings * 100.0
    ensures baseline > 0.0 ==> (s.percentageSaved.value > 0.0 <==> totalCost < baseline)
  {
    var daily := baseline - totalCost;
    Savings(daily, daily * 365.0, if baseline == 0.0 then NotFinite else Finite(daily / baseline * 100.0))
  }

  /** The whole results record of a solved assignment, stated without the loop that builds it. */
  function Extraction(p: Program, a: Assignment): Results
    requires WellFormed(p) && Shaped(a)
  {
    var hourly := HourlyData(p, a);
    var savings := SavingsFor(Objective(a), BaselineCost(p.price));
    var waterUsed := Sum(WaterUseColumn(hourly));
    Results(
      hourly,
      Summary(Objective(a), a.peakDemand, Sum(EnergyCostColumn(hourly)), Sum(WaterCostColumn(hourly)), a.peakDemand * DemandChargePerKw),
      savings,
      Environmental(waterUsed, BaselineWaterGallons - waterUsed, ReferenceCapacityMw - a.peakDemand, savings.dailySavings * CarbonTonsPerDollar))
  }

  /** Walks the 24 hours appending each hour's record, then totals the columns. */
  method ExtractResults(p: Program, a: Assignment) returns (r: Results)
    requires WellFormed(p) && Shaped(a)
    ensures r == Extraction(p, a)
  {
    var hourly: seq<HourlyRecord> := [];
    var h := 0;
    while h < Hours
      invariant 0 <= h <= Hours
      invariant hourly == HourlyData(p, a)[..h]
    {
      var record := HourlyRecordAt(p, a, h);
      assert HourlyData(p, a)[..h + 1] == hourly + [record];
      hourly := hourly + [record];
      h := h + 1;
    }
    assert hourly == HourlyData(p, a);
    var summary := Summary(
      Objective(a), a.peakDemand, Sum(EnergyCostColumn(hourly)), Sum(WaterCostColumn(hourly)), a.peakDemand * DemandChargePerKw);
    var baseline := BaselineCost(p.price);
    var savings := SavingsFor(summary.totalCost, baseline);
    var waterUsed := Sum(WaterUseColumn(hourly));
    r := Results(
      hourly,
      summary,
      savings,
      Environmental(waterUsed, BaselineWaterGallons - waterUsed, ReferenceCapacityMw - summary.peakDemandMw, savings.dailySavings * CarbonTonsPerDollar));
  }

  // ---------------------------------------------------------------------------------------
  // Properties of the extracted record

  /** The reported total is the sum of the reported energy cost, demand charge and water cost, plus the carbon cost, less the incentive. */
  lemma ReportedCostsAddUp(p: Program, a: Assignment)
    requires WellFormed(p) && Shaped(a)
    ensures var s := Extraction(p, a).summary;
      s.totalCost == s.energyCost + s.demandCharge + s.waterCost + Sum(CarbonCosts(a)) - Sum(Incentives(a))
  {
    var hourly := HourlyData(p, a);
    assert EnergyCostColumn(hourly) == EnergyCosts(a);
    assert WaterCostColumn(hourly) == WaterCosts(a);
  }

  /** Per hour, the reported water use is 24 times the gallons the water cost was charged for. */
  lemma WaterUseColumnScaled(p: Program, a: Assignment)
    requires WellFormed(p) && Shaped(a)
    requires forall h :: 0 <= h < Hours ==> WaterCostDefined(a.hours[h])
    ensures var hourly := HourlyData(p, a);
      Sum(WaterUseColumn(hourly)) == 24000.0 / 3.24 * Sum(WaterCostColumn(hourly))
  {
    var hourly := HourlyData(p, a);
    SumScale(WaterCostColumn(hourly), 24000.0 / 3.24, WaterUseColumn(hourly));
  }

  /** Reported water use of a feasible day: at most 2880 gallons per hour, consistent with the water cost, and the saving is measured against 34560 gallons. */
  lemma FeasibleWaterReport(p: Program, a: Assignment)
    requires WellFormed(p) && Feasible(p, a)
    ensures var r := Extraction(p, a);
      && 0.0 <= r.environmental.waterUsedGallons <= 69120.0
      && r.summary.waterCost * 24000.0 == 3.24 * r.environmental.waterUsedGallons
      && r.environmental.waterSavedGallons == BaselineWaterGallons - r.environmental.waterUsedGallons
  {
    var hourly := HourlyData(p, a);
    var use := WaterUseColumn(hourly);
    WaterUseColumnScaled(p, a);
    forall h | 0 <= h < Hours
      ensures 0.0 <= use[h] <= 2880.0
    {
      OneCoolingModePerHour(p.temp[h], p.price[h], a.hours[h]);
    }
    SumNonNegative(use);
    SumAtMostBound(use, 2880.0);
  }

  /** The reported peak is at least 37.5 MW, so the reported peak reduction is at most 12.5 MW and the demand charge at least $506.25. */
  lemma FeasiblePeakReport(p: Program, a: Assignment)
    requires WellFormed(p) && Feasible(p, a)
    ensures var r := Extraction(p, a);
      && r.environmental.peakReductionMw + r.summary.peakDemandMw == ReferenceCapacityMw
      && r.environmental.peakReductionMw <= 12.5
      && r.summary.demandCharge >= 506.25
  {
    PeakDemandAtLeast(p, a);
  }

  /** With non-negative prices the baseline is positive, so the percentage saved is a finite number. */
  lemma PercentageFinite(p: Program, a: Assignment)
    requires WellFormed(p) && Shaped(a)
    requires forall h :: 0 <= h < Hours ==> p.price[h] >= 0.0
    ensures Extraction(p, a).savings.percentageSaved.Finite?
  {
    BaselineIsFlatSchedule(p.price);
  }

  /** The load-factor figure of the report: the mean batch load as a percentage of the largest, or 0 when no batch load runs. */
  function LoadFactor(hourly: seq<HourlyRecord>): real
    requires |hourly| > 0
  {
    var loads := BatchLoadColumn(hourly);
    var peak := MaxOf(loads);
    if peak > 0.0 then Mean(loads) / peak * 100.0 else 0.0
  }

  lemma QuotientAtMost(x: real, n: real, m: real)
    requires n > 0.0 && m > 0.0 && 0.0 <= x <= n * m
    ensures 0.0 <= x / n / m * 100.0 <= 100.0
    ensures x / n / m * 100.0 == 100.0 <==> x == n * m
  {
    var q := x / n;
    assert q * n == x;
    assert q <= m;
    MulNonNegative(q, 1.0 / m);
    assert q / m * m == q;
  }

  /** The batch load is the same positive value in every hour. */
  predicate FlatPositive(hourly: seq<HourlyRecord>)
    requires |hourly| > 0
  {
    hourly[0].batchLoadMw > 0.0 && forall h :: 0 <= h < |hourly| ==> hourly[h].batchLoadMw == hourly[0].batchLoadMw
  }

  /** The mean of a non-negative column bounded by a positive `peak` is at most that peak, and equal to it exactly when every entry is the peak. */
  lemma MeanToPeak(loads: seq<real>, peak: real)
    requires |loads| > 0 && peak > 0.0
    requires forall h :: 0 <= h < |loads| ==> 0.0 <= loads[h] <= peak
    ensures 0.0 <= Mean(loads) / peak * 100.0 <= 100.0
    ensures Mean(loads) / peak * 100.0 == 100.0 <==> forall h :: 0 <= h < |loads| ==> loads[h] == peak
  {
    SumNonNegative(loads);
    SumAtMostBound(loads, peak);
    QuotientAtMost(Sum(loads), |loads| as real, peak);
  }

  /** For non-negative loads the load factor lies in [0, 100], and is 100 exactly when the batch load is the same positive value every hour. */
  lemma LoadFactorBounds(hourly: seq<HourlyRecord>)
    requires |hourly| > 0
    requires forall h :: 0 <= h < |hourly| ==> hourly[h].batchLoadMw >= 0.0
    ensures 0.0 <= LoadFactor(hourly) <= 100.0
    ensures LoadFactor(hourly) == 100.0 <==> FlatPositive(hourly)
  {
    var loads := BatchLoadColumn(hourly);
    var peak := MaxOf(loads);
    if peak > 0.0 {
      MeanToPeak(loads, peak);
      assert LoadFactor(hourly) == Mean(loads) / peak * 100.0;
      if FlatPositive(hourly) {
        var k :| 0 <= k < |loads| && loads[k] == peak;
        assert forall h :: 0 <= h < |loads| ==> loads[h] == loads[k];
      }
      if forall h :: 0 <= h < |loads| ==> loads[h] == peak {
        assert loads[0] == peak;
      }
    } else {
      assert loads[0] <= peak;
    }
  }

  // ---------------------------------------------------------------------------------------
  // The optimizer object and the fallback over solvers

  /** The exception raised while the program is built: an hourly list that does not index hours 0..23, or a grid series without a value at some peak hour. */
  datatype BuildError = TemperatureIndexError | PriceIndexError | GridDemandIndexError

  /** One attempt with a solver: not available, raised an exception, or ran to a termination condition with variable values. */
  datatype Attempt = NotAvailable | Raised | Ran(status: Termination, assignment: Assignment)

  datatype SolveError = ModelNotBuilt | NoSolverSucceeded

  /** The solvers tried, in order: the requested one, then the fallbacks. */
  function Candidates(solverName: string): seq<string>
  {
    [solverName, "highs", "glpk", "cbc", "ipopt"]
  }

  /** The time limit is passed as `timelimit` to Gurobi, CPLEX and CBC, as `tmlim` to GLPK, and not at all to others. */
  function SolverOptions(solverName: string, timeLimit: int): map<string, int>
  {
    if solverName == "gurobi" || solverName == "cplex" || solverName == "cbc" then map["timelimit" := timeLimit]
    else if solverName == "glpk" then map["tmlim" := timeLimit]
    else map[]
  }

  /** The solver behaviour the model is run against: what an attempt with the named solver and options produces. */
  type SolverOutcomes = (string, map<string, int>) -> Attempt

  /** The attempt with this solver ends optimal. */
  predicate Succeeds(outcomes: SolverOutcomes, solverName: string, timeLimit: int)
  {
    var attempt := outcomes(solverName, SolverOptions(solverName, timeLimit));
    attempt.Ran? && attempt.status == Optimal
  }

  /** Every solver that runs reports a value for every variable of the program. */
  ghost predicate Complete(outcomes: SolverOutcomes)
  {
    forall name, options :: outcomes(name, options).Ran? ==> Shaped(outcomes(name, options).assignment)
  }

  /** The first solver in the list whose attempt ends optimal, with its assignment. */
  function FirstSolved(names: seq<string>, timeLimit: int, outcomes: SolverOutcomes): (r: Option<(string, Assignment)>)
    ensures r.Some? ==> r.value.0 in names && Succeeds(outcomes, r.value.0, timeLimit)
    ensures r.Some? ==> r.value.1 == outcomes(r.value.0, SolverOptions(r.value.0, timeLimit)).assignment
  {
    if names == [] then None
    else if Succeeds(outcomes, names[0], timeLimit) then
      Some((names[0], outcomes(names[0], SolverOptions(names[0], timeLimit)).assignment))
    else FirstSolved(names[1..], timeLimit, outcomes)
  }

  /** The search finds nothing exactly when no solver succeeds, and otherwise finds one that every earlier solver failed before. */
  lemma {:induction false} FirstSolvedIsFirst(names: seq<string>, timeLimit: int, outcomes: SolverOutcomes)
    ensures FirstSolved(names, timeLimit, outcomes).None? <==>
      forall i :: 0 <= i < |names| ==> !Succeeds(outcomes, names[i], timeLimit)
    ensures FirstSolved(names, timeLimit, outcomes).Some? ==>
      exists i :: 0 <= i < |names| && names[i] == FirstSolved(names, timeLimit, outcomes).value.0
        && forall j :: 0 <= j < i ==> !Succeeds(outcomes, names[j], timeLimit)
  {
    if names != [] && !Succeeds(outcomes, names[0], timeLimit) {
      var rest := names[1..];
      FirstSolvedIsFirst(rest, timeLimit, outcomes);
      assert forall i :: 0 < i < |names| ==> names[i] == rest[i - 1];
      if FirstSolved(rest, timeLimit, outcomes).Some? {
        var k :| 0 <= k < |rest| && rest[k] == FirstSolved(rest, timeLimit, outcomes).value.0
          && forall j :: 0 <= j < k ==> !Succeeds(outcomes, rest[j], timeLimit);
        assert names[k + 1] == rest[k];
      }
    } else if names != [] {
      assert names[0] == FirstSolved(names, timeLimit, outcomes).value.0;
    }
  }

  class ArizonaDataCenterOptimizer {
    var model: Option<Program>
    var results: Option<Results>

    ghost predicate Valid()
      reads this
    {
      model.Some? ==> WellFormed(model.value)
    }

    constructor ()
      ensures Valid() && model == None && results == None
    {
      model := None;
      results := None;
    }

    /**
     * Stores the program, or fails where building it fails: an hourly list longer than 24 when its
     * parameter is declared, missing temperatures in the cooling rule, a short grid series in the
     * demand-response rule, missing prices in the energy-cost rule.
     */
    method BuildModel(temperatures: seq<real>, prices: seq<real>, gridDemand: seq<real>) returns (r: Result<Program, BuildError>)
      requires Valid()
      modifies this`model
      ensures Valid()
      ensures r.Ok? <==> WellFormed(Program(temperatures, prices, gridDemand))
      ensures r.Ok? ==> r.value == Program(temperatures, prices, gridDemand) && model == Some(r.value)
      ensures r.Err? ==> model == old(model)
      ensures |temperatures| > Hours ==> r == Err(TemperatureIndexError)
      ensures |temperatures| <= Hours && |prices| > Hours ==> r == Err(PriceIndexError)
      ensures |temperatures| < Hours && |prices| <= Hours ==> r == Err(TemperatureIndexError)
      ensures |temperatures| == Hours && |prices| <= Hours && 0 < |gridDemand| < 20 ==> r == Err(GridDemandIndexError)
      ensures |temperatures| == Hours && |prices| < Hours && (gridDemand == [] || |gridDemand| >= 20) ==> r == Err(PriceIndexError)
    {
      if |temperatures| > Hours {
        return Err(TemperatureIndexError);
      }
      if |prices| > Hours {
        return Err(PriceIndexError);
      }
      if |temperatures| < Hours {
        return Err(TemperatureIndexError);
      }
      if 0 < |gridDemand| < 20 {
        return Err(GridDemandIndexError);
      }
      if |prices| < Hours {
        return Err(PriceIndexError);
      }
      var program := Program(temperatures, prices, gridDemand);
      model := Some(program);
      r := Ok(program);
    }

    /** Tries the candidate solvers in order and keeps the results of the first that ends optimal. */
    method Solve(solverName: string, timeLimit: int, outcomes: SolverOutcomes) returns (r: Result<Results, SolveError>)
      requires Valid() && Complete(outcomes)
      modifies this`results
      ensures Valid()
      ensures model.None? ==> r == Err(ModelNotBuilt) && results == old(results)
      ensures model.Some? && FirstSolved(Candidates(solverName), timeLimit, outcomes).None? ==>
        r == Err(NoSolverSucceeded) && results == old(results)
      ensures model.Some? && FirstSolved(Candidates(solverName), timeLimit, outcomes).Some? ==>
        results == Some(Extraction(model.value, FirstSolved(Candidates(solverName), timeLimit, outcomes).value.1))
        && r == Ok(results.value)
    {
      if model.None? {
        return Err(ModelNotBuilt);
      }
      var candidates := Candidates(solverName);
      var i := 0;
      while i < |candidates|
        invariant 0 <= i <= |candidates|
        invariant FirstSolved(candidates[i..], timeLimit, outcomes) == FirstSolved(candidates, timeLimit, outcomes)
        invariant results == old(results)
      {
        var solver := candidates[i];
        var attempt := outcomes(solver, SolverOptions(solver, timeLimit));
        if attempt.Ran? && attempt.status == Optimal {
          var extracted := ExtractResults(model.value, attempt.assignment);
          results := Some(extracted);
          return Ok(extracted);
        }
        assert candidates[i..][1..] == candidates[i + 1..];
        i := i + 1;
      }
      r := Err(NoSolverSucceeded);
    }
  }
}
