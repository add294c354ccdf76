/**
 * The linear production model of the one-day data-centre schedule: for each of the 24 hours,
 * how much shiftable batch load to run and whether to cool with water or with the chiller.
 *
 * The program the modelling library builds is represented by its parameters (the hourly
 * temperatures and prices); a candidate assignment of its decision variables is a `Schedule`.
 * The constraints become predicates over a schedule and the objective a function of it;
 * the solver itself is an input (`SolverRun`) and is not modelled.
 */
module LinearOptimizer {
  import opened Wrappers
  import opened Sums
  import opened Solvers

  // Facility parameters fixed by the constructor; the optimizer takes no capacity argument.
  const TotalCapacityMw: real := 50.0
  const CriticalLoadMw: real := 30.0
  const FlexibleLoadMw: real := 20.0
  const CoolingCapacityMw: real := 15.0
  const WaterCoolingEnergy: real := 7.5     // MW drawn by water cooling
  const ChillerEnergy: real := 18.0         // MW drawn by the chiller
  const WaterUsagePerHour: real := 120.0    // gallons per water-cooled hour
  const WaterCostPerGallon: real := 0.004

  const Hours: nat := 24
  /** Upper bound of the `total_load` variable, above the capacity constraint. */
  const TotalLoadCeiling: real := 100.0
  /** Fixed electricity price ($/MWh) of the no-optimisation baseline. */
  const BaselinePrice: real := 70.0
  /** Reference water use of the baseline: 120 gallons for 12 hours, times 24. */
  const BaselineWaterGallons: real := 34560.0
  const ReferenceCapacityMw: real := 50.0
  const CarbonTonsPerDollar: real := 0.0004

  /** The parameters of a built program: one temperature (°F) and one price ($/MWh) per hour. */
  datatype Program = Program(temp: seq<real>, price: seq<real>)

  predicate WellFormed(p: Program)
  {
    |p.temp| == Hours && |p.price| == Hours
  }

  /** The decision variables of one hour. */
  datatype HourVars = HourVars(batchLoad: real, useWater: real, totalLoad: real)

  type Schedule = seq<HourVars>

  predicate IsBinary(x: real)
  {
    x == 0.0 || x == 1.0
  }

  // ---------------------------------------------------------------------------------------
  // Constraints

  /** The variable bounds and domains: batch load in [0, 20], a binary cooling choice, total load in [0, 100]. */
  predicate InBounds(v: HourVars)
  {
    0.0 <= v.batchLoad <= FlexibleLoadMw && IsBinary(v.useWater) && 0.0 <= v.totalLoad <= TotalLoadCeiling
  }

  /** Load balance: the total draw is the critical load, the batch load and the selected cooling mode's draw. */
  predicate LoadBalanced(v: HourVars)
  {
    v.totalLoad == CriticalLoadMw + v.batchLoad + v.useWater * WaterCoolingEnergy + (1.0 - v.useWater) * ChillerEnergy
  }

  /** Capacity limit: at most 120% of nameplate capacity. */
  predicate UnderCapacity(v: HourVars)
  {
    v.totalLoad <= TotalCapacityMw * 1.2
  }

  function BatchLoads(s: Schedule): (b: seq<real>)
    ensures |b| == |s| && forall h :: 0 <= h < |s| ==> b[h] == s[h].batchLoad
  {
    seq(|s|, h requires 0 <= h < |s| => s[h].batchLoad)
  }

  function TotalLoads(s: Schedule): (t: seq<real>)
    ensures |t| == |s| && forall h :: 0 <= h < |s| ==> t[h] == s[h].totalLoad
  {
    seq(|s|, h requires 0 <= h < |s| => s[h].totalLoad)
  }

  function UseWater(s: Schedule): (u: seq<real>)
    ensures |u| == |s| && forall h :: 0 <= h < |s| ==> u[h] == s[h].useWater
  {
    seq(|s|, h requires 0 <= h < |s| => s[h].useWater)
  }

  /** Batch completion: eight full hours' worth of flexible load over the day. */
  predicate BatchCompleted(s: Schedule)
  {
    Sum(BatchLoads(s)) >= FlexibleLoadMw * 8.0
  }

  /** Every constraint of the program. None of them depends on the temperatures or prices. */
  predicate Feasible(s: Schedule)
  {
    |s| == Hours && BatchCompleted(s) &&
    forall h :: 0 <= h < |s| ==> InBounds(s[h]) && LoadBalanced(s[h]) && UnderCapacity(s[h])
  }

  // ---------------------------------------------------------------------------------------
  // Objective

  function HourElectricityCost(totalLoad: real, price: real): real
  {
    totalLoad * price / 1000.0
  }

  function HourWaterCost(useWater: real): real
  {
    useWater * 120.0 * 0.004
  }

  /** Soft penalty for running the chiller above 95 °F. */
  function HourPenalty(useWater: real, temp: real): (r: real)
    ensures temp <= 95.0 || useWater == 1.0 ==> r == 0.0
    ensures useWater == 0.0 && temp > 95.0 ==> r > 0.0
    ensures useWater <= 1.0 ==> r >= 0.0
  {
    var excess := Max(0.0, temp - 95.0);
    assert useWater <= 1.0 ==> (1.0 - useWater) * excess >= 0.0 by {
      if useWater <= 1.0 { MulNonNegative(1.0 - useWater, excess); }
    }
    (1.0 - useWater) * excess * 0.1
  }

  function ElectricityCosts(p: Program, s: Schedule): (c: seq<real>)
    requires WellFormed(p) && |s| == Hours
    ensures |c| == Hours && forall h :: 0 <= h < Hours ==> c[h] == HourElectricityCost(s[h].totalLoad, p.price[h])
  {
    seq(Hours, h requires 0 <= h < Hours => HourElectricityCost(s[h].totalLoad, p.price[h]))
  }

  function WaterCosts(s: Schedule): (c: seq<real>)
    ensures |c| == |s| && forall h :: 0 <= h < |s| ==> c[h] == HourWaterCost(s[h].useWater)
  {
    seq(|s|, h requires 0 <= h < |s| => HourWaterCost(s[h].useWater))
  }

  function Penalties(p: Program, s: Schedule): (c: seq<real>)
    requires WellFormed(p) && |s| == Hours
    ensures |c| == Hours && forall h :: 0 <= h < Hours ==> c[h] == HourPenalty(s[h].useWater, p.temp[h])
  {
    seq(Hours, h requires 0 <= h < Hours => HourPenalty(s[h].useWater, p.temp[h]))
  }

  /** The minimised objective: electricity cost, water cost and the high-temperature chiller penalty. */
  function Objective(p: Program, s: Schedule): real
    requires WellFormed(p) && |s| == Hours
  {
    Sum(ElectricityCosts(p, s)) + Sum(WaterCosts(s)) + Sum(Penalties(p, s))
  }

  // ---------------------------------------------------------------------------------------
  // Results record

  datatype HourlyRecord = HourlyRecord(
    hour: nat,
    batchLoadMw: real,
    waterCooling: int,
    totalLoadMw: real,
    electricityPrice: real,
    temperature: real,
    electricityCost: real,
    waterCost: real)

  /** No `baseline_cost` field: the linear summary does not report one. */
  datatype Summary = Summary(totalCost: real, electricityCost: real, waterCost: real, peakDemandMw: real)

  datatype Savings = Savings(dailySavings: real, annualSavings: real, percentageSaved: real)

  datatype Environmental = Environmental(
    waterUsedGallons: real,
    waterSavedGallons: real,
    peakReductionMw: real,
    carbonAvoidedTons: real)

  datatype Results = Results(
    hourlyData: seq<HourlyRecord>,
    summary: Summary,
    savings: Savings,
    environmental: Environmental)

  /** Conversion of a float to an integer, truncating toward zero. */
  function Truncate(x: real): (n: int)
    ensures IsBinary(x) ==> n as real == x
    ensures 0.0 <= x ==> 0 <= n
  {
    if x >= 0.0 then x.Floor else -((-x).Floor)
  }

  /**
   * The record reported for hour `h` of a solved schedule: the hour's variables and parameters,
   * with costs priced from the record's own load, price and (integer) cooling flag.
   */
  function HourlyRecordAt(p: Program, s: Schedule, h: nat): (r: HourlyRecord)
    requires WellFormed(p) && |s| == Hours && h < Hours
    ensures r.hour == h && r.batchLoadMw == s[h].batchLoad && r.totalLoadMw == s[h].totalLoad
    ensures r.electricityPrice == p.price[h] && r.temperature == p.temp[h]
    ensures r.electricityCost == HourElectricityCost(r.totalLoadMw, r.electricityPrice)
    ensures r.waterCost == HourWaterCost(r.waterCooling as real)
    ensures IsBinary(s[h].useWater) ==> r.waterCooling as real == s[h].useWater
  {
    var water := Truncate(s[h].useWater);
    HourlyRecord(
      h, s[h].batchLoad, water, s[h].totalLoad, p.price[h], p.temp[h],
      HourElectricityCost(s[h].totalLoad, p.price[h]),
      HourWaterCost(water as real))
  }

  function ElectricityCostColumn(rs: seq<HourlyRecord>): (c: seq<real>)
    ensures |c| == |rs| && forall i :: 0 <= i < |rs| ==> c[i] == rs[i].electricityCost
  {
    seq(|rs|, i requires 0 <= i < |rs| => rs[i].electricityCost)
  }

  function WaterCostColumn(rs: seq<HourlyRecord>): (c: seq<real>)
    ensures |c| == |rs| && forall i :: 0 <= i < |rs| ==> c[i] == rs[i].waterCost
  {
    seq(|rs|, i requires 0 <= i < |rs| => rs[i].waterCost)
  }

  /** Gallons used in the hour of a record. */
  function WaterGallons(r: HourlyRecord): real
  {
    r.waterCooling as real * 120.0
  }

  function WaterGallonsColumn(rs: seq<HourlyRecord>): (c: seq<real>)
    ensures |c| == |rs| && forall i :: 0 <= i < |rs| ==> c[i] == WaterGallons(rs[i])
  {
    seq(|rs|, i requires 0 <= i < |rs| => WaterGallons(rs[i]))
  }

  function TotalLoadColumn(rs: seq<HourlyRecord>): (c: seq<real>)
    ensures |c| == |rs| && forall i :: 0 <= i < |rs| ==> c[i] == rs[i].totalLoadMw
  {
    seq(|rs|, i requires 0 <= i < |rs| => rs[i].totalLoadMw)
  }

  /** Cost of the no-optimisation baseline: a flat third of the flexible load with chiller cooling at $70/MWh. */
  function BaselineCost(): (b: real)
    ensures b == 91.84
  {
    (CriticalLoadMw + FlexibleLoadMw / 3.0 + ChillerEnergy) * Hours as real * BaselinePrice / 1000.0
  }

  /** Savings against the baseline. */
  function SavingsFor(totalCost: real): (r: Savings)
    ensures r.dailySavings + totalCost == BaselineCost()
    ensures r.annualSavings == 365.0 * r.dailySavings
    ensures r.percentageSaved * BaselineCost() == r.dailySavings * 100.0
    ensures r.percentageSaved > 0.0 <==> totalCost < BaselineCost()
    ensures r.percentageSaved <= 100.0 <==> totalCost >= 0.0
  {
    var daily := BaselineCost() - totalCost;
    Savings(daily, daily * 365.0, daily / BaselineCost() * 100.0)
  }

  /** Environmental figures: both reductions are clamped at zero. */
  function EnvironmentalFor(waterUsed: real, peak: real, dailySavings: real): (r: Environmental)
    ensures r.waterSavedGallons >= 0.0 && r.peakReductionMw >= 0.0
    ensures waterUsed <= BaselineWaterGallons ==> r.waterSavedGallons + waterUsed == BaselineWaterGallons
    ensures peak <= ReferenceCapacityMw ==> r.peakReductionMw + peak == ReferenceCapacityMw
    ensures peak >= ReferenceCapacityMw ==> r.peakReductionMw == 0.0
  {
    Environmental(
      waterUsed,
      Max(0.0, BaselineWaterGallons - waterUsed),
      Max(0.0, ReferenceCapacityMw - peak),
      dailySavings * CarbonTonsPerDollar)
  }

  /** The 24 hourly records of a solved schedule, in hour order. */
  function HourlyData(p: Program, s: Schedule): (hs: seq<HourlyRecord>)
    requires WellFormed(p) && |s| == Hours
    ensures |hs| == Hours && forall h :: 0 <= h < Hours ==> hs[h] == HourlyRecordAt(p, s, h)
  {
    seq(Hours, h requires 0 <= h < Hours => HourlyRecordAt(p, s, h))
  }

  /** The whole results record of a solved schedule, stated without the loop that builds it. */
  function Extraction(p: Program, s: Schedule): Results
    requires WellFormed(p) && |s| == Hours
  {
    var hourly := HourlyData(p, s);
    var electricity := Sum(ElectricityCostColumn(hourly));
    var water := Sum(WaterCostColumn(hourly));
    var peak := Peak(TotalLoadColumn(hourly));
    var savings := SavingsFor(electricity + water);
    Results(
      hourly,
      Summary(electricity + water, electricity, water, peak),
      savings,
      EnvironmentalFor(Sum(WaterGallonsColumn(hourly)), peak, savings.dailySavings))
  }

  /** How the four running totals move when one more hourly record is appended. */
  lemma AppendRecord(hourly: seq<HourlyRecord>, record: HourlyRecord)
    ensures Sum(ElectricityCostColumn(hourly + [record])) == Sum(ElectricityCostColumn(hourly)) + record.electricityCost
    ensures Sum(WaterCostColumn(hourly + [record])) == Sum(WaterCostColumn(hourly)) + record.waterCost
    ensures Sum(WaterGallonsColumn(hourly + [record])) == Sum(WaterGallonsColumn(hourly)) + WaterGallons(record)
    ensures Peak(TotalLoadColumn(hourly + [record])) == Max(Peak(TotalLoadColumn(hourly)), record.totalLoadMw)
  {
    assert ElectricityCostColumn(hourly + [record]) == ElectricityCostColumn(hourly) + [record.electricityCost];
    assert WaterCostColumn(hourly + [record]) == WaterCostColumn(hourly) + [record.waterCost];
    assert WaterGallonsColumn(hourly + [record]) == WaterGallonsColumn(hourly) + [WaterGallons(record)];
    assert TotalLoadColumn(hourly + [record]) == TotalLoadColumn(hourly) + [record.totalLoadMw];
    SumSnoc(ElectricityCostColumn(hourly), record.electricityCost);
    SumSnoc(WaterCostColumn(hourly), record.waterCost);
    SumSnoc(WaterGallonsColumn(hourly), WaterGallons(record));
    PeakSnoc(TotalLoadColumn(hourly), record.totalLoadMw);
  }

  /** Once the loop has built the whole table, the results assembled from its running totals are the specified ones. */
  lemma AssembledResults(p: Program, s: Schedule, hourly: seq<HourlyRecord>, electricity: real, water: real, gallons: real, peak: real)
    requires WellFormed(p) && |s| == Hours
    requires hourly == HourlyData(p, s)
    requires electricity == Sum(ElectricityCostColumn(hourly)) && water == Sum(WaterCostColumn(hourly))
    requires gallons == Sum(WaterGallonsColumn(hourly)) && peak == Peak(TotalLoadColumn(hourly))
    ensures Extraction(p, s) == Results(
      hourly,
      Summary(electricity + water, electricity, water, peak),
      SavingsFor(electricity + water),
      EnvironmentalFor(gallons, peak, SavingsFor(electricity + water).dailySavings))
  {
  }

  lemma ExtendPrefix<T>(data: seq<T>, h: nat)
    requires h < |data|
    ensures data[..h + 1] == data[..h] + [data[h]]
  {
  }

  /** Walks the 24 hours once, appending each hour's record and keeping four running totals. */
  method ExtractResults(p: Program, s: Schedule) returns (r: Results)
    requires WellFormed(p) && |s| == Hours
    ensures r == Extraction(p, s)
  {
    var hourly: seq<HourlyRecord> := [];
    var totalElecCost, totalWaterCost, totalWaterUsed, peakDemand := 0.0, 0.0, 0.0, 0.0;
    ghost var data := HourlyData(p, s);
    var h := 0;
    while h < Hours
      invariant 0 <= h <= Hours
      invariant hourly == data[..h]
      invariant totalElecCost == Sum(ElectricityCostColumn(hourly))
      invariant totalWaterCost == Sum(WaterCostColumn(hourly))
      invariant totalWaterUsed == Sum(WaterGallonsColumn(hourly))
      invariant peakDemand == Peak(TotalLoadColumn(hourly))
    {
      var record := HourlyRecordAt(p, s, h);
      AppendRecord(hourly, record);
      ExtendPrefix(data, h);
      totalElecCost := totalElecCost + record.electricityCost;
      totalWaterCost := totalWaterCost + record.waterCost;
      totalWaterUsed := totalWaterUsed + WaterGallons(record);
      peakDemand := Max(peakDemand, record.totalLoadMw);
      hourly := hourly + [record];
      h := h + 1;
    }
    assert hourly == data;
    AssembledResults(p, s, hourly, totalElecCost, totalWaterCost, totalWaterUsed, peakDemand);
    var totalCost := totalElecCost + totalWaterCost;
    var savings := SavingsFor(totalCost);
    r := Results(
      hourly,
      Summary(totalCost, totalElecCost, totalWaterCost, peakDemand),
      savings,
      EnvironmentalFor(totalWaterUsed, peakDemand, savings.dailySavings));
  }

  // ---------------------------------------------------------------------------------------
  // Properties of the program and of the extracted record

  /** The load balance fixes each hour's draw by its cooling mode; a chiller hour leaves room for at most 12 MW of batch load. */
  lemma FeasibleHourLoads(s: Schedule)
    requires Feasible(s)
    ensures forall h :: 0 <= h < |s| && s[h].useWater == 1.0 ==> s[h].totalLoad == 37.5 + s[h].batchLoad
    ensures forall h :: 0 <= h < |s| && s[h].useWater == 0.0 ==>
      s[h].totalLoad == 48.0 + s[h].batchLoad && s[h].batchLoad <= 12.0
    ensures forall h :: 0 <= h < |s| ==> 37.5 <= s[h].totalLoad <= 60.0
  {
  }

  /** Water cooling all day with the batch load spread flat: 20/3 MW every hour. */
  function FlatWaterSchedule(): Schedule
  {
    seq(Hours, _ => HourVars(FlexibleLoadMw / 3.0, 1.0, CriticalLoadMw + FlexibleLoadMw / 3.0 + WaterCoolingEnergy))
  }

  /** The program is feasible whatever the temperatures and prices: the flat water-cooled schedule meets every constraint. */
  lemma {:induction false} FlatWaterScheduleFeasible()
    ensures Feasible(FlatWaterSchedule())
  {
    var s := FlatWaterSchedule();
    assert BatchLoads(s) == Constant(Hours, FlexibleLoadMw / 3.0);
    SumConstant(Hours, FlexibleLoadMw / 3.0);
  }

  /** On a feasible schedule the reported total cost is the objective without its temperature penalty. */
  lemma {:induction false} TotalCostIsObjectiveWithoutPenalty(p: Program, s: Schedule)
    requires WellFormed(p) && Feasible(s)
    ensures Extraction(p, s).summary.totalCost + Sum(Penalties(p, s)) == Objective(p, s)
  {
    var hourly := HourlyData(p, s);
    assert ElectricityCostColumn(hourly) == ElectricityCosts(p, s);
    forall h | 0 <= h < Hours
      ensures WaterCostColumn(hourly)[h] == WaterCosts(s)[h]
    {
      assert Truncate(s[h].useWater) as real == s[h].useWater;
    }
    assert WaterCostColumn(hourly) == WaterCosts(s);
  }

  /** The reported peak is the largest hourly draw, or 0 if no hour draws more than 0. */
  lemma {:induction false} ExtractedPeak(p: Program, s: Schedule)
    requires WellFormed(p) && |s| == Hours
    ensures var peak := Extraction(p, s).summary.peakDemandMw;
      peak >= 0.0 &&
      (forall h :: 0 <= h < Hours ==> s[h].totalLoad <= peak) &&
      (peak == 0.0 || exists h :: 0 <= h < Hours && s[h].totalLoad == peak)
  {
    var column := TotalLoadColumn(HourlyData(p, s));
    assert column == TotalLoads(s);
    var peak := Peak(column);
    if peak != 0.0 {
      var h :| 0 <= h < Hours && column[h] == peak;
    }
  }

  /** For a feasible schedule the peak lies in [37.5, 60] MW, so the clamped peak reduction lies in [0, 12.5] MW. */
  lemma {:induction false} FeasiblePeakReduction(p: Program, s: Schedule)
    requires WellFormed(p) && Feasible(s)
    ensures 37.5 <= Extraction(p, s).summary.peakDemandMw <= 60.0
    ensures 0.0 <= Extraction(p, s).environmental.peakReductionMw <= 12.5
  {
    ExtractedPeak(p, s);
    FeasibleHourLoads(s);
  }

  /** Summed over the day, the hourly gallons are 120 times the number of water-cooled hours, at most 24 of them. */
  lemma {:induction false} WaterGallonsTotal(p: Program, s: Schedule)
    requires WellFormed(p) && Feasible(s)
    ensures Sum(WaterGallonsColumn(HourlyData(p, s))) == WaterUsagePerHour * Sum(UseWater(s))
    ensures 0.0 <= Sum(UseWater(s)) <= Hours as real
  {
    var hourly := HourlyData(p, s);
    forall h | 0 <= h < Hours
      ensures WaterGallonsColumn(hourly)[h] == WaterUsagePerHour * UseWater(s)[h]
    {
      assert Truncate(s[h].useWater) as real == s[h].useWater;
    }
    SumScale(UseWater(s), WaterUsagePerHour, WaterGallonsColumn(hourly));
    SumAtMostBound(UseWater(s), 1.0);
    SumNonNegative(UseWater(s));
  }

  /** Water used is 120 gallons per water-cooled hour, at most 2880, so the clamp on water saved never applies. */
  lemma {:induction false} FeasibleWaterUse(p: Program, s: Schedule)
    requires WellFormed(p) && Feasible(s)
    ensures var env := Extraction(p, s).environmental;
      env.waterUsedGallons == WaterUsagePerHour * Sum(UseWater(s)) &&
      0.0 <= env.waterUsedGallons <= 2880.0 &&
      env.waterSavedGallons == BaselineWaterGallons - env.waterUsedGallons
  {
    WaterGallonsTotal(p, s);
  }

  /** With non-negative prices a feasible schedule costs at least 0, so at most 100% is saved. */
  lemma {:induction false} FeasibleCostNonNegative(p: Program, s: Schedule)
    requires WellFormed(p) && Feasible(s)
    requires forall h :: 0 <= h < Hours ==> p.price[h] >= 0.0
    ensures Extraction(p, s).summary.electricityCost >= 0.0
    ensures Extraction(p, s).summary.waterCost >= 0.0
    ensures Extraction(p, s).savings.percentageSaved <= 100.0
  {
    var hourly := HourlyData(p, s);
    forall h | 0 <= h < Hours
      ensures ElectricityCostColumn(hourly)[h] >= 0.0 && WaterCostColumn(hourly)[h] >= 0.0
    {
      assert Truncate(s[h].useWater) >= 0;
      assert hourly[h].totalLoadMw >= 0.0 && hourly[h].electricityPrice >= 0.0;
      assert hourly[h].totalLoadMw * hourly[h].electricityPrice >= 0.0;
    }
    SumNonNegative(ElectricityCostColumn(hourly));
    SumNonNegative(WaterCostColumn(hourly));
  }

  // ---------------------------------------------------------------------------------------
  // The optimizer object: a built program, then a solve

  datatype BuildError = HourlyDataNot24Entries

  /**
   * What asking the named solver produced: not installed, a solver call that raised (the exception
   * leaves `solve` uncaught), or a termination condition with the variable values.
   */
  datatype SolverRun = Unavailable | Raised | Ran(status: Termination, assignment: Schedule)

  datatype SolveError = ModelNotBuilt | SolverNotAvailable(solverName: string) | SolverRaised

  /** A successful call returns the results, or the empty record when the solver was not optimal. */
  datatype SolveReply = Solved(results: Results) | EmptyResults

  class LinearDataCenterOptimizer {
    var model: Option<Program>
    var results: Option<Results>

    ghost predicate Valid()
      reads this
    {
      model.Some? ==> WellFormed(model.value)
    }

    constructor ()
      ensures Valid() && model == None && results == None
    {
      model := None;
      results := None;
    }

    /** Stores the program. The modelling library rejects hourly data that does not index hours 0..23 exactly. */
    method BuildModel(temperatures: seq<real>, prices: seq<real>) returns (r: Result<Program, BuildError>)
      requires Valid()
      modifies this`model
      ensures Valid()
      ensures WellFormed(Program(temperatures, prices)) ==>
        r == Ok(Program(temperatures, prices)) && model == Some(Program(temperatures, prices))
      ensures !WellFormed(Program(temperatures, prices)) ==> r == Err(HourlyDataNot24Entries) && model == old(model)
    {
      var program := Program(temperatures, prices);
      if !WellFormed(program) {
        return Err(HourlyDataNot24Entries);
      }
      model := Some(program);
      r := Ok(program);
    }

    /** Runs the solver once: errors without a model, without the solver or when the solver raises; empty results unless optimal. */
    method Solve(solverName: string, run: SolverRun) returns (r: Result<SolveReply, SolveError>)
      requires Valid()
      requires run.Ran? ==> |run.assignment| == Hours
      modifies this`results
      ensures Valid()
      ensures model.None? ==> r == Err(ModelNotBuilt) && results == old(results)
      ensures model.Some? && run.Unavailable? ==> r == Err(SolverNotAvailable(solverName)) && results == old(results)
      ensures model.Some? && run.Raised? ==> r == Err(SolverRaised) && results == old(results)
      ensures model.Some? && run.Ran? && run.status != Optimal ==> r == Ok(EmptyResults) && results == old(results)
      ensures model.Some? && run.Ran? && run.status == Optimal ==>
        results == Some(Extraction(model.value, run.assignment)) && r == Ok(Solved(results.value))
    {
      if model.None? {
        return Err(ModelNotBuilt);
      }
      if run.Unavailable? {
        return Err(SolverNotAvailable(solverName));
      }
      if run.Raised? {
        return Err(SolverRaised);
      }
      if run.status == Optimal {
        var extracted := ExtractResults(model.value, run.assignment);
        results := Some(extracted);
        return Ok(Solved(extracted));
      }
      r := Ok(EmptyResults);
    }
  }
}
