/**
 * Input normalisation for the optimizers: forcing hourly lists to 24 entries, clamping
 * implausible temperatures, converting Celsius columns, estimating prices from demand,
 * validating a prepared dataset, and reading the JSON shapes that EIA and NOAA data come in.
 */
module DataInterface {
  import opened Wrappers
  import opened Sums
  import opened Json

  const Hours: nat := 24

  // Time-of-use rates in $/kWh.
  const PeakRate: real := 0.15
  const OffpeakRate: real := 0.05
  const SuperOffpeakRate: real := 0.03

  /** Peak hours, 3 PM to 8 PM. */
  predicate IsPeakHour(h: int)
  {
    15 <= h < 20
  }

  /** Super off-peak hours, 10 PM to 6 AM. */
  predicate IsSuperOffpeakHour(h: int)
  {
    22 <= h < 24 || 0 <= h < 6
  }

  // ---------------------------------------------------------------------------------------
  // Exactly 24 hours

  /** `data` concatenated `k` times. */
  function Repeat<T>(data: seq<T>, k: nat): (r: seq<T>)
    ensures |r| == k * |data|
  {
    if k == 0 then [] else Repeat(data, k - 1) + data
  }

  lemma {:induction false} RepeatIndex<T>(data: seq<T>, k: nat, i: nat)
    requires i < |Repeat(data, k)|
    ensures |data| > 0 && Repeat(data, k)[i] == data[i % |data|]
  {
    var n := |data|;
    var front := Repeat(data, k - 1);
    if i < |front| {
      RepeatIndex(data, k - 1, i);
    } else {
      var j := i - |front|;
      assert |front| == (k - 1) * n;
      ModOfMultiplePlus(k - 1, n, j);
    }
  }

  lemma {:induction false} MulAtLeast(k: int, n: int)
    requires k >= 1 && n > 0
    ensures k * n >= n
  {
    if k > 1 {
      MulAtLeast(k - 1, n);
      assert k * n == (k - 1) * n + n;
    }
  }

  /** A number has one decomposition as a multiple of `n` plus a remainder below `n`. */
  lemma SameDecomposition(a: int, b: int, c: int, d: int, n: int)
    requires n > 0 && 0 <= b < n && 0 <= d < n && a * n + b == c * n + d
    ensures a == c && b == d
  {
    if a > c {
      MulAtLeast(a - c, n);
    } else if a < c {
      MulAtLeast(c - a, n);
    }
  }

  /** Euclidean division is unique: a decomposition `a * n + b` with `0 <= b < n` is the quotient and remainder. */
  lemma DivModUnique(x: int, n: int, a: int, b: int)
    requires n > 0 && 0 <= b < n && x == a * n + b
    ensures x % n == b && x / n == a
  {
    var a0, b0 := x / n, x % n;
    assert x == a0 * n + b0 && 0 <= b0 < n;
    SameDecomposition(a, b, a0, b0, n);
  }

  lemma ModOfMultiplePlus(q: nat, n: nat, j: nat)
    requires j < n
    ensures (q * n + j) % n == j
  {
    DivModUnique(q * n + j, n, q, j);
  }

  /** Enough copies of a list shorter than 24 cover 24 entries. */
  lemma CopiesCover(n: nat)
    requires 0 < n < Hours
    ensures (Hours / n + 1) * n > Hours
  {
    var q := Hours / n;
    assert Hours == q * n + Hours % n;
    assert (q + 1) * n == q * n + n;
  }

  /**
   * Any hourly list made exactly 24 long: 24 copies of `zero` for an empty list, the list itself
   * when it has 24 entries, its first 24 when longer, and the list repeated and cut when shorter.
   */
  function EnsureDay<T>(data: seq<T>, zero: T): (r: seq<T>)
    ensures |r| == Hours
    ensures data == [] ==> forall i :: 0 <= i < Hours ==> r[i] == zero
    ensures |data| >= Hours ==> r == data[..Hours]
  {
    if |data| == 0 then seq(Hours, _ => zero)
    else if |data| == Hours then data
    else if |data| > Hours then data[..Hours]
    else
      CopiesCover(|data|);
      Repeat(data, Hours / |data| + 1)[..Hours]
  }

  /** A non-empty list is read cyclically: hour `i` gets entry `i mod |data|`. */
  lemma EnsureDayCycles<T>(data: seq<T>, zero: T)
    requires data != []
    ensures forall i :: 0 <= i < Hours ==> EnsureDay(data, zero)[i] == data[i % |data|]
  {
    if |data| < Hours {
      CopiesCover(|data|);
      forall i | 0 <= i < Hours
        ensures EnsureDay(data, zero)[i] == data[i % |data|]
      {
        RepeatIndex(data, Hours / |data| + 1, i);
      }
    }
  }

  /** A 24-long list is returned unchanged, so normalising twice is normalising once. */
  lemma EnsureDayIdempotent<T>(data: seq<T>, zero: T)
    ensures EnsureDay(EnsureDay(data, zero), zero) == EnsureDay(data, zero)
  {
  }

  /** A value that has 24 entries as Python counts them: a list, a string or a dict of length 24. */
  predicate HasDayLength(v: Value)
  {
    match v
    case Arr(items) => |items| == Hours
    case Str(s) => |s| == Hours
    case Obj(entries) => |entries| == Hours
    case _ => false
  }

  function Nums(xs: seq<real>): (vs: seq<Value>)
    ensures |vs| == |xs| && forall i :: 0 <= i < |xs| ==> vs[i] == Num(xs[i])
  {
    seq(|xs|, i requires 0 <= i < |xs| => Num(xs[i]))
  }

  /**
   * Forcing whatever value holds the hourly data to 24 entries: a falsy value becomes 24 zeros,
   * lists and strings are cut or repeated, a dict passes only when it has 24 keys; anything else
   * has no length and raises.
   */
  function EnsureDayValue(v: Value): (r: Result<Value, Exception>)
    ensures r.Ok? ==> HasDayLength(r.value)
    ensures !Truthy(v) ==> r == Ok(Arr(Nums(Constant(Hours, 0.0))))
    ensures v.Arr? && Truthy(v) ==> r == Ok(Arr(EnsureDay(v.items, Num(0.0))))
  {
    if !Truthy(v) then Ok(Arr(Nums(Constant(Hours, 0.0))))
    else
      match v
      case Arr(items) => Ok(Arr(EnsureDay(items, Num(0.0))))
      case Str(s) => Ok(Str(EnsureDay(s, '0')))
      case Obj(entries) => if |entries| == Hours then Ok(v) else Err(TypeError)
      case _ => Err(TypeError)
  }

  // ---------------------------------------------------------------------------------------
  // Temperatures

  /** Below 50 °F becomes 85 °F, above 125 °F becomes 115 °F, anything else is kept. */
  function ClampTemperature(t: real): (r: real)
    ensures 50.0 <= r <= 125.0
    ensures 50.0 <= t <= 125.0 <==> r == t
  {
    if t < 50.0 then 85.0 else if t > 125.0 then 115.0 else t
  }

  function ClampAll(ts: seq<real>): (r: seq<real>)
    ensures |r| == |ts| && forall i :: 0 <= i < |ts| ==> r[i] == ClampTemperature(ts[i])
  {
    seq(|ts|, i requires 0 <= i < |ts| => ClampTemperature(ts[i]))
  }

  /** Builds the validated list one reading at a time. */
  method ValidatePhoenixTemperatures(temperatures: seq<real>) returns (validated: seq<real>)
    ensures validated == ClampAll(temperatures)
  {
    validated := [];
    var i := 0;
    while i < |temperatures|
      invariant 0 <= i <= |temperatures|
      invariant |validated| == i && forall j :: 0 <= j < i ==> validated[j] == ClampTemperature(temperatures[j])
    {
      var temp := temperatures[i];
      if temp < 50.0 {
        temp := 85.0;
      } else if temp > 125.0 {
        temp := 115.0;
      }
      validated := validated + [temp];
      i := i + 1;
    }
  }

  /** Validation leaves a list unchanged exactly when every reading is in [50, 125] °F; so validating twice is validating once. */
  lemma ValidationFixedPoints(ts: seq<real>)
    ensures ClampAll(ts) == ts <==> forall i :: 0 <= i < |ts| ==> 50.0 <= ts[i] <= 125.0
    ensures ClampAll(ClampAll(ts)) == ClampAll(ts)
  {
    if ClampAll(ts) == ts {
      assert forall i :: 0 <= i < |ts| ==> ClampAll(ts)[i] == ts[i];
    }
  }

  /** A temperature column whose maximum is below 50 is taken to be Celsius and converted; any other column is kept. */
  function FromCelsiusIfLow(column: seq<real>): seq<real>
  {
    if column != [] && MaxOf(column) < 50.0 then seq(|column|, i requires 0 <= i < |column| => column[i] * 9.0 / 5.0 + 32.0)
    else column
  }

  /** The conversion keeps the length, is undone by the inverse formula, and yields readings below 122 °F. */
  lemma CelsiusConversion(column: seq<real>)
    ensures |FromCelsiusIfLow(column)| == |column|
    ensures column != [] && MaxOf(column) < 50.0 ==>
      forall i :: 0 <= i < |column| ==>
        (FromCelsiusIfLow(column)[i] - 32.0) * 5.0 / 9.0 == column[i] && FromCelsiusIfLow(column)[i] < 122.0
    ensures !(column != [] && MaxOf(column) < 50.0) ==> FromCelsiusIfLow(column) == column
  {
  }

  // ---------------------------------------------------------------------------------------
  // Prices from demand

  /** 1.5 in peak hours, 0.6 in super off-peak hours, 1 otherwise (including hours past 23 of a longer series). */
  function TouMultiplier(h: int): (m: real)
    ensures m == 0.6 || m == 1.0 || m == 1.5
  {
    if IsPeakHour(h) then 1.5 else if IsSuperOffpeakHour(h) then 0.6 else 1.0
  }

  /** Demand scaled to [0, 1] across the series; a flat series divides by 1. */
  function Normalized(d: real, lo: real, hi: real): real
  {
    (d - lo) / (if hi > lo then hi - lo else 1.0)
  }

  /** The off-peak rate plus the normalised share of the peak premium, times the hour's multiplier, in $/MWh. */
  function EstimatedPrice(h: int, norm: real): real
  {
    (OffpeakRate + (PeakRate - OffpeakRate) * norm) * TouMultiplier(h) * 1000.0
  }

  function EstimatedPrices(demand: seq<real>): (prices: seq<real>)
    requires demand != []
    ensures |prices| == |demand|
    ensures forall h :: 0 <= h < |demand| ==>
      prices[h] == EstimatedPrice(h, Normalized(demand[h], MinOf(demand), MaxOf(demand)))
  {
    var lo, hi := MinOf(demand), MaxOf(demand);
    seq(|demand|, h requires 0 <= h < |demand| => EstimatedPrice(h, Normalized(demand[h], lo, hi)))
  }

  /** Walks the demand series once; an empty series falls back to the time-of-use prices. */
  method EstimatePricesFromDemand(demand: seq<real>, touPrices: seq<real>) returns (prices: seq<real>)
    ensures demand == [] ==> prices == touPrices
    ensures demand != [] ==> prices == EstimatedPrices(demand)
  {
    if demand == [] {
      return touPrices;
    }
    var minDemand, maxDemand := MinOf(demand), MaxOf(demand);
    var rangeDemand := if maxDemand > minDemand then maxDemand - minDemand else 1.0;
    prices := [];
    var h := 0;
    while h < |demand|
      invariant 0 <= h <= |demand|
      invariant prices == EstimatedPrices(demand)[..h]
    {
      var normalized := (demand[h] - minDemand) / rangeDemand;
      var basePrice := OffpeakRate + (PeakRate - OffpeakRate) * normalized;
      var price := if IsPeakHour(h) then basePrice * 1.5 else if IsSuperOffpeakHour(h) then basePrice * 0.6 else basePrice;
      prices := prices + [price * 1000.0];
      h := h + 1;
    }
  }

  lemma NormalizedInUnit(d: real, lo: real, hi: real)
    requires lo <= d <= hi
    ensures 0.0 <= Normalized(d, lo, hi) <= 1.0
    ensures hi == lo ==> Normalized(d, lo, hi) == 0.0
  {
    if hi > lo {
      var q := (d - lo) / (hi - lo);
      assert q * (hi - lo) == d - lo;
    }
  }

  /** Each estimated price lies between 50 and 150 $/MWh times the hour's multiplier: 30 to 225 overall; a flat series gets the bottom of the band. */
  lemma EstimatedPriceBounds(demand: seq<real>, h: nat)
    requires demand != [] && h < |demand|
    ensures 50.0 * TouMultiplier(h) <= EstimatedPrices(demand)[h] <= 150.0 * TouMultiplier(h)
    ensures 30.0 <= EstimatedPrices(demand)[h] <= 225.0
    ensures MinOf(demand) == MaxOf(demand) ==> EstimatedPrices(demand)[h] == 50.0 * TouMultiplier(h)
  {
    NormalizedInUnit(demand[h], MinOf(demand), MaxOf(demand));
  }

  lemma DivMonotone(a: real, b: real, r: real)
    requires a <= b && r > 0.0
    ensures a / r <= b / r
  {
    var qa, qb := a / r, b / r;
    assert qa * r == a && qb * r == b;
    assert (qb - qa) * r == b - a;
  }

  /** Between hours with the same multiplier, higher demand never gets a lower price. */
  lemma EstimatedPriceMonotone(demand: seq<real>, i: nat, j: nat)
    requires demand != [] && i < |demand| && j < |demand|
    requires demand[i] <= demand[j] && TouMultiplier(i) == TouMultiplier(j)
    ensures EstimatedPrices(demand)[i] <= EstimatedPrices(demand)[j]
  {
    var lo, hi := MinOf(demand), MaxOf(demand);
    DivMonotone(demand[i] - lo, demand[j] - lo, if hi > lo then hi - lo else 1.0);
    var ni, nj := Normalized(demand[i], lo, hi), Normalized(demand[j], lo, hi);
    var m := TouMultiplier(i);
    if m == 0.6 {
      assert EstimatedPrice(i, ni) <= EstimatedPrice(j, nj);
    } else if m == 1.0 {
      assert EstimatedPrice(i, ni) <= EstimatedPrice(j, nj);
    } else {
      assert EstimatedPrice(i, ni) <= EstimatedPrice(j, nj);
    }
  }

  // ---------------------------------------------------------------------------------------
  // Validating a prepared dataset

  /** Conditions that are only reported. */
  datatype Warning = MaxTemperatureLow | MinTemperatureHigh | PricesLow

  /** Conditions that raise: `max` of an empty list, a negative price, a list that is not 24 long. */
  datatype ValidationError = EmptyList | NegativePrice | TemperatureCount(count: nat) | PriceCount(count: nat)

  /** The checks in order: temperature warnings, the low-price warning, negative prices, then the two lengths. */
  function ValidateData(temperatures: seq<real>, prices: seq<real>): Result<seq<Warning>, ValidationError>
  {
    if temperatures == [] then Err(EmptyList)
    else
      var w1 := if MaxOf(temperatures) < 70.0 then [MaxTemperatureLow] else [];
      var w2 := if MinOf(temperatures) > 100.0 then [MinTemperatureHigh] else [];
      if prices == [] then Err(EmptyList)
      else
        var w3 := if MaxOf(prices) < 10.0 then [PricesLow] else [];
        if MinOf(prices) < 0.0 then Err(NegativePrice)
        else if |temperatures| != Hours then Err(TemperatureCount(|temperatures|))
        else if |prices| != Hours then Err(PriceCount(|prices|))
        else Ok(w1 + w2 + w3)
  }

  /**
   * A dataset is accepted exactly when both lists have 24 entries and no price is negative; the
   * warnings never reject, and each is reported exactly when its condition holds. A negative price
   * is reported before a wrong length.
   */
  lemma ValidateDataAccepts(temperatures: seq<real>, prices: seq<real>)
    ensures ValidateData(temperatures, prices).Ok? <==>
      |temperatures| == Hours && |prices| == Hours && forall i :: 0 <= i < |prices| ==> prices[i] >= 0.0
    ensures ValidateData(temperatures, prices).Ok? ==>
      && (PricesLow in ValidateData(temperatures, prices).value <==> forall i :: 0 <= i < |prices| ==> prices[i] < 10.0)
      && (MaxTemperatureLow in ValidateData(temperatures, prices).value <==> forall i :: 0 <= i < |temperatures| ==> temperatures[i] < 70.0)
      && (MinTemperatureHigh in ValidateData(temperatures, prices).value <==> forall i :: 0 <= i < |temperatures| ==> temperatures[i] > 100.0)
    ensures temperatures != [] && (exists i :: 0 <= i < |prices| && prices[i] < 0.0) ==>
      ValidateData(temperatures, prices) == Err(NegativePrice)
  {
    if temperatures != [] && prices != [] {
      var r := ValidateData(temperatures, prices);
      if MinOf(prices) < 0.0 {
        var k :| 0 <= k < |prices| && prices[k] == MinOf(prices);
      }
    }
  }

  // ---------------------------------------------------------------------------------------
  // EIA electricity JSON

  /** What the EIA readers produce: a prices value and a demand value (lists, unless copied from the input as they are). */
  datatype Series = Series(prices: Value, demand: Value)

  const NoSeries: Series := Series(Arr([]), Arr([]))

  /** Python's `key in v` followed, when true, by `v[key]`, as a list of zero or one values. */
  function FieldIfPresent(v: Value, key: string): (r: Result<seq<Value>, Exception>)
    ensures v.Obj? ==> r.Ok? && (r.value == [] <==> Lookup(v.entries, key).None?)
    ensures v.Obj? && Lookup(v.entries, key).Some? ==> r.value == [Lookup(v.entries, key).value]
  {
    match Contains(v, key)
    case Err(e) => Err(e)
    case Ok(present) =>
      if !present then Ok([])
      else
        match Index(v, key)
        case Err(e) => Err(e)
        case Ok(x) => Ok([x])
  }

  /** An item of `response.data`: its `value` goes to demand, its `price` to prices. */
  function ResponseItem(item: Value): Result<(seq<Value>, seq<Value>), Exception>
  {
    match FieldIfPresent(item, "value")
    case Err(e) => Err(e)
    case Ok(demand) =>
      match FieldIfPresent(item, "price")
      case Err(e) => Err(e)
      case Ok(prices) => Ok((demand, prices))
  }

  /** The items of `response.data` in order; the first item that raises ends the read. */
  function ResponseItems(items: seq<Value>): Result<(seq<Value>, seq<Value>), Exception>
  {
    if items == [] then Ok(([], []))
    else
      match ResponseItems(items[..|items| - 1])
      case Err(e) => Err(e)
      case Ok(acc) =>
        match ResponseItem(items[|items| - 1])
        case Err(e) => Err(e)
        case Ok(more) => Ok((acc.0 + more.0, acc.1 + more.1))
  }

  /** An item of a top-level `data` list: a dict contributes its `demand` and `price` fields, anything else is a demand value. */
  function DataItem(item: Value): (seq<Value>, seq<Value>)
  {
    if item.Obj? then (FieldIfPresent(item, "demand").value, FieldIfPresent(item, "price").value)
    else ([item], [])
  }

  function DataItems(items: seq<Value>): (seq<Value>, seq<Value>)
  {
    if items == [] then ([], [])
    else
      var acc := DataItems(items[..|items| - 1]);
      var more := DataItem(items[|items| - 1]);
      (acc.0 + more.0, acc.1 + more.1)
  }

  /** The `response` branch: `response.data` is iterated when `response` contains `data`. */
  function ResponseSeries(response: Value): Result<Series, Exception>
  {
    match Contains(response, "data")
    case Err(e) => Err(e)
    case Ok(present) =>
      if !present then Ok(NoSeries)
      else
        match Index(response, "data")
        case Err(e) => Err(e)
        case Ok(d) =>
          match Elements(d)
          case Err(e) => Err(e)
          case Ok(items) =>
            match ResponseItems(items)
            case Err(e) => Err(e)
            case Ok(found) => Ok(Series(Arr(found.1), Arr(found.0)))
  }

  /** The shapes of an EIA dict, by the first of `response`, `data`, `prices`, `demand` that is a key. */
  function EiaSeries(entries: seq<(string, Value)>): Result<Series, Exception>
  {
    if Lookup(entries, "response").Some? then ResponseSeries(Lookup(entries, "response").value)
    else if Lookup(entries, "data").Some? then
      var d := Lookup(entries, "data").value;
      if d.Arr? then
        var found := DataItems(d.items);
        Ok(Series(Arr(found.1), Arr(found.0)))
      else Ok(NoSeries)
    else if Lookup(entries, "prices").Some? then Ok(Series(Lookup(entries, "prices").value, Arr([])))
    else if Lookup(entries, "demand").Some? then Ok(Series(Arr([]), Lookup(entries, "demand").value))
    else Ok(NoSeries)
  }

  /** Once an item raises, the items after it are never read. */
  lemma {:induction false} ResponseErrorStops(items: seq<Value>, i: nat)
    requires i <= |items| && ResponseItems(items[..i]).Err?
    ensures ResponseItems(items) == ResponseItems(items[..i])
    decreases |items| - i
  {
    if i < |items| {
      assert items[..i + 1][..i] == items[..i];
      ResponseErrorStops(items, i + 1);
    } else {
      assert items[..i] == items;
    }
  }

  /** The loop over `response.data`: each item's `value` and `price`, appended in order. */
  method ReadResponseItems(items: seq<Value>) returns (r: Result<(seq<Value>, seq<Value>), Exception>)
    ensures r == ResponseItems(items)
  {
    var demand: seq<Value> := [];
    var prices: seq<Value> := [];
    var i := 0;
    while i < |items|
      invariant 0 <= i <= |items|
      invariant ResponseItems(items[..i]) == Ok((demand, prices))
    {
      var item := items[i];
      assert items[..i + 1][..i] == items[..i];
      var value := FieldIfPresent(item, "value");
      if value.Err? {
        ResponseErrorStops(items, i + 1);
        return Err(value.error);
      }
      var price := FieldIfPresent(item, "price");
      if price.Err? {
        ResponseErrorStops(items, i + 1);
        return Err(price.error);
      }
      demand := demand + value.value;
      prices := prices + price.value;
      i := i + 1;
    }
    assert items[..i] == items;
    r := Ok((demand, prices));
  }

  /** The loop over a top-level `data` list. */
  method ReadDataItems(items: seq<Value>) returns (demand: seq<Value>, prices: seq<Value>)
    ensures (demand, prices) == DataItems(items)
  {
    demand, prices := [], [];
    var i := 0;
    while i < |items|
      invariant 0 <= i <= |items|
      invariant DataItems(items[..i]) == (demand, prices)
    {
      var item := items[i];
      assert items[..i + 1][..i] == items[..i];
      assert DataItems(items[..i + 1]) == (demand + DataItem(item).0, prices + DataItem(item).1);
      if item.Obj? {
        demand := demand + FieldIfPresent(item, "demand").value;
        prices := prices + FieldIfPresent(item, "price").value;
      } else {
        assert prices + DataItem(item).1 == prices;
        demand := demand + [item];
      }
      i := i + 1;
    }
    assert items[..i] == items;
  }

  /** Reads an EIA dict by the first matching top-level key. */
  method ParseEiaJson(entries: seq<(string, Value)>) returns (r: Result<Series, Exception>)
    ensures r == EiaSeries(entries)
  {
    if Lookup(entries, "response").Some? {
      var response := Lookup(entries, "response").value;
      var hasData := Contains(response, "data");
      if hasData.Err? {
        return Err(hasData.error);
      }
      if !hasData.value {
        return Ok(NoSeries);
      }
      var d := Index(response, "data");
      if d.Err? {
        return Err(d.error);
      }
      var items := Elements(d.value);
      if items.Err? {
        return Err(items.error);
      }
      var found := ReadResponseItems(items.value);
      if found.Err? {
        return Err(found.error);
      }
      r := Ok(Series(Arr(found.value.1), Arr(found.value.0)));
    } else if Lookup(entries, "data").Some? {
      var d := Lookup(entries, "data").value;
      if !d.Arr? {
        return Ok(NoSeries);
      }
      var demand, prices := ReadDataItems(d.items);
      r := Ok(Series(Arr(prices), Arr(demand)));
    } else if Lookup(entries, "prices").Some? {
      r := Ok(Series(Lookup(entries, "prices").value, Arr([])));
    } else if Lookup(entries, "demand").Some? {
      r := Ok(Series(Arr([]), Lookup(entries, "demand").value));
    } else {
      r := Ok(NoSeries);
    }
  }

  /** Whether each item is a dict holding `key`. */
  predicate AllHold(items: seq<Value>, key: string)
  {
    forall i :: 0 <= i < |items| ==> items[i].Obj? && Lookup(items[i].entries, key).Some?
  }

  /** The value under `key` of each item, in order. */
  function Column(items: seq<Value>, key: string): (c: seq<Value>)
    requires AllHold(items, key)
    ensures |c| == |items| && forall i :: 0 <= i < |items| ==> c[i] == Lookup(items[i].entries, key).value
  {
    seq(|items|, i requires 0 <= i < |items| && AllHold(items, key) => Lookup(items[i].entries, key).value)
  }

  lemma ColumnSnoc(items: seq<Value>, key: string)
    requires items != [] && AllHold(items, key)
    ensures Column(items, key) == Column(items[..|items| - 1], key) + [Lookup(items[|items| - 1].entries, key).value]
  {
  }

  /**
   * Only the first of `response`, `data`, `prices`, `demand` that is a key decides the result: the
   * dict reads as if it held that entry alone.
   */
  lemma EiaPrecedence(entries: seq<(string, Value)>)
    ensures Lookup(entries, "response").Some? ==>
      EiaSeries(entries) == EiaSeries([("response", Lookup(entries, "response").value)])
    ensures Lookup(entries, "response").None? && Lookup(entries, "data").Some? ==>
      EiaSeries(entries) == EiaSeries([("data", Lookup(entries, "data").value)])
    ensures Lookup(entries, "response").None? && Lookup(entries, "data").None? && Lookup(entries, "prices").Some? ==>
      EiaSeries(entries) == EiaSeries([("prices", Lookup(entries, "prices").value)])
    ensures Lookup(entries, "response").None? && Lookup(entries, "data").None? && Lookup(entries, "prices").None? ==>
      EiaSeries(entries) == EiaSeries(if Lookup(entries, "demand").Some? then [("demand", Lookup(entries, "demand").value)] else [])
  {
    assert Lookup([("data", Arr([]))], "response").None?;
    assert Lookup([("prices", Arr([]))], "response").None? && Lookup([("prices", Arr([]))], "data").None?;
    assert Lookup([("demand", Arr([]))], "prices").None? && Lookup([("demand", Arr([]))], "data").None?;
  }

  /** A top-level `data` list without dicts is read whole as the demand series. */
  lemma {:induction false} PlainDataIsDemand(items: seq<Value>)
    requires forall i :: 0 <= i < |items| ==> !items[i].Obj?
    ensures DataItems(items) == (items, [])
  {
    if items != [] {
      var front, last := items[..|items| - 1], items[|items| - 1];
      assert items == front + [last];
      PlainDataIsDemand(front);
      assert DataItem(last) == ([last], []);
      assert DataItems(items).0 == front + [last];
      assert DataItems(items).1 == [];
    }
  }

  /** A top-level `data` list of records with `demand` and `price` is read column by column. */
  lemma {:induction false} DataRecords(items: seq<Value>)
    requires AllHold(items, "demand") && AllHold(items, "price")
    ensures DataItems(items) == (Column(items, "demand"), Column(items, "price"))
  {
    if items != [] {
      DataRecords(items[..|items| - 1]);
      ColumnSnoc(items, "demand");
      ColumnSnoc(items, "price");
    }
  }

  /** `response.data` items that are all dicts never raise; when each has `value` and `price`, both are read column by column. */
  lemma {:induction false} ResponseRecords(items: seq<Value>)
    requires forall i :: 0 <= i < |items| ==> items[i].Obj?
    ensures ResponseItems(items).Ok?
    ensures AllHold(items, "value") && AllHold(items, "price") ==>
      ResponseItems(items) == Ok((Column(items, "value"), Column(items, "price")))
  {
    if items != [] {
      ResponseRecords(items[..|items| - 1]);
      if AllHold(items, "value") && AllHold(items, "price") {
        ColumnSnoc(items, "value");
        ColumnSnoc(items, "price");
      }
    }
  }

  // ---------------------------------------------------------------------------------------
  // NOAA temperature JSON

  /** The `temperature` of each observation that has one; the first observation that raises ends the read. */
  function ObservationTemperatures(observations: seq<Value>): Result<seq<Value>, Exception>
  {
    if observations == [] then Ok([])
    else
      match ObservationTemperatures(observations[..|observations| - 1])
      case Err(e) => Err(e)
      case Ok(acc) =>
        match FieldIfPresent(observations[|observations| - 1], "temperature")
        case Err(e) => Err(e)
        case Ok(more) => Ok(acc + more)
  }

  /**
   * Temperatures from a JSON value: a list is taken as it is; otherwise the first of `temperatures`,
   * `data` (a list, or a dict holding `temperatures`) and `observations` that the value contains.
   * Nothing found is an empty list.
   */
  function TemperaturesOf(data: Value): Result<Value, Exception>
  {
    if data.Arr? then Ok(data)
    else
      match Contains(data, "temperatures")
      case Err(e) => Err(e)
      case Ok(hasTemperatures) =>
        if hasTemperatures then Index(data, "temperatures")
        else
          match Contains(data, "data")
          case Err(e) => Err(e)
          case Ok(hasData) =>
            if hasData then
              match Index(data, "data")
              case Err(e) => Err(e)
              case Ok(d) =>
                if d.Arr? then Ok(d)
                else if d.Obj? && Lookup(d.entries, "temperatures").Some? then Ok(Lookup(d.entries, "temperatures").value)
                else Ok(Arr([]))
            else
              match Contains(data, "observations")
              case Err(e) => Err(e)
              case Ok(hasObservations) =>
                if !hasObservations then Ok(Arr([]))
                else
                  match Index(data, "observations")
                  case Err(e) => Err(e)
                  case Ok(obs) =>
                    match Elements(obs)
                    case Err(e) => Err(e)
                    case Ok(items) =>
                      match ObservationTemperatures(items)
                      case Err(e) => Err(e)
                      case Ok(ts) => Ok(Arr(ts))
  }

  lemma {:induction false} ObservationErrorStops(items: seq<Value>, i: nat)
    requires i <= |items| && ObservationTemperatures(items[..i]).Err?
    ensures ObservationTemperatures(items) == ObservationTemperatures(items[..i])
    decreases |items| - i
  {
    if i < |items| {
      assert items[..i + 1][..i] == items[..i];
      ObservationErrorStops(items, i + 1);
    } else {
      assert items[..i] == items;
    }
  }

  /** The loop over `observations`. */
  method ReadObservations(observations: seq<Value>) returns (r: Result<seq<Value>, Exception>)
    ensures r == ObservationTemperatures(observations)
  {
    var temperatures: seq<Value> := [];
    var i := 0;
    while i < |observations|
      invariant 0 <= i <= |observations|
      invariant ObservationTemperatures(observations[..i]) == Ok(temperatures)
    {
      assert observations[..i + 1][..i] == observations[..i];
      var t := FieldIfPresent(observations[i], "temperature");
      if t.Err? {
        ObservationErrorStops(observations, i + 1);
        return Err(t.error);
      }
      temperatures := temperatures + t.value;
      i := i + 1;
    }
    assert observations[..i] == observations;
    r := Ok(temperatures);
  }

  method ExtractTemperatures(data: Value) returns (r: Result<Value, Exception>)
    ensures r == TemperaturesOf(data)
  {
    if data.Arr? {
      return Ok(data);
    }
    var hasTemperatures := Contains(data, "temperatures");
    if hasTemperatures.Err? {
      return Err(hasTemperatures.error);
    }
    if hasTemperatures.value {
      return Index(data, "temperatures");
    }
    if Contains(data, "data").value {
      var d := Index(data, "data");
      if d.Err? {
        return Err(d.error);
      }
      if d.value.Arr? {
        return Ok(d.value);
      }
      if d.value.Obj? && Lookup(d.value.entries, "temperatures").Some? {
        return Ok(Lookup(d.value.entries, "temperatures").value);
      }
      return Ok(Arr([]));
    }
    if !Contains(data, "observations").value {
      return Ok(Arr([]));
    }
    var obs := Index(data, "observations");
    if obs.Err? {
      return Err(obs.error);
    }
    var items := Elements(obs.value);
    if items.Err? {
      return Err(items.error);
    }
    var ts := ReadObservations(items.value);
    if ts.Err? {
      return Err(ts.error);
    }
    r := Ok(Arr(ts.value));
  }

  /**
   * The reading order of the temperature shapes: a dict with `temperatures` yields that value
   * whatever else it holds; without it, a `data` list is taken whole; a dict matching no shape
   * yields an empty list; a number, boolean or null raises.
   */
  lemma TemperaturePrecedence(data: Value)
    ensures data.Obj? && Lookup(data.entries, "temperatures").Some? ==>
      TemperaturesOf(data) == Ok(Lookup(data.entries, "temperatures").value)
    ensures (data.Obj? && Lookup(data.entries, "temperatures").None? && Lookup(data.entries, "data").Some?
      && Lookup(data.entries, "data").value.Arr?) ==> TemperaturesOf(data) == Ok(Lookup(data.entries, "data").value)
    ensures (data.Obj? && Lookup(data.entries, "temperatures").None? && Lookup(data.entries, "data").None?
      && Lookup(data.entries, "observations").None?) ==> TemperaturesOf(data) == Ok(Arr([]))
    ensures data.Null? || data.Bool? || data.Num? ==> TemperaturesOf(data) == Err(TypeError)
  {
  }

  /** Observations that are all dicts with a `temperature` are read column by column. */
  lemma {:induction false} ObservationRecords(items: seq<Value>)
    requires AllHold(items, "temperature")
    ensures ObservationTemperatures(items) == Ok(Column(items, "temperature"))
  {
    if items != [] {
      ObservationRecords(items[..|items| - 1]);
      ColumnSnoc(items, "temperature");
    }
  }

  // ---------------------------------------------------------------------------------------
  // Loading electricity data

  /** The time-of-use rate of an hour in $/kWh. */
  function TouRate(h: int): real
  {
    if IsPeakHour(h) then PeakRate else if IsSuperOffpeakHour(h) then SuperOffpeakRate else OffpeakRate
  }

  /** A day of time-of-use prices in $/MWh: each hour's rate varied by at most 5% either way. */
  predicate TouDay(tou: seq<real>)
  {
    |tou| == Hours && forall h :: 0 <= h < |tou| ==> TouRate(h) * 950.0 <= tou[h] <= TouRate(h) * 1050.0
  }

  /**
   * The forms an electricity source comes in. A file is named by its path and carries what reading
   * it as JSON yields; a data frame is given by the price and demand columns found in it.
   */
  datatype ElectricitySource =
    | ElectricityFile(path: string, jsonContent: Value)
    | ElectricityFrame(priceColumn: seq<Value>, demandColumn: seq<Value>)
    | ElectricityMapping(entries: seq<(string, Value)>)
    | ElectricityList(items: seq<Value>)
    | OtherElectricity

  predicate EndsWith(s: string, suffix: string)
  {
    |suffix| <= |s| && s[|s| - |suffix|..] == suffix
  }

  /**
   * The series read from a source, before any gap is filled: a CSV file yields nothing, a JSON file
   * holding a dict is read as EIA JSON and any other JSON content is taken as the prices, another
   * file extension is refused.
   */
  function SeriesOf(src: ElectricitySource): Result<Series, Exception>
  {
    match src
    case ElectricityFile(path, content) =>
      if EndsWith(path, ".csv") then Ok(NoSeries)
      else if EndsWith(path, ".json") then
        if content.Obj? then EiaSeries(content.entries) else Ok(Series(content, Arr([])))
      else Err(ValueError("Unsupported file format"))
    case ElectricityFrame(prices, demand) => Ok(Series(Arr(prices), Arr(demand)))
    case ElectricityMapping(entries) => EiaSeries(entries)
    case ElectricityList(items) => Ok(Series(Arr(items), Arr([])))
    case OtherElectricity => Ok(NoSeries)
  }

  /**
   * The prices of a series: kept when present, otherwise estimated from the demand when there is
   * any (a demand that is not a list of numbers raises), otherwise the time-of-use prices.
   */
  function PricesFor(series: Series, touPrices: seq<real>): Result<Value, Exception>
  {
    if Truthy(series.prices) then Ok(series.prices)
    else if Truthy(series.demand) then
      if !series.demand.Arr? then Err(TypeError)
      else
        match Numbers(series.demand.items)
        case Err(e) => Err(e)
        case Ok(demand) => Ok(Arr(Nums(EstimatedPrices(demand))))
    else Ok(Arr(Nums(touPrices)))
  }

  /** The loaded series: the prices filled in and forced to 24 hours, the demand as read. */
  function ElectricityDataOf(src: ElectricitySource, touPrices: seq<real>): Result<Series, Exception>
  {
    match SeriesOf(src)
    case Err(e) => Err(e)
    case Ok(series) =>
      match PricesFor(series, touPrices)
      case Err(e) => Err(e)
      case Ok(prices) =>
        match EnsureDayValue(prices)
        case Err(e) => Err(e)
        case Ok(day) => Ok(Series(day, series.demand))
  }

  /** `touPrices` stands for the randomly varied time-of-use prices the loader generates when it needs them. */
  method LoadElectricityData(src: ElectricitySource, touPrices: seq<real>) returns (r: Result<Series, Exception>)
    ensures r == ElectricityDataOf(src, touPrices)
  {
    var series: Series;
    match src {
      case ElectricityFile(path, content) =>
        if EndsWith(path, ".csv") {
          series := NoSeries;
        } else if EndsWith(path, ".json") {
          if content.Obj? {
            var parsed := ParseEiaJson(content.entries);
            if parsed.Err? {
              return Err(parsed.error);
            }
            series := parsed.value;
          } else {
            series := Series(content, Arr([]));
          }
        } else {
          return Err(ValueError("Unsupported file format"));
        }
      case ElectricityFrame(prices, demand) =>
        series := Series(Arr(prices), Arr(demand));
      case ElectricityMapping(entries) =>
        var parsed := ParseEiaJson(entries);
        if parsed.Err? {
          return Err(parsed.error);
        }
        series := parsed.value;
      case ElectricityList(items) =>
        series := Series(Arr(items), Arr([]));
      case OtherElectricity =>
        series := NoSeries;
    }
    assert SeriesOf(src) == Ok(series);
    var prices := series.prices;
    if !Truthy(prices) {
      if Truthy(series.demand) {
        if !series.demand.Arr? {
          return Err(TypeError);
        }
        var demand := Numbers(series.demand.items);
        if demand.Err? {
          return Err(demand.error);
        }
        var estimated := EstimatePricesFromDemand(demand.value, touPrices);
        prices := Arr(Nums(estimated));
      } else {
        prices := Arr(Nums(touPrices));
      }
    }
    assert PricesFor(series, touPrices) == Ok(prices);
    var day := EnsureDayValue(prices);
    if day.Err? {
      return Err(day.error);
    }
    r := Ok(Series(day.value, series.demand));
  }

  /** Loading either fails as reading failed or yields 24 prices with the demand as read. */
  lemma LoadedElectricityShape(src: ElectricitySource, touPrices: seq<real>)
    ensures SeriesOf(src).Err? ==> ElectricityDataOf(src, touPrices) == Err(SeriesOf(src).error)
    ensures ElectricityDataOf(src, touPrices).Ok? ==>
      HasDayLength(ElectricityDataOf(src, touPrices).value.prices) &&
      ElectricityDataOf(src, touPrices).value.demand == SeriesOf(src).value.demand
  {
  }

  /** A non-empty price list is never replaced: it is only cut or repeated to 24 hours. */
  lemma GivenPricesKept(src: ElectricitySource, touPrices: seq<real>)
    requires SeriesOf(src).Ok? && SeriesOf(src).value.prices.Arr? && SeriesOf(src).value.prices.items != []
    ensures ElectricityDataOf(src, touPrices) ==
      Ok(Series(Arr(EnsureDay(SeriesOf(src).value.prices.items, Num(0.0))), SeriesOf(src).value.demand))
  {
  }

  /** Numbers written out as JSON numbers read back as the same numbers. */
  lemma NumbersOfNums(xs: seq<real>)
    ensures Numbers(Nums(xs)) == Ok(xs)
  {
    var vs := Nums(xs);
    assert forall i :: 0 <= i < |vs| ==> AsNumber(vs[i]) == Some(xs[i]);
    assert Numbers(vs).value == xs;
  }

  /**
   * Without prices, a numeric demand series gives 24 estimated prices, hour `i` priced from demand
   * entry `i mod n`, each between $30 and $225 per MWh.
   */
  lemma PricesFromDemand(src: ElectricitySource, touPrices: seq<real>, demand: seq<real>)
    requires SeriesOf(src).Ok? && !Truthy(SeriesOf(src).value.prices)
    requires SeriesOf(src).value.demand == Arr(Nums(demand)) && demand != []
    ensures ElectricityDataOf(src, touPrices).Ok?
    ensures ElectricityDataOf(src, touPrices).value.prices.Arr?
    ensures var day := ElectricityDataOf(src, touPrices).value.prices.items;
      |day| == Hours && forall i :: 0 <= i < Hours ==>
        day[i] == Num(EstimatedPrices(demand)[i % |demand|]) && 30.0 <= day[i].n <= 225.0
  {
    NumbersOfNums(demand);
    var series, estimated := SeriesOf(src).value, EstimatedPrices(demand);
    assert PricesFor(series, touPrices) == Ok(Arr(Nums(estimated)));
    assert ElectricityDataOf(src, touPrices) == Ok(Series(Arr(EnsureDay(Nums(estimated), Num(0.0))), series.demand));
    EstimatedDay(demand);
  }

  /** The estimated prices made 24 long: hour `i` from demand entry `i mod n`, each between $30 and $225 per MWh. */
  lemma EstimatedDay(demand: seq<real>)
    requires demand != []
    ensures var day := EnsureDay(Nums(EstimatedPrices(demand)), Num(0.0));
      forall i :: 0 <= i < Hours ==>
        day[i] == Num(EstimatedPrices(demand)[i % |demand|]) && 30.0 <= EstimatedPrices(demand)[i % |demand|] <= 225.0
  {
    var estimated := EstimatedPrices(demand);
    EnsureDayCycles(Nums(estimated), Num(0.0));
    forall i | 0 <= i < Hours
      ensures 30.0 <= estimated[i % |demand|] <= 225.0
    {
      EstimatedPriceBounds(demand, i % |demand|);
    }
  }

  /** With neither prices nor demand, the day is the time-of-use schedule, each hour within 5% of its rate. */
  lemma PricesFromSchedule(src: ElectricitySource, touPrices: seq<real>)
    requires SeriesOf(src).Ok? && !Truthy(SeriesOf(src).value.prices) && !Truthy(SeriesOf(src).value.demand)
    requires TouDay(touPrices)
    ensures ElectricityDataOf(src, touPrices) == Ok(Series(Arr(Nums(touPrices)), SeriesOf(src).value.demand))
    ensures forall h :: 0 <= h < Hours ==>
      var price := ElectricityDataOf(src, touPrices).value.prices.items[h];
      price.Num? && TouRate(h) * 950.0 <= price.n <= TouRate(h) * 1050.0
  {
  }

  // ---------------------------------------------------------------------------------------
  // Loading weather data

  /**
   * The forms a weather source comes in. A file is named by its path and carries both the
   * temperature column a CSV reader finds in it and what reading it as JSON yields; only the one
   * its extension selects is used. A data frame is given by its temperature column.
   */
  datatype WeatherSource =
    | WeatherFile(path: string, csvColumn: seq<real>, jsonContent: Value)
    | WeatherFrame(column: seq<real>)
    | WeatherMapping(entries: seq<(string, Value)>)
    | WeatherList(items: seq<Value>)
    | OtherWeather

  /** The temperatures a source holds, before they are forced to 24 hours. */
  function TemperaturesFrom(src: WeatherSource): Result<Value, Exception>
  {
    match src
    case WeatherFile(path, column, content) =>
      if EndsWith(path, ".csv") then Ok(Arr(Nums(FromCelsiusIfLow(column))))
      else if EndsWith(path, ".json") then TemperaturesOf(content)
      else Err(ValueError("Unsupported file format"))
    case WeatherFrame(column) => Ok(Arr(Nums(FromCelsiusIfLow(column))))
    case WeatherMapping(entries) => TemperaturesOf(Obj(entries))
    case WeatherList(items) => Ok(Arr(items))
    case OtherWeather => Ok(Arr([]))
  }

  /**
   * The loaded temperatures: forced to 24 hours, then compared with the plausible range one by one
   * (an entry that is not a number cannot be compared and raises) and replaced where implausible.
   */
  function WeatherOf(src: WeatherSource): Result<seq<real>, Exception>
  {
    match TemperaturesFrom(src)
    case Err(e) => Err(e)
    case Ok(temperatures) =>
      match EnsureDayValue(temperatures)
      case Err(e) => Err(e)
      case Ok(day) =>
        match Elements(day)
        case Err(e) => Err(e)
        case Ok(items) =>
          match Numbers(items)
          case Err(e) => Err(e)
          case Ok(readings) => Ok(ClampAll(readings))
  }

  method LoadWeatherData(src: WeatherSource) returns (r: Result<seq<real>, Exception>)
    ensures r == WeatherOf(src)
  {
    var temperatures: Value;
    match src {
      case WeatherFile(path, column, content) =>
        if EndsWith(path, ".csv") {
          temperatures := Arr(Nums(FromCelsiusIfLow(column)));
        } else if EndsWith(path, ".json") {
          var extracted := ExtractTemperatures(content);
          if extracted.Err? {
            return Err(extracted.error);
          }
          temperatures := extracted.value;
        } else {
          return Err(ValueError("Unsupported file format"));
        }
      case WeatherFrame(column) =>
        temperatures := Arr(Nums(FromCelsiusIfLow(column)));
      case WeatherMapping(entries) =>
        var extracted := ExtractTemperatures(Obj(entries));
        if extracted.Err? {
          return Err(extracted.error);
        }
        temperatures := extracted.value;
      case WeatherList(items) =>
        temperatures := Arr(items);
      case OtherWeather =>
        temperatures := Arr([]);
    }
    assert TemperaturesFrom(src) == Ok(temperatures);
    var day := EnsureDayValue(temperatures);
    if day.Err? {
      return Err(day.error);
    }
    // A value of 24 entries is a list, string or dict, so it can always be iterated.
    var items := Elements(day.value).value;
    var readings := Numbers(items);
    if readings.Err? {
      return Err(readings.error);
    }
    var validated := ValidatePhoenixTemperatures(readings.value);
    r := Ok(validated);
  }

  /** Loaded weather is always 24 readings, each in [50, 125] °F. */
  lemma LoadedWeatherInRange(src: WeatherSource)
    requires WeatherOf(src).Ok?
    ensures |WeatherOf(src).value| == Hours
    ensures forall i :: 0 <= i < Hours ==> 50.0 <= WeatherOf(src).value[i] <= 125.0
  {
    var day := EnsureDayValue(TemperaturesFrom(src).value).value;
    assert day.Arr? || day.Obj? || day.Str?;
  }

  /**
   * A list of readings is loaded exactly when the hours it supplies are all numbers; hour `i` then
   * holds entry `i mod n`, replaced when implausible. An empty list gives 24 hours of the
   * replacement for a too-low reading.
   */
  lemma WeatherListCycles(items: seq<Value>)
    ensures items == [] ==> WeatherOf(WeatherList(items)) == Ok(Constant(Hours, 85.0))
    ensures items != [] ==>
      (WeatherOf(WeatherList(items)).Ok? <==> forall i :: 0 <= i < Hours ==> AsNumber(items[i % |items|]).Some?)
    ensures items != [] && WeatherOf(WeatherList(items)).Ok? ==>
      forall i :: 0 <= i < Hours ==>
        WeatherOf(WeatherList(items)).value[i] == ClampTemperature(AsNumber(items[i % |items|]).value)
  {
    if items == [] {
      NumbersOfNums(Constant(Hours, 0.0));
      assert ClampAll(Constant(Hours, 0.0)) == Constant(Hours, 85.0);
    } else {
      EnsureDayCycles(items, Num(0.0));
    }
  }

  /** A data frame whose column is already in Fahrenheit and 24 long loads as that column, made plausible. */
  lemma FahrenheitFrame(column: seq<real>)
    requires |column| == Hours && MaxOf(column) >= 50.0
    ensures WeatherOf(WeatherFrame(column)) == Ok(ClampAll(column))
  {
    var vs := Nums(column);
    FrameKeptWhole(column);
    DayListKept(vs);
    NumbersOfNums(column);
  }

  lemma FrameKeptWhole(column: seq<real>)
    requires column != [] && MaxOf(column) >= 50.0
    ensures TemperaturesFrom(WeatherFrame(column)) == Ok(Arr(Nums(column)))
  {
  }

  /** A list of 24 entries passes the 24-hour normaliser unchanged. */
  lemma DayListKept(items: seq<Value>)
    requires |items| == Hours
    ensures EnsureDayValue(Arr(items)) == Ok(Arr(items))
    ensures Elements(Arr(items)) == Ok(items)
  {
  }
}
