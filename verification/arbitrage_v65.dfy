/**
 * The planning helpers of the v6.5 dynamic-arbitrage script. Unlike v7.7,
 * v6.5 reads every host value defensively (non-numbers fall back to
 * defaults), averages the SOC of the configured inverters, replaces empty
 * discounted forecasts by sentinels, and ranks overnight periods strictly
 * after peak end. Where a v6.5 helper computes exactly what its v7.7
 * counterpart computes (evening premium, budget factor, hours to sunrise,
 * cheapest positive buy) the v7.7 definition is reused.
 */
module ArbitrageV65 {
  import opened Common
  import opened Ranking
  import opened PyData
  import V77 = ArbitrageV77

  const PeakStart: int := 16
  const PeakEnd: int := 20
  const MaxAmBuyPrice: real := 10.0
  const BaseMinSellPrice: real := 10.0
  const AlwaysSellPrice: real := 100.0
  const DesiredMargin: real := 5.0
  const FutureForecastHours: int := 8
  const BuyUncertaintyDiscount: real := 0.03
  const SellUncertaintyDiscount: real := 0.07
  /** Two inverters at 10 kWh per half-hour each. */
  const SiteExportKwhPerPeriod: real := 20.0
  const FullBattery: real := 100.0
  const BatteryWattHours: real := 50000.0
  const HouseLoadKwhPerHour: real := 2.0
  const GtiSunnyThreshold: real := 6000.0
  const GtiNormalThreshold: real := 3500.0
  const TargetMorningSocMin: real := 10.0
  const TargetMorningSocMax: real := 20.0
  /** 10 kW for half an hour. */
  const MaxChargePerPeriodKwh: real := 5.0
  /** The "never" answer of the threshold, and the buy sentinel of an empty forecast. */
  const NeverSell: real := 9999.0
  const BuySentinel: real := 9999.0
  const SellSentinel: real := 0.0
  /** The configured inverter ids, as the f-string `inverter_params_{inv_id}` renders them. */
  const InverterIds: seq<string> := ["43923", "43924"]

  function BaseFloor(c: SolarClass): real
  {
    match c
    case Sunny => 15.0
    case Normal => 35.0
    case Rainy => 60.0
  }

  function BaseBudget(c: SolarClass): real
  {
    match c
    case Sunny => 40.0
    case Normal => 25.0
    case Rainy => 10.0
  }

  // ---------------------------------------------------------------------
  // Input cleaning
  // ---------------------------------------------------------------------

  /** The entries `isinstance(v, (int, float))` accepts, in order, as floats. */
  function Numbers(items: seq<Value>): (r: seq<real>)
    ensures |r| <= |items|
    ensures forall x :: x in r ==> exists i :: 0 <= i < |items| && AsNumber(items[i]) == Some(x)
  {
    if |items| == 0 then []
    else
      var rest := Numbers(items[1..]);
      assert forall x :: x in rest ==> exists i :: 1 <= i < |items| && AsNumber(items[i]) == Some(x) by {
        forall x | x in rest
          ensures exists i :: 1 <= i < |items| && AsNumber(items[i]) == Some(x)
        {
          var j :| 0 <= j < |items[1..]| && AsNumber(items[1..][j]) == Some(x);
          assert AsNumber(items[j + 1]) == Some(x);
        }
      }
      match AsNumber(items[0])
      case Some(x) => [x] + rest
      case None => rest
  }

  /** Filtering distributes over concatenation: order is kept. */
  lemma {:induction false} NumbersAppend(a: seq<Value>, b: seq<Value>)
    ensures Numbers(a + b) == Numbers(a) + Numbers(b)
  {
    if |a| == 0 {
      assert a + b == b;
    } else {
      assert (a + b)[0] == a[0];
      assert (a + b)[1..] == a[1..] + b;
      NumbersAppend(a[1..], b);
    }
  }

  /** A list of numbers passes through whole, entry by entry. */
  lemma {:induction false} NumbersOfNumeric(items: seq<Value>)
    requires forall i :: 0 <= i < |items| ==> AsNumber(items[i]).Some?
    ensures |Numbers(items)| == |items|
    ensures forall i :: 0 <= i < |items| ==> Numbers(items)[i] == AsNumber(items[i]).value
  {
    if |items| > 0 {
      NumbersOfNumeric(items[1..]);
      assert forall i :: 1 <= i < |items| ==> items[1..][i - 1] == items[i];
    }
  }

  /**
   * `clean_number_list`: the numeric entries of a list, in order, or the
   * one-entry list `[default]` when there are none or the value is not a
   * list. The result is never empty.
   */
  function CleanNumberList(v: Value, default: real): (r: seq<real>)
    ensures |r| > 0
    ensures v.VList? && |Numbers(v.items)| > 0 ==> r == Numbers(v.items)
    ensures !(v.VList? && |Numbers(v.items)| > 0) ==> r == [default]
  {
    match v
    case VList(items) => if |Numbers(items)| > 0 then Numbers(items) else [default]
    case _ => [default]
  }

  /**
   * The `battery_soc` readings under `inverter_params_<id>` for the listed
   * ids. A present entry that is not a dictionary raises AttributeError on
   * `.get`, which the surrounding `try` swallows: the scan stops there with
   * the readings found so far.
   */
  function SocReadings(d: map<Key, Value>, ids: seq<string>): (socs: seq<real>)
    ensures |socs| <= |ids|
  {
    if |ids| == 0 then []
    else
      var key := KStr("inverter_params_" + ids[0]);
      if key !in d then SocReadings(d, ids[1..])
      else
        match d[key]
        case VDict(params) =>
          (match AsNumber(DictGet(params, KStr("battery_soc"), VNone))
           case Some(x) => [x]
           case None => []) + SocReadings(d, ids[1..])
        case _ => []
  }

  /** When every listed id carries a dictionary with a numeric SOC, every reading is taken, in id order. */
  lemma {:induction false} SocReadingsAllPresent(d: map<Key, Value>, ids: seq<string>)
    requires forall k :: 0 <= k < |ids| ==>
      KStr("inverter_params_" + ids[k]) in d && d[KStr("inverter_params_" + ids[k])].VDict? &&
      AsNumber(DictGet(d[KStr("inverter_params_" + ids[k])].entries, KStr("battery_soc"), VNone)).Some?
    ensures |SocReadings(d, ids)| == |ids|
    ensures forall k :: 0 <= k < |ids| ==>
      SocReadings(d, ids)[k] == AsNumber(DictGet(d[KStr("inverter_params_" + ids[k])].entries, KStr("battery_soc"), VNone)).value
  {
    if |ids| > 0 {
      SocReadingsAllPresent(d, ids[1..]);
      assert forall k :: 1 <= k < |ids| ==> ids[1..][k - 1] == ids[k];
    }
  }

  /** No inverter dictionary, or none of the listed keys in it: no readings. */
  lemma {:induction false} SocReadingsNoKeys(d: map<Key, Value>, ids: seq<string>)
    requires forall k :: 0 <= k < |ids| ==> KStr("inverter_params_" + ids[k]) !in d
    ensures SocReadings(d, ids) == []
  {
    if |ids| > 0 {
      SocReadingsNoKeys(d, ids[1..]);
      assert forall k :: 1 <= k < |ids| ==> ids[1..][k - 1] == ids[k];
    }
  }

  function Readings(inverters: Value): seq<real>
  {
    if inverters.VDict? then SocReadings(inverters.entries, InverterIds) else []
  }

  /**
   * `get_combined_soc`: the mean of the inverter SOC readings, which lies
   * between the lowest and the highest reading; without readings the direct
   * SOC when it is a number, else 0. It never raises.
   */
  function CombinedSoc(socInput: Value, inverters: Value): (r: real)
    ensures |Readings(inverters)| > 0 ==> IsMeanOf(r, Readings(inverters))
    ensures |Readings(inverters)| > 0 ==> MinOf(Readings(inverters)) <= r <= MaxOf(Readings(inverters))
    ensures |Readings(inverters)| == 0 && AsNumber(socInput).Some? ==> r == AsNumber(socInput).value
    ensures |Readings(inverters)| == 0 && AsNumber(socInput).None? ==> r == 0.0
  {
    var socs := Readings(inverters);
    if |socs| > 0 then
      var mean := Sum(socs) / |socs| as real;
      MeanBetween(socs, MinOf(socs), MaxOf(socs));
      mean
    else
      match AsNumber(socInput)
      case Some(x) => x
      case None => 0.0
  }

  /** `battery_capacity` when it is a positive number, else the 50 kWh default: never zero. */
  function CapacityWh(raw: Value): (wh: real)
    ensures wh > 0.0
    ensures AsNumber(raw).Some? && AsNumber(raw).value > 0.0 ==> wh == AsNumber(raw).value
    ensures !(AsNumber(raw).Some? && AsNumber(raw).value > 0.0) ==> wh == BatteryWattHours
  {
    match AsNumber(raw)
    case Some(x) => if x <= 0.0 then BatteryWattHours else x
    case None => BatteryWattHours
  }

  // ---------------------------------------------------------------------
  // Uncertainty discount
  // ---------------------------------------------------------------------

  datatype DiscountedForecasts = DiscountedForecasts(buy: seq<real>, sell: seq<real>)

  /** How many entries of a list of length len the discount keeps. */
  function Kept(hours: int, len: nat): (n: nat)
    ensures n <= len
    ensures n == 0 <==> hours <= 0 || len == 0
  {
    if hours <= 0 then 0 else MinInt(hours, len)
  }

  /** One discounted forecast: the first `hours` entries scaled by factor^i, or the sentinel alone when none are kept. */
  function DiscountOrSentinel(f: seq<real>, hours: int, factor: real, sentinel: real): (r: seq<real>)
    ensures |r| > 0
    ensures Kept(hours, |f|) > 0 ==> |r| == Kept(hours, |f|) && ScaledPrefix(r, f, factor)
    ensures Kept(hours, |f|) == 0 ==> r == [sentinel]
  {
    var n := Kept(hours, |f|);
    if n > 0 then DiscountFirst(f, n, factor) else [sentinel]
  }

  /**
   * `apply_uncertainty_discount`: the first `hours` buy entries grown by
   * (1 + b)^i and sell entries shrunk by (1 − s)^i; an empty result becomes
   * `[9999.0]` for buys and `[0.0]` for sells, so neither list is empty.
   */
  function UncertaintyDiscount(buy: seq<real>, sell: seq<real>, hours: int, b: real, s: real): (r: DiscountedForecasts)
    ensures |r.buy| > 0 && |r.sell| > 0
    ensures Kept(hours, |buy|) > 0 ==> |r.buy| == Kept(hours, |buy|) && ScaledPrefix(r.buy, buy, 1.0 + b)
    ensures Kept(hours, |buy|) == 0 ==> r.buy == [BuySentinel]
    ensures Kept(hours, |sell|) > 0 ==> |r.sell| == Kept(hours, |sell|) && ScaledPrefix(r.sell, sell, 1.0 - s)
    ensures Kept(hours, |sell|) == 0 ==> r.sell == [SellSentinel]
  {
    DiscountedForecasts(DiscountOrSentinel(buy, hours, 1.0 + b, BuySentinel),
                        DiscountOrSentinel(sell, hours, 1.0 - s, SellSentinel))
  }

  /** The sell discount never raises a positive sell price, and lowers every later one. */
  lemma SellDiscountLowers(buy: seq<real>, sell: seq<real>, i: nat)
    requires i < Kept(FutureForecastHours, |sell|) && sell[i] > 0.0
    ensures UncertaintyDiscount(buy, sell, FutureForecastHours, BuyUncertaintyDiscount, SellUncertaintyDiscount).sell[i] <= sell[i]
    ensures i > 0 ==> UncertaintyDiscount(buy, sell, FutureForecastHours, BuyUncertaintyDiscount, SellUncertaintyDiscount).sell[i] < sell[i]
  {
    DiscountedShrinks(sell, 1.0 - SellUncertaintyDiscount, i);
  }

  // ---------------------------------------------------------------------
  // Classifiers
  // ---------------------------------------------------------------------

  datatype TimePeriod = Peak | Day | Night

  /** `classify_time_period`: peak 16:00-20:59, day from sunrise to peak start, night otherwise. */
  function ClassifyTimePeriod(hour: int, sunrise: real): (t: TimePeriod)
    ensures t == Peak <==> PeakStart <= hour <= PeakEnd
    ensures t == Day <==> sunrise <= hour as real && hour < PeakStart
  {
    if PeakStart <= hour <= PeakEnd then Peak
    else if sunrise <= hour as real && hour < PeakStart then Day
    else Night
  }

  /** `classify_solar_forecast`: a non-number reads as normal; else sunny from 6000, rainy below 3500. */
  function ClassifySolarForecast(gti: Value): (c: SolarClass)
    ensures AsNumber(gti).None? ==> c == Normal
    ensures AsNumber(gti).Some? ==>
      (c == Sunny <==> AsNumber(gti).value >= GtiSunnyThreshold) &&
      (c == Rainy <==> AsNumber(gti).value < GtiNormalThreshold)
  {
    match AsNumber(gti)
    case None => Normal
    case Some(x) =>
      if x >= GtiSunnyThreshold then Sunny
      else if x >= GtiNormalThreshold then Normal
      else Rainy
  }

  /** More irradiance never gives a gloomier class. */
  lemma SolarClassMonotone(g1: real, g2: real)
    requires g1 <= g2
    ensures SolarRank(ClassifySolarForecast(VFloat(g1))) <= SolarRank(ClassifySolarForecast(VFloat(g2)))
  {
  }

  // ---------------------------------------------------------------------
  // SOC floor and export budget
  // ---------------------------------------------------------------------

  /** SOC percentage the house consumes over the given hours. */
  function ReserveSoc(hours: real, batteryKwh: real): real
    requires batteryKwh != 0.0
  {
    (hours * HouseLoadKwhPerHour / batteryKwh) * 100.0
  }

  lemma ReserveSocIncreasing(h1: real, h2: real, batteryKwh: real)
    requires batteryKwh > 0.0
    requires h1 < h2
    ensures ReserveSoc(h1, batteryKwh) < ReserveSoc(h2, batteryKwh)
  {
    var a := h1 * HouseLoadKwhPerHour;
    var b := h2 * HouseLoadKwhPerHour;
    assert b / batteryKwh - a / batteryKwh == (b - a) / batteryKwh;
  }

  /** The hours the floor reserves for: from 16:00 to sunrise before peak start, from now to sunrise after; never negative. */
  function FloorHours(hour: int, sunrise: real): (h: real)
    ensures h >= 0.0
  {
    if hour < 16 then Max(0.0, V77.HoursPeakToSunrise(sunrise))
    else Max(0.0, V77.HoursToSunrise(hour, sunrise))
  }

  /** kWh stored above the export floor, each side clamped at zero first. */
  function AvailableAboveFloor(soc: real, floor: real, batteryKwh: real): (e: real)
    ensures e >= 0.0
    ensures batteryKwh > 0.0 && 0.0 <= floor <= soc ==> e == (soc - floor) / 100.0 * batteryKwh
    ensures batteryKwh > 0.0 && soc <= floor ==> e == 0.0
  {
    var current := Max(0.0, (soc / 100.0) * batteryKwh);
    var atFloor := Max(0.0, (floor / 100.0) * batteryKwh);
    assert batteryKwh > 0.0 && 0.0 <= floor <= soc ==> (soc / 100.0) * batteryKwh - (floor / 100.0) * batteryKwh == (soc - floor) / 100.0 * batteryKwh;
    assert batteryKwh > 0.0 && soc <= floor ==> (soc / 100.0) * batteryKwh <= (floor / 100.0) * batteryKwh by {
      if batteryKwh > 0.0 && soc <= floor {
        MulMonotone(batteryKwh, soc / 100.0, floor / 100.0);
      }
    }
    Max(0.0, current - atFloor)
  }

  /** The class's base budget scaled by the premium factor. */
  function ScaledBudget(c: SolarClass, premium: real): (b: real)
    ensures 0.0 <= b <= BaseBudget(c)
    ensures b == 0.0 <==> premium <= DesiredMargin
    ensures DesiredMargin < premium <= 2.0 * DesiredMargin ==> b == BaseBudget(c) / 2.0
    ensures premium > 2.0 * DesiredMargin ==> b == BaseBudget(c)
  {
    var f := V77.BudgetFactor(premium);
    assert BaseBudget(c) * f == (if f == 0.0 then 0.0 else if f == 0.5 then BaseBudget(c) / 2.0 else BaseBudget(c));
    BaseBudget(c) * f
  }

  /**
   * `compute_floor_and_budget`: before 16:00 the import floor is 100 % and
   * the export floor is the base floor plus the reserve from 16:00 to
   * sunrise; from 16:00 both floors are the base floor plus the reserve for
   * the hours left to sunrise. Floors are clamped at 0 only. The budget is
   * the scaled base budget capped by the energy above the export floor.
   */
  function ComputeFloorAndBudget(c: SolarClass, premium: real, batteryKwh: real, soc: real, hour: int,
                                 sunrise: real): (f: V77.Floor)
    requires batteryKwh > 0.0
    ensures f.importFloor >= 0.0 && f.exportFloor >= BaseFloor(c)
    ensures f.exportFloor == BaseFloor(c) + ReserveSoc(FloorHours(hour, sunrise), batteryKwh)
    ensures hour < 16 ==> f.importFloor == 100.0
    ensures hour >= 16 ==> f.importFloor == f.exportFloor
    ensures 0.0 <= f.budget <= ScaledBudget(c, premium)
    ensures f.budget <= AvailableAboveFloor(soc, f.exportFloor, batteryKwh)
    ensures f.budget == ScaledBudget(c, premium) || f.budget == AvailableAboveFloor(soc, f.exportFloor, batteryKwh)
  {
    var hours := FloorHours(hour, sunrise);
    var reserve := ReserveSoc(hours, batteryKwh);
    assert reserve >= 0.0 by {
      assert hours * HouseLoadKwhPerHour >= 0.0;
      assert (hours * HouseLoadKwhPerHour) / batteryKwh >= 0.0;
    }
    var exportRaw := BaseFloor(c) + reserve;
    var importRaw := if hour < 16 then 100.0 else exportRaw;
    var budget := Min(ScaledBudget(c, premium), AvailableAboveFloor(soc, exportRaw, batteryKwh));
    V77.Floor(Max(0.0, importRaw), Max(0.0, exportRaw), budget, reserve, hours)
  }

  /** The header's figures: before 16:00 with sunrise at 6:00 on 50 kWh the export floors are 71, 91 and 116 %. */
  lemma HeaderFloors(premium: real, soc: real, hour: int)
    requires hour < 16
    ensures ComputeFloorAndBudget(Sunny, premium, 50.0, soc, hour, 6.0).exportFloor == 71.0
    ensures ComputeFloorAndBudget(Normal, premium, 50.0, soc, hour, 6.0).exportFloor == 91.0
    ensures ComputeFloorAndBudget(Rainy, premium, 50.0, soc, hour, 6.0).exportFloor == 116.0
  {
    assert FloorHours(hour, 6.0) == 14.0;
    assert ReserveSoc(14.0, 50.0) == 56.0;
  }

  /** From 16:00 to 23:00, with sunrise no later than 16:00, the export floor falls strictly with every hour. */
  lemma FloorStepsDown(c: SolarClass, premium: real, batteryKwh: real, soc: real, h1: int, h2: int, sunrise: real)
    requires batteryKwh > 0.0
    requires 0.0 <= sunrise <= 16.0
    requires 16 <= h1 < h2 <= 23
    ensures ComputeFloorAndBudget(c, premium, batteryKwh, soc, h2, sunrise).exportFloor <
            ComputeFloorAndBudget(c, premium, batteryKwh, soc, h1, sunrise).exportFloor
  {
    assert FloorHours(h1, sunrise) == (24 - h1) as real + sunrise;
    assert FloorHours(h2, sunrise) == (24 - h2) as real + sunrise;
    ReserveSocIncreasing(FloorHours(h2, sunrise), FloorHours(h1, sunrise), batteryKwh);
  }

  // ---------------------------------------------------------------------
  // Dynamic sell threshold
  // ---------------------------------------------------------------------

  /** Export periods needed for the available energy, the per-period cap floored at 0.1 kWh. */
  function PeriodsToExport(availableKwh: real, perPeriodKwh: real): (n: int)
    ensures n >= 1
  {
    PeriodsFor(availableKwh / Max(0.1, perPeriodKwh))
  }

  /**
   * `compute_dynamic_sell_threshold`: 9999 ("never") without energy above
   * the floor or without a positive sell; otherwise the highest of the
   * minimum sell price, the n-th highest positive sell (n the periods
   * needed, the lowest one past the end) and the cheapest positive buy plus
   * the margin.
   */
  function DynamicSellThreshold(sellDisc: seq<real>, buyDisc: seq<real>, availableKwh: real, perPeriodKwh: real,
                                baseMinPrice: real, margin: real): (thr: real)
    ensures availableKwh <= 0.0 || |Positives(sellDisc)| == 0 ==> thr == NeverSell
    ensures availableKwh > 0.0 && |Positives(sellDisc)| > 0 ==>
      var ts := NthHighest(Positives(sellDisc), PeriodsToExport(availableKwh, perPeriodKwh));
      var mt := V77.MinPositiveOrZero(buyDisc) + margin;
      thr >= baseMinPrice && thr >= ts && thr >= mt && (thr == baseMinPrice || thr == ts || thr == mt)
  {
    if availableKwh <= 0.0 then NeverSell
    else
      var positives := Positives(sellDisc);
      if |positives| == 0 then NeverSell
      else
        var ts := NthHighest(positives, PeriodsToExport(availableKwh, perPeriodKwh));
        Max(Max(baseMinPrice, ts), V77.MinPositiveOrZero(buyDisc) + margin)
  }

  // ---------------------------------------------------------------------
  // Overnight sell-period ranking
  // ---------------------------------------------------------------------

  /**
   * v6.5's overnight window: strictly after peak end and before sunrise,
   * wrapping over midnight when peak end is not before sunrise.
   */
  predicate AfterPeakEnd(ph: real, sunrise: real, peakEnd: int)
  {
    if peakEnd as real >= sunrise then ph > peakEnd as real || ph < sunrise
    else ph > peakEnd as real && ph < sunrise
  }

  /** The forecast periods among the first n that start in the overnight window, in forecast order. */
  function OvernightWindow(sellFc: seq<real>, hour: int, sunrise: real, peakEnd: int, n: nat): (w: seq<Period>)
    requires n <= |sellFc|
    ensures |w| <= n
    ensures IncreasingIndices(w)
    ensures forall k :: 0 <= k < |w| ==>
      0 <= w[k].index < n && w[k].hour == V77.PeriodHour(hour, w[k].index) &&
      w[k].price == sellFc[w[k].index] && AfterPeakEnd(w[k].hour, sunrise, peakEnd)
    ensures forall i {:trigger HasIndex(w, i)} :: 0 <= i < n && AfterPeakEnd(V77.PeriodHour(hour, i), sunrise, peakEnd) ==> HasIndex(w, i)
  {
    if n == 0 then []
    else
      var w0 := OvernightWindow(sellFc, hour, sunrise, peakEnd, n - 1);
      var ph := V77.PeriodHour(hour, n - 1);
      if AfterPeakEnd(ph, sunrise, peakEnd) then
        var w := w0 + [Period(n - 1, ph, sellFc[n - 1])];
        assert w[|w0|].index == n - 1;
        assert forall i :: 0 <= i < n - 1 && HasIndex(w0, i) ==> HasIndex(w, i) by {
          forall i | 0 <= i < n - 1 && HasIndex(w0, i)
            ensures HasIndex(w, i)
          {
            var j :| 0 <= j < |w0| && w0[j].index == i;
            assert w[j] == w0[j];
          }
        }
        w
      else w0
  }

  /**
   * `analyze_overnight_opportunities`: None ("no opportunities", zero
   * periods) when no forecast period starts in the window; otherwise the
   * selection of the highest-priced window periods, as many as are needed
   * to drain the given energy at the per-period export rate.
   */
  function AnalyzeOvernight(sellFc: seq<real>, hour: int, sunrise: real, peakEnd: int, drainKwh: real,
                            perPeriodKwh: real): (r: Option<Selection>)
    requires |OvernightWindow(sellFc, hour, sunrise, peakEnd, |sellFc|)| > 0 ==> perPeriodKwh != 0.0
    ensures r.None? <==> forall i :: 0 <= i < |sellFc| ==> !AfterPeakEnd(V77.PeriodHour(hour, i), sunrise, peakEnd)
    ensures r.Some? ==>
      r.value.periodsNeeded >= 1 &&
      r.value.totalPeriods == |OvernightWindow(sellFc, hour, sunrise, peakEnd, |sellFc|)| &&
      |r.value.best| == MinInt(r.value.periodsNeeded, r.value.totalPeriods) &&
      |r.value.best| > 0 &&
      r.value.worstAcceptablePrice == r.value.best[|r.value.best| - 1].price
    ensures r.Some? ==> forall b :: b in r.value.best ==>
      0 <= b.index < |sellFc| && b.price == sellFc[b.index] && b.price >= r.value.worstAcceptablePrice &&
      AfterPeakEnd(b.hour, sunrise, peakEnd)
  {
    var w := OvernightWindow(sellFc, hour, sunrise, peakEnd, |sellFc|);
    if |w| == 0 then
      assert forall i :: 0 <= i < |sellFc| && AfterPeakEnd(V77.PeriodHour(hour, i), sunrise, peakEnd) ==> HasIndex(w, i);
      None
    else
      var o := SelectTop(w, PeriodsFor(drainKwh / perPeriodKwh), true);
      OvernightSelectionFacts(sellFc, hour, sunrise, peakEnd, o);
      Some(o)
  }

  lemma OvernightSelectionFacts(sellFc: seq<real>, hour: int, sunrise: real, peakEnd: int, o: Selection)
    requires |OvernightWindow(sellFc, hour, sunrise, peakEnd, |sellFc|)| > 0
    requires o.periodsNeeded >= 1 && o == SelectTop(OvernightWindow(sellFc, hour, sunrise, peakEnd, |sellFc|), o.periodsNeeded, true)
    ensures exists i :: 0 <= i < |sellFc| && AfterPeakEnd(V77.PeriodHour(hour, i), sunrise, peakEnd)
    ensures forall b :: b in o.best ==>
      0 <= b.index < |sellFc| && b.price == sellFc[b.index] && b.price >= o.worstAcceptablePrice &&
      AfterPeakEnd(b.hour, sunrise, peakEnd)
  {
    var w := OvernightWindow(sellFc, hour, sunrise, peakEnd, |sellFc|);
    assert AfterPeakEnd(V77.PeriodHour(hour, w[0].index), sunrise, peakEnd);
    forall b | b in o.best
      ensures 0 <= b.index < |sellFc| && b.price == sellFc[b.index] && b.price >= o.worstAcceptablePrice
      ensures AfterPeakEnd(b.hour, sunrise, peakEnd)
    {
      assert b in w;
      var k :| 0 <= k < |w| && w[k] == b;
      var j :| 0 <= j < |o.best| && o.best[j] == b;
      assert Precedes(o.best[j], o.best[|o.best| - 1], true);
    }
  }

  /** Every selected period sells at least as high as every window period left out. */
  lemma OvernightBestDominates(sellFc: seq<real>, hour: int, sunrise: real, peakEnd: int, drainKwh: real,
                               perPeriodKwh: real, e: Period, b: Period)
    requires |OvernightWindow(sellFc, hour, sunrise, peakEnd, |sellFc|)| > 0 ==> perPeriodKwh != 0.0
    requires AnalyzeOvernight(sellFc, hour, sunrise, peakEnd, drainKwh, perPeriodKwh).Some?
    requires e in OvernightWindow(sellFc, hour, sunrise, peakEnd, |sellFc|)
    requires e !in AnalyzeOvernight(sellFc, hour, sunrise, peakEnd, drainKwh, perPeriodKwh).value.best
    requires b in AnalyzeOvernight(sellFc, hour, sunrise, peakEnd, drainKwh, perPeriodKwh).value.best
    ensures b.price >= e.price
  {
    var w := OvernightWindow(sellFc, hour, sunrise, peakEnd, |sellFc|);
    SelectTopDominates(w, PeriodsFor(drainKwh / perPeriodKwh), true, e, b);
  }

  /**
   * The current period is selected exactly when it starts in the window
   * and fewer window periods than needed sell strictly higher; its 1-based
   * rank is one more than that count, and it has no rank outside the window.
   */
  lemma OvernightCurrentRank(sellFc: seq<real>, hour: int, sunrise: real, peakEnd: int, drainKwh: real,
                             perPeriodKwh: real)
    requires |OvernightWindow(sellFc, hour, sunrise, peakEnd, |sellFc|)| > 0 ==> perPeriodKwh != 0.0
    requires AnalyzeOvernight(sellFc, hour, sunrise, peakEnd, drainKwh, perPeriodKwh).Some?
    ensures |sellFc| > 0
    ensures CurrentStanding(AnalyzeOvernight(sellFc, hour, sunrise, peakEnd, drainKwh, perPeriodKwh).value,
                            OvernightWindow(sellFc, hour, sunrise, peakEnd, |sellFc|), sellFc[0], true,
                            AfterPeakEnd(V77.PeriodHour(hour, 0), sunrise, peakEnd))
  {
    var w := OvernightWindow(sellFc, hour, sunrise, peakEnd, |sellFc|);
    var needed := PeriodsFor(drainKwh / perPeriodKwh);
    OvernightIsTopOfWindow(sellFc, hour, sunrise, peakEnd, drainKwh, perPeriodKwh);
    OvernightWindowHasIndex(sellFc, hour, sunrise, peakEnd, 0);
    SelectTopCurrent(w, needed, true, AfterPeakEnd(V77.PeriodHour(hour, 0), sunrise, peakEnd), sellFc[0]);
  }

  /** A forecast period is in the overnight window exactly when its start hour is. */
  lemma OvernightWindowHasIndex(sellFc: seq<real>, hour: int, sunrise: real, peakEnd: int, i: int)
    requires 0 <= i < |sellFc|
    ensures HasIndex(OvernightWindow(sellFc, hour, sunrise, peakEnd, |sellFc|), i) <==>
              AfterPeakEnd(V77.PeriodHour(hour, i), sunrise, peakEnd)
  {
    var w := OvernightWindow(sellFc, hour, sunrise, peakEnd, |sellFc|);
    if HasIndex(w, i) {
      var j :| 0 <= j < |w| && w[j].index == i;
    }
  }

  /** What `analyze_overnight_opportunities` selects is the top of the overnight window. */
  lemma OvernightIsTopOfWindow(sellFc: seq<real>, hour: int, sunrise: real, peakEnd: int, drainKwh: real,
                               perPeriodKwh: real)
    requires |OvernightWindow(sellFc, hour, sunrise, peakEnd, |sellFc|)| > 0 ==> perPeriodKwh != 0.0
    requires AnalyzeOvernight(sellFc, hour, sunrise, peakEnd, drainKwh, perPeriodKwh).Some?
    ensures |sellFc| > 0
    ensures AnalyzeOvernight(sellFc, hour, sunrise, peakEnd, drainKwh, perPeriodKwh).value ==
              SelectTop(OvernightWindow(sellFc, hour, sunrise, peakEnd, |sellFc|), PeriodsFor(drainKwh / perPeriodKwh), true)
  {
  }

  /** Peak end itself is never an overnight period: the window starts strictly after it. */
  lemma PeakEndExcluded(sunrise: real)
    ensures !AfterPeakEnd(PeakEnd as real, sunrise, PeakEnd) || (PeakEnd as real) < sunrise
  {
  }

  // ---------------------------------------------------------------------
  // Daytime grid-charging analysis
  // ---------------------------------------------------------------------

  /** The price a buy-forecast entry contributes: itself when numeric, else 9999. */
  function PriceOr9999(v: Value): (p: real)
    ensures AsNumber(v).Some? ==> p == AsNumber(v).value
    ensures AsNumber(v).None? ==> p == 9999.0
  {
    match AsNumber(v)
    case Some(x) => x
    case None => 9999.0
  }

  /**
   * The periods from i on, scanned in order until the first one that does
   * not start before peak start (`break`); start hours are not wrapped.
   */
  function ScanBeforePeak(fc: seq<Value>, hour: int, peakStart: int, i: nat): (w: seq<Period>)
    requires i <= |fc|
    ensures |w| <= |fc| - i
    ensures forall k :: 0 <= k < |w| ==>
      w[k].index == i + k && V77.StartsBefore(hour, i + k, peakStart) &&
      w[k].hour == hour as real + (i + k) as real * 0.5 && w[k].price == PriceOr9999(fc[i + k])
    ensures forall j :: i <= j < |fc| && V77.StartsBefore(hour, j, peakStart) ==> j < i + |w|
    decreases |fc| - i
  {
    if i == |fc| || !V77.StartsBefore(hour, i, peakStart) then []
    else
      var rest := ScanBeforePeak(fc, hour, peakStart, i + 1);
      var w := [Period(i, hour as real + i as real * 0.5, PriceOr9999(fc[i]))] + rest;
      assert forall k :: 1 <= k < |w| ==> w[k] == rest[k - 1];
      w
  }

  lemma ScanIsIndexOrdered(fc: seq<Value>, hour: int, peakStart: int)
    ensures IncreasingIndices(ScanBeforePeak(fc, hour, peakStart, 0))
    ensures |ScanBeforePeak(fc, hour, peakStart, 0)| > 0 ==> ScanBeforePeak(fc, hour, peakStart, 0)[0].index == 0
  {
    var w := ScanBeforePeak(fc, hour, peakStart, 0);
    assert forall k :: 0 <= k < |w| ==> w[k].index == k;
  }

  /** The outcome of `analyze_daytime_charging_strategy`. */
  datatype DaytimeStrategy =
    | SolarOnly
    | GridNeededButNoPeriods(energyKwh: real)
    | GridCharging(energyKwh: real, selection: Selection)

  /**
   * `analyze_daytime_charging_strategy`: a solar surplus (or break-even)
   * needs no grid energy; otherwise the deficit is bought in the cheapest
   * periods that start before peak, as many as 5 kWh periods the deficit
   * needs, ties kept in forecast order.
   */
  function AnalyzeDaytimeCharging(buyFc: seq<Value>, hour: int, peakStart: int, surplusKwh: real): (r: DaytimeStrategy)
    ensures surplusKwh >= 0.0 <==> r == SolarOnly
    ensures surplusKwh < 0.0 ==> r.energyKwh == -surplusKwh
    ensures r.GridNeededButNoPeriods? <==> surplusKwh < 0.0 && (|buyFc| == 0 || !V77.StartsBefore(hour, 0, peakStart))
    ensures r.GridCharging? ==>
      var o := r.selection;
      o.periodsNeeded >= 1 && o.totalPeriods == |ScanBeforePeak(buyFc, hour, peakStart, 0)| &&
      |o.best| == MinInt(o.periodsNeeded, o.totalPeriods) && |o.best| > 0 &&
      (forall b :: b in o.best ==> b in ScanBeforePeak(buyFc, hour, peakStart, 0) && b.price <= o.worstAcceptablePrice)
  {
    if surplusKwh >= 0.0 then SolarOnly
    else
      var energy := -surplusKwh;
      var w := ScanBeforePeak(buyFc, hour, peakStart, 0);
      if |w| == 0 then GridNeededButNoPeriods(energy)
      else
        var o := SelectTop(w, PeriodsFor(energy / MaxChargePerPeriodKwh), false);
        assert forall b :: b in o.best ==> b.price <= o.worstAcceptablePrice by {
          forall b | b in o.best
            ensures b.price <= o.worstAcceptablePrice
          {
            var j :| 0 <= j < |o.best| && o.best[j] == b;
            assert Precedes(o.best[j], o.best[|o.best| - 1], false);
          }
        }
        GridCharging(energy, o)
  }

  /**
   * With grid charging needed, the current period is among the cheapest
   * exactly when fewer periods than needed are strictly cheaper; its rank
   * is one more than that count.
   */
  lemma DaytimeCurrentRank(buyFc: seq<Value>, hour: int, peakStart: int, surplusKwh: real)
    requires AnalyzeDaytimeCharging(buyFc, hour, peakStart, surplusKwh).GridCharging?
    ensures |buyFc| > 0
    ensures CurrentStanding(AnalyzeDaytimeCharging(buyFc, hour, peakStart, surplusKwh).selection,
                            ScanBeforePeak(buyFc, hour, peakStart, 0), PriceOr9999(buyFc[0]), false, true)
  {
    var w := ScanBeforePeak(buyFc, hour, peakStart, 0);
    var needed := PeriodsFor(-surplusKwh / MaxChargePerPeriodKwh);
    assert AnalyzeDaytimeCharging(buyFc, hour, peakStart, surplusKwh).selection == SelectTop(w, needed, false);
    assert |w| > 0 && w[0].index == 0 && w[0].price == PriceOr9999(buyFc[0]);
    ScanIsIndexOrdered(buyFc, hour, peakStart);
    SelectTopCurrent(w, needed, false, true, PriceOr9999(buyFc[0]));
  }

  // ---------------------------------------------------------------------
  // Inline charging block
  // ---------------------------------------------------------------------

  /** The floor-protection phase applies: before peak with the whole pre-peak forecast, dear, and below the floor. */
  predicate FloorProtection(hour: int, soc: real, exportFloor: real, buyDisc: seq<real>, buyNow: real)
  {
    hour < PeakStart && |buyDisc| >= (PeakStart - hour) * 2 && buyNow > MaxAmBuyPrice && soc < exportFloor
  }

  /** The energy in kWh that charges the battery up to the export floor. */
  function EnergyToFloor(soc: real, exportFloor: real, batteryKwh: real): (e: real)
    ensures e >= 0.0
    ensures soc < exportFloor && batteryKwh > 0.0 ==> e > 0.0
  {
    Max(0.0, ((exportFloor - soc) / 100.0) * batteryKwh)
  }

  /** The cost in dollars of charging the given energy at the current price. */
  function ChargeCost(energy: real, buyNow: real): real
  {
    energy * (buyNow / 100.0)
  }

  /** The revenue in dollars of exporting that energy, capped at 20 kWh, at the average peak sell price. */
  function PeakRevenue(energy: real, avgPeakSell: real): real
  {
    Min(energy, 20.0) * (avgPeakSell / 100.0)
  }

  /**
   * The charging block of the main body. Phase 1 (buy price at most 10c):
   * charge when every pre-peak period is needed to fill the battery, or
   * when the price is at most the k-th cheapest pre-peak price. Phase 2
   * (dearer, below the export floor): charge at 45 when now is strictly
   * cheapest or peak revenue beats the cost, at 48 when no slack is left.
   */
  function ChargeBlock(hour: int, soc: real, exportFloor: real, batteryKwh: real, buyDisc: seq<real>,
                       sellDisc: seq<real>, buyNow: real): (p: V77.ChargePlan)
    ensures !(hour < PeakStart && |buyDisc| >= (PeakStart - hour) * 2) ==> p == V77.NoPlan
    ensures !p.shouldCharge ==> p == V77.NoPlan
    ensures p.shouldCharge ==> p.priority == 45 || p.priority == 48 || p.priority == 50
    ensures p.priority != 50 ==> buyNow > MaxAmBuyPrice && soc < exportFloor
    ensures p.shouldCharge && buyNow > MaxAmBuyPrice ==> soc < exportFloor
    ensures FloorProtection(hour, soc, exportFloor, buyDisc, buyNow) ==>
      var periodsUntilPeak := (PeakStart - hour) * 2;
      var energy := EnergyToFloor(soc, exportFloor, batteryKwh);
      if forall i :: 0 <= i < periodsUntilPeak ==> buyNow < buyDisc[i] then
        p == V77.ChargePlan(true, 45, V77.CheapestAhead)
      else if PeakRevenue(energy, AveragePeakSell(sellDisc, periodsUntilPeak)) > ChargeCost(energy, buyNow) then
        p == V77.ChargePlan(true, 45, V77.Profitable)
      else if PeriodsFor(energy / MaxChargePerPeriodKwh) >= periodsUntilPeak then
        p == V77.ChargePlan(true, 48, V77.Urgent)
      else p == V77.NoPlan
  {
    if hour >= PeakStart then V77.NoPlan
    else
      var energyToFull := ((100.0 - soc) / 100.0) * batteryKwh;
      var energyToFloor := EnergyToFloor(soc, exportFloor, batteryKwh);
      var periodsFull := PeriodsFor(energyToFull / MaxChargePerPeriodKwh);
      var periodsFloor := PeriodsFor(energyToFloor / MaxChargePerPeriodKwh);
      var periodsUntilPeak := (PeakStart - hour) * 2;
      if periodsUntilPeak > 0 && |buyDisc| >= periodsUntilPeak then
        var futureBuys := buyDisc[..periodsUntilPeak];
        var avgPeakSell := AveragePeakSell(sellDisc, periodsUntilPeak);
        if buyNow <= MaxAmBuyPrice then
          var sorted := SortedPrices(futureBuys, false);
          if periodsFull >= periodsUntilPeak then V77.ChargePlan(true, 50, V77.NeedAllPeriods)
          else if periodsFull > 0 && buyNow <= sorted[MinInt(periodsFull - 1, |sorted| - 1)] then
            V77.ChargePlan(true, 50, V77.AmongCheapest)
          else V77.NoPlan
        else if soc < exportFloor then
          var minFutureBuy := MinOf(futureBuys);
          assert buyNow < minFutureBuy <==> forall i :: 0 <= i < periodsUntilPeak ==> buyNow < buyDisc[i] by {
            if buyNow >= minFutureBuy {
              var j :| 0 <= j < |futureBuys| && futureBuys[j] == minFutureBuy;
              assert buyDisc[j] == futureBuys[j];
            }
            if buyNow < minFutureBuy {
              forall i | 0 <= i < periodsUntilPeak ensures buyNow < buyDisc[i] {
                assert buyDisc[i] == futureBuys[i];
              }
            }
          }
          var costNow := ChargeCost(energyToFloor, buyNow);
          var revenue := PeakRevenue(energyToFloor, avgPeakSell);
          if buyNow < minFutureBuy then V77.ChargePlan(true, 45, V77.CheapestAhead)
          else if revenue > costNow then V77.ChargePlan(true, 45, V77.Profitable)
          else if periodsFloor >= periodsUntilPeak then V77.ChargePlan(true, 48, V77.Urgent)
          else V77.NoPlan
        else V77.NoPlan
      else V77.NoPlan
  }

  /** Mean of the eight sells after the pre-peak periods, or 0 when the forecast does not reach that far. */
  function AveragePeakSell(sellDisc: seq<real>, periodsUntilPeak: int): (a: real)
    ensures periodsUntilPeak < 0 || periodsUntilPeak + 8 > |sellDisc| ==> a == 0.0
  {
    if 0 <= periodsUntilPeak && periodsUntilPeak + 8 <= |sellDisc| then
      V77.Average(sellDisc[periodsUntilPeak..periodsUntilPeak + 8])
    else 0.0
  }

  /**
   * Phase 1 charges exactly when every remaining period is needed, or when
   * fewer than k of the pre-peak prices are strictly cheaper than now, k
   * being the periods needed to fill the battery.
   */
  lemma PhaseOneChargesAmongCheapest(hour: int, soc: real, exportFloor: real, batteryKwh: real, buyDisc: seq<real>,
                                     sellDisc: seq<real>, buyNow: real)
    requires hour < PeakStart && |buyDisc| >= (PeakStart - hour) * 2
    requires buyNow <= MaxAmBuyPrice
    ensures var full := PeriodsFor(((100.0 - soc) / 100.0) * batteryKwh / MaxChargePerPeriodKwh);
            var left := (PeakStart - hour) * 2;
            ChargeBlock(hour, soc, exportFloor, batteryKwh, buyDisc, sellDisc, buyNow).shouldCharge <==>
              (full >= left || CountBelow(buyDisc[..left], buyNow) < full)
  {
    var full := PeriodsFor(((100.0 - soc) / 100.0) * batteryKwh / MaxChargePerPeriodKwh);
    var left := (PeakStart - hour) * 2;
    if full < left {
      AscendingRank(buyDisc[..left], full - 1, buyNow);
    }
  }

  /**
   * The profitable criterion never fires: the discounted sell list has at
   * most eight entries, so the eight peak sells after at least one pre-peak
   * period are never there and the revenue estimate is always 0.
   */
  lemma ProfitableNeverFires(hour: int, soc: real, exportFloor: real, batteryKwh: real, buyDisc: seq<real>,
                             sellDisc: seq<real>, buyNow: real)
    requires |sellDisc| <= FutureForecastHours
    ensures ChargeBlock(hour, soc, exportFloor, batteryKwh, buyDisc, sellDisc, buyNow).kind != V77.Profitable
  {
    if hour < PeakStart {
      var energyToFloor := EnergyToFloor(soc, exportFloor, batteryKwh);
      assert AveragePeakSell(sellDisc, (PeakStart - hour) * 2) == 0.0;
      assert PeakRevenue(energyToFloor, 0.0) == 0.0;
      if buyNow > MaxAmBuyPrice {
        assert ChargeCost(energyToFloor, buyNow) >= 0.0;
      }
    }
  }

  /** With at most eight discounted buys, nothing is planned before noon. */
  lemma NoChargeBeforeNoon(hour: int, soc: real, exportFloor: real, batteryKwh: real, buyDisc: seq<real>,
                           sellDisc: seq<real>, buyNow: real)
    requires hour < 12 && |buyDisc| <= FutureForecastHours
    ensures !ChargeBlock(hour, soc, exportFloor, batteryKwh, buyDisc, sellDisc, buyNow).shouldCharge
  {
    assert (PeakStart - hour) * 2 > FutureForecastHours;
  }
}
