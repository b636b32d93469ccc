/**
 * The planning functions of the v7.7 dynamic-arbitrage script: forecast
 * discounting, the solar classifier, the evening premium, the SOC floor and
 * export budget, the two-phase charging planner, the overnight sell-period
 * ranking, the next-cheapest-period search and the dynamic sell threshold.
 *
 * Hours of the day are Python ints (`interval_time.hour`), sunrise is a
 * fractional hour, prices are c/kWh and SOC is a percentage; all are reals
 * here except the hour.
 */
module ArbitrageV77 {
  import opened Common
  import opened Ranking
  import opened PyData

  const PeakStart: int := 16
  const PeakEnd: int := 20
  const DaytimeBuyStartHour: int := 9
  const MaxAmBuyPrice: real := 10.0
  const BaseMinSellPrice: real := 5.0
  const AlwaysSellPrice: real := 35.0
  const DesiredMargin: real := 5.0
  const FutureForecastHours: int := 8
  const BuyUncertaintyDiscount: real := 0.03
  const SellUncertaintyDiscount: real := 0.07
  const HouseLoadKwhPerHour: real := 2.75
  const GtiSunnyThreshold: real := 6000.0
  const GtiNormalThreshold: real := 3500.0
  const TargetMorningSocMin: real := 10.0
  const TargetMorningSocMax: real := 20.0
  const OvernightThresholdFactor: real := 0.70
  const DaytimeOpportunisticSellPrice: real := 5.0
  const DaytimeArbitrageMargin: real := 3.0
  const DaytimeSafetyMargin: real := 1.5
  /** Export energy a peak period can realistically absorb, in kWh. */
  const PeakExportCapKwh: real := 20.0
  /** The "never sell" threshold. */
  const NeverSell: real := 9999.0

  function BaseFloor(c: SolarClass): real
  {
    match c
    case Sunny => 7.5
    case Normal => 17.5
    case Rainy => 30.0
  }

  function BaseBudget(c: SolarClass): real
  {
    match c
    case Sunny => 20.0
    case Normal => 12.5
    case Rainy => 5.0
  }

  /** Hours after sunrise before PV generation is meaningful. */
  function PvOffset(c: SolarClass): real
  {
    match c
    case Sunny => 1.0
    case Normal => 2.0
    case Rainy => 3.0
  }

  // ---------------------------------------------------------------------
  // Forecast discounting and solar class
  // ---------------------------------------------------------------------

  /**
   * `apply_discount`: the first `hours` forecast entries, entry i scaled by
   * `(1 + rate) ** i`; empty for an empty forecast or a non-positive horizon.
   */
  function ApplyDiscount(forecast: seq<real>, hours: int, rate: real): (r: seq<real>)
    ensures |forecast| == 0 || hours <= 0 ==> r == []
    ensures |forecast| > 0 && hours > 0 ==> |r| == MinInt(hours, |forecast|)
    ensures |r| <= |forecast|
    ensures forall i :: 0 <= i < |r| ==> r[i] == forecast[i] * Pow(1.0 + rate, i)
  {
    if |forecast| == 0 || hours <= 0 then []
    else Discounted(forecast[..MinInt(hours, |forecast|)], 1.0 + rate)
  }

  /**
   * The sell forecast is discounted with rate −0.07: a positive price is
   * never raised, and every price after the first is strictly lowered.
   */
  lemma SellDiscountLowersPrices(sellForecast: seq<real>, i: nat)
    requires i < |ApplyDiscount(sellForecast, FutureForecastHours, -SellUncertaintyDiscount)|
    requires sellForecast[i] > 0.0
    ensures 0.0 < ApplyDiscount(sellForecast, FutureForecastHours, -SellUncertaintyDiscount)[i] <= sellForecast[i]
    ensures i > 0 ==> ApplyDiscount(sellForecast, FutureForecastHours, -SellUncertaintyDiscount)[i] < sellForecast[i]
  {
    var n := MinInt(FutureForecastHours, |sellForecast|);
    var front := sellForecast[..n];
    assert front[i] == sellForecast[i];
    DiscountedShrinks(front, 1.0 - SellUncertaintyDiscount, i);
  }

  /** The buy forecast is discounted with rate +0.03: a non-negative price is never lowered. */
  lemma BuyDiscountRaisesPrices(buyForecast: seq<real>, i: nat)
    requires i < |ApplyDiscount(buyForecast, FutureForecastHours, BuyUncertaintyDiscount)|
    requires buyForecast[i] >= 0.0
    ensures ApplyDiscount(buyForecast, FutureForecastHours, BuyUncertaintyDiscount)[i] >= buyForecast[i]
  {
    var n := MinInt(FutureForecastHours, |buyForecast|);
    var front := buyForecast[..n];
    assert front[i] == buyForecast[i];
    DiscountedGrows(front, 1.0 + BuyUncertaintyDiscount, i);
  }

  /** `classify_solar`: sunny from 6000 W·h/m², rainy below 3500, normal between. */
  function ClassifySolar(gti: real): (c: SolarClass)
    ensures c == Sunny <==> gti >= GtiSunnyThreshold
    ensures c == Rainy <==> gti < GtiNormalThreshold
  {
    if gti >= GtiSunnyThreshold then Sunny
    else if gti >= GtiNormalThreshold then Normal
    else Rainy
  }

  // ---------------------------------------------------------------------
  // Evening premium
  // ---------------------------------------------------------------------

  /** Forecast entry i is read as the hour `(hour + i) % 24`, in the daytime buy window [9, 16). */
  predicate InDaytimeBuyWindow(hour: int, i: int)
  {
    DaytimeBuyStartHour <= (hour + i) % 24 < PeakStart
  }

  /** Forecast entry i is read as the hour `(hour + i) % 24`, in the peak window [16, 20]. */
  predicate InPeakWindow(hour: int, i: int)
  {
    PeakStart <= (hour + i) % 24 <= PeakEnd
  }

  function DaytimeBuys(buy: seq<real>, n: nat, hour: int): (r: seq<real>)
    requires n <= |buy|
    ensures forall x :: x in r <==> exists i :: 0 <= i < n && InDaytimeBuyWindow(hour, i) && buy[i] == x
  {
    if n == 0 then []
    else
      var r0 := DaytimeBuys(buy, n - 1, hour);
      if InDaytimeBuyWindow(hour, n - 1) then r0 + [buy[n - 1]] else r0
  }

  function PeakSells(sell: seq<real>, n: nat, hour: int): (r: seq<real>)
    requires n <= |sell|
    ensures forall x :: x in r <==> exists i :: 0 <= i < n && InPeakWindow(hour, i) && sell[i] == x
  {
    if n == 0 then []
    else
      var r0 := PeakSells(sell, n - 1, hour);
      if InPeakWindow(hour, n - 1) then r0 + [sell[n - 1]] else r0
  }

  /**
   * `compute_evening_premium`: the widest spread between a peak-window sell
   * price and a daytime-window buy price over the common forecast length,
   * or 0 when either window is empty.
   */
  function EveningPremium(buy: seq<real>, sell: seq<real>, hour: int): (r: real)
    ensures (forall i :: 0 <= i < MinInt(|buy|, |sell|) ==> !InDaytimeBuyWindow(hour, i)) ==> r == 0.0
    ensures (forall j :: 0 <= j < MinInt(|buy|, |sell|) ==> !InPeakWindow(hour, j)) ==> r == 0.0
    ensures (exists i :: 0 <= i < MinInt(|buy|, |sell|) && InDaytimeBuyWindow(hour, i)) &&
            (exists j :: 0 <= j < MinInt(|buy|, |sell|) && InPeakWindow(hour, j)) ==>
              (exists i, j :: 0 <= i < MinInt(|buy|, |sell|) && 0 <= j < MinInt(|buy|, |sell|) &&
                 InDaytimeBuyWindow(hour, i) && InPeakWindow(hour, j) && r == sell[j] - buy[i]) &&
              (forall i, j :: (0 <= i < MinInt(|buy|, |sell|) && 0 <= j < MinInt(|buy|, |sell|) &&
                 InDaytimeBuyWindow(hour, i) && InPeakWindow(hour, j)) ==> sell[j] - buy[i] <= r)
  {
    var n := MinInt(|buy|, |sell|);
    var daytime := DaytimeBuys(buy, n, hour);
    var peak := PeakSells(sell, n, hour);
    if |daytime| > 0 && |peak| > 0 then
      var hi := MaxOf(peak);
      var lo := MinOf(daytime);
      assert forall i :: 0 <= i < n && InDaytimeBuyWindow(hour, i) ==> buy[i] in daytime;
      assert forall j :: 0 <= j < n && InPeakWindow(hour, j) ==> sell[j] in peak;
      hi - lo
    else
      assert forall i :: 0 <= i < n && InDaytimeBuyWindow(hour, i) ==> buy[i] in daytime;
      assert forall j :: 0 <= j < n && InPeakWindow(hour, j) ==> sell[j] in peak;
      0.0
  }

  // ---------------------------------------------------------------------
  // SOC floor and export budget
  // ---------------------------------------------------------------------

  datatype Floor = Floor(importFloor: real, exportFloor: real, budget: real, overnightReserveSoc: real, overnightHours: real)

  /** Hours from peak start (16:00) to the next sunrise. */
  function HoursPeakToSunrise(sunrise: real): real
  {
    if PeakStart as real >= sunrise then (24 - PeakStart) as real + sunrise else sunrise - PeakStart as real
  }

  /** Hours from the current hour to the next sunrise. */
  function HoursToSunrise(hour: int, sunrise: real): real
  {
    if hour as real >= sunrise then (24 - hour) as real + sunrise else sunrise - hour as real
  }

  /**
   * Whether the overnight drain is due: the current period is a selected
   * one, or sunrise is within the hour, or within two hours with SOC 15
   * points over the morning target.
   */
  predicate DrainDue(hrs: real, o: Selection, soc: real)
  {
    o.currentIsGood || hrs <= 1.0 || (hrs <= 2.0 && soc > TargetMorningSocMax + 15.0)
  }

  /** SOC percentage the house consumes over the given hours. */
  function ReserveSoc(hours: real, batteryWh: real): real
    requires batteryWh != 0.0
  {
    hours * HouseLoadKwhPerHour / (batteryWh / 1000.0) * 100.0
  }

  lemma ReserveSocIncreasing(h1: real, h2: real, batteryWh: real)
    requires batteryWh > 0.0
    requires h1 < h2
    ensures ReserveSoc(h1, batteryWh) < ReserveSoc(h2, batteryWh)
  {
    var k := batteryWh / 1000.0;
    var a := h1 * HouseLoadKwhPerHour;
    var b := h2 * HouseLoadKwhPerHour;
    assert a < b;
    assert b / k - a / k == (b - a) / k;
  }

  lemma ReserveSocNonNegative(h: real, batteryWh: real)
    requires batteryWh > 0.0
    requires h >= 0.0
    ensures ReserveSoc(h, batteryWh) >= 0.0
  {
    var k := batteryWh / 1000.0;
    assert h * HouseLoadKwhPerHour >= 0.0;
    assert (h * HouseLoadKwhPerHour) / k >= 0.0;
  }

  /** Share of the base budget granted: none up to the margin, half up to twice the margin, else all. */
  function BudgetFactor(premium: real): (f: real)
    ensures 0.0 <= f <= 1.0
    ensures f == 0.0 <==> premium <= DesiredMargin
    ensures f == 0.5 <==> DesiredMargin < premium <= 2.0 * DesiredMargin
    ensures f == 1.0 <==> premium > 2.0 * DesiredMargin
  {
    if premium <= DesiredMargin then 0.0
    else if premium <= 2.0 * DesiredMargin then 0.5
    else 1.0
  }

  /** The class's export budget scaled by the premium factor. */
  function AllowedBudget(c: SolarClass, premium: real): (b: real)
    ensures 0.0 <= b <= BaseBudget(c)
    ensures b == 0.0 <==> premium <= DesiredMargin
    ensures DesiredMargin < premium <= 2.0 * DesiredMargin ==> b == BaseBudget(c) / 2.0
    ensures premium > 2.0 * DesiredMargin ==> b == BaseBudget(c)
  {
    var f := BudgetFactor(premium);
    assert BaseBudget(c) * f == (if f == 0.0 then 0.0 else if f == 0.5 then BaseBudget(c) / 2.0 else BaseBudget(c));
    BaseBudget(c) * f
  }

  /** kWh stored above a SOC floor, never negative. */
  function KwhAboveFloor(soc: real, floor: real, batteryWh: real): (e: real)
    ensures e >= 0.0
  {
    Max(0.0, (soc - floor) / 100.0 * batteryWh / 1000.0)
  }

  /** The overnight hours the floor reserves for. */
  function OvernightHours(hour: int, sunrise: real): real
  {
    if hour < PeakStart then HoursPeakToSunrise(sunrise) else Max(0.0, HoursToSunrise(hour, sunrise))
  }

  /** The export floor before the final clamp at zero. */
  function RawExportFloor(c: SolarClass, hour: int, sunrise: real, batteryWh: real): real
    requires batteryWh != 0.0
  {
    BaseFloor(c) + ReserveSoc(OvernightHours(hour, sunrise), batteryWh)
  }

  /**
   * `compute_floor`. Before peak the import floor is 100 % and the export
   * floor protects the house from peak start to sunrise, whatever the hour
   * (also after midnight). From peak start on both floors equal the base
   * floor plus the reserve for the hours still left until sunrise. The
   * floors are clamped at 0 only. The budget is the class's budget scaled
   * by the premium factor, capped by the energy above the export floor.
   */
  function ComputeFloor(c: SolarClass, premium: real, soc: real, hour: int, sunrise: real, batteryWh: real): (f: Floor)
    requires batteryWh != 0.0
    ensures f.importFloor >= 0.0 && f.exportFloor >= 0.0
    ensures hour < PeakStart ==>
      f.importFloor == 100.0 &&
      f.exportFloor == Max(0.0, BaseFloor(c) + ReserveSoc(HoursPeakToSunrise(sunrise), batteryWh))
    ensures hour >= PeakStart ==>
      f.importFloor == f.exportFloor &&
      f.exportFloor == Max(0.0, BaseFloor(c) + ReserveSoc(Max(0.0, HoursToSunrise(hour, sunrise)), batteryWh))
    ensures 0.0 <= f.budget <= AllowedBudget(c, premium)
    ensures f.budget <= KwhAboveFloor(soc, RawExportFloor(c, hour, sunrise, batteryWh), batteryWh)
    ensures f.budget == AllowedBudget(c, premium) ||
            f.budget == KwhAboveFloor(soc, RawExportFloor(c, hour, sunrise, batteryWh), batteryWh)
  {
    var hours := OvernightHours(hour, sunrise);
    var exportRaw := RawExportFloor(c, hour, sunrise, batteryWh);
    var importRaw := if hour < PeakStart then 100.0 else exportRaw;
    var budget := Min(AllowedBudget(c, premium), KwhAboveFloor(soc, exportRaw, batteryWh));
    Floor(Max(0.0, importRaw), Max(0.0, exportRaw), budget, ReserveSoc(hours, batteryWh), hours)
  }

  /**
   * From peak start to 23:00, with sunrise no later than peak start, both
   * floors fall strictly with every hour.
   */
  lemma FloorStepsDown(c: SolarClass, premium: real, soc: real, h1: int, h2: int, sunrise: real, batteryWh: real)
    requires batteryWh > 0.0
    requires 0.0 <= sunrise <= PeakStart as real
    requires PeakStart <= h1 < h2 <= 23
    ensures ComputeFloor(c, premium, soc, h2, sunrise, batteryWh).exportFloor < ComputeFloor(c, premium, soc, h1, sunrise, batteryWh).exportFloor
    ensures ComputeFloor(c, premium, soc, h2, sunrise, batteryWh).importFloor < ComputeFloor(c, premium, soc, h1, sunrise, batteryWh).importFloor
  {
    var t1 := HoursToSunrise(h1, sunrise);
    var t2 := HoursToSunrise(h2, sunrise);
    assert t1 == (24 - h1) as real + sunrise && t2 == (24 - h2) as real + sunrise;
    assert 0.0 < t2 < t1;
    ReserveSocIncreasing(t2, t1, batteryWh);
    ReserveSocNonNegative(t2, batteryWh);
  }

  /** The floors are not clamped at 100: a rainy evening at 17:00 with sunrise at 6:00 on a 50 kWh battery asks for 101.5 %. */
  lemma FloorCanExceedFull()
    ensures ComputeFloor(Rainy, 0.0, 50.0, 17, 6.0, 50000.0).exportFloor == 101.5
    ensures ComputeFloor(Rainy, 0.0, 50.0, 17, 6.0, 50000.0).importFloor == 101.5
  {
    assert HoursToSunrise(17, 6.0) == 13.0;
    assert ReserveSoc(13.0, 50000.0) == 71.5;
  }

  // ---------------------------------------------------------------------
  // Two-phase charging planner
  // ---------------------------------------------------------------------

  /** Which criterion of the planner fired. */
  datatype ChargeKind = NoCharge | NeedAllPeriods | AmongCheapest | CheapestAhead | Profitable | Urgent

  /** `smart_charging`'s result: charge or not, the priority (45 economic, 48 urgent, 50 optimal) and why. */
  datatype ChargePlan = ChargePlan(shouldCharge: bool, priority: int, kind: ChargeKind)

  const NoPlan: ChargePlan := ChargePlan(false, 50, NoCharge)

  /** Half-hour periods left before peak start. */
  function PeriodsLeft(hour: int): int
  {
    (PeakStart - hour) * 2
  }

  /** Charging periods needed to reach 100 %, rounded up as the script rounds. */
  function PeriodsToFull(soc: real, batteryWh: real, maxChargeKwh: real): (n: int)
    requires maxChargeKwh != 0.0
    ensures n >= 1
  {
    PeriodsFor(((100.0 - soc) / 100.0) * (batteryWh / 1000.0) / maxChargeKwh)
  }

  function EnergyToFloor(soc: real, exportFloor: real, batteryWh: real): (e: real)
    ensures e >= 0.0
  {
    Max(0.0, ((exportFloor - soc) / 100.0) * (batteryWh / 1000.0))
  }

  /** The discounted sells of the peak window that follows the pre-peak periods. */
  function PeakWindowSells(sellFc: seq<real>, periodsLeft: nat): (r: seq<real>)
    ensures |r| <= (PeakEnd - PeakStart) * 2
  {
    if periodsLeft < |sellFc| then sellFc[periodsLeft..MinInt(periodsLeft + (PeakEnd - PeakStart) * 2, |sellFc|)]
    else []
  }

  function Average(s: seq<real>): real
  {
    if |s| > 0 then Sum(s) / |s| as real else 0.0
  }

  /** Phase 2 of the charging plan applies: before peak with the whole pre-peak forecast, dear, and below the floor. */
  predicate FloorProtection(soc: real, exportFloor: real, buyFc: seq<real>, buyNow: real, hour: int)
  {
    hour < PeakStart && 0 < PeriodsLeft(hour) <= |buyFc| && buyNow > MaxAmBuyPrice && soc < exportFloor
  }

  /** Some remaining pre-peak period is no dearer than now. */
  predicate CheaperAhead(buyFc: seq<real>, buyNow: real, hour: int)
  {
    exists i :: 0 <= i < PeriodsLeft(hour) && i < |buyFc| && buyFc[i] <= buyNow
  }

  /** The cost in dollars of charging up to the export floor at the current price. */
  function FloorChargeCost(soc: real, exportFloor: real, batteryWh: real, buyNow: real): real
  {
    EnergyToFloor(soc, exportFloor, batteryWh) * (buyNow / 100.0)
  }

  /** The revenue in dollars of exporting that energy, capped at 20 kWh, at the average peak sell price. */
  function PeakRevenue(soc: real, exportFloor: real, batteryWh: real, sellFc: seq<real>, periodsLeft: nat): real
  {
    Min(EnergyToFloor(soc, exportFloor, batteryWh), PeakExportCapKwh) * (Average(PeakWindowSells(sellFc, periodsLeft)) / 100.0)
  }

  /**
   * `smart_charging`. Phase 1 (buy price at most 10c): charge when every
   * remaining pre-peak period is needed, or when the price is at most the
   * k-th cheapest of them, k being the periods needed to fill the battery.
   * Phase 2 (dearer, and below the export floor): charge at 45 when now is
   * strictly the cheapest or the peak revenue beats the cost, at 48 when
   * there is no slack left.
   */
  function SmartCharging(soc: real, exportFloor: real, buyFc: seq<real>, sellFc: seq<real>, buyNow: real,
                         hour: int, batteryWh: real, maxChargeKwh: real): (p: ChargePlan)
    requires hour < PeakStart && |buyFc| > 0 ==> maxChargeKwh != 0.0
    ensures hour >= PeakStart || |buyFc| < PeriodsLeft(hour) || |buyFc| == 0 ==> p == NoPlan
    ensures !p.shouldCharge ==> p == NoPlan
    ensures p.shouldCharge ==> p.priority == 45 || p.priority == 48 || p.priority == 50
    ensures p.priority != 50 ==> buyNow > MaxAmBuyPrice && soc < exportFloor
    ensures p.shouldCharge && buyNow > MaxAmBuyPrice ==> soc < exportFloor
    ensures (hour < PeakStart && 0 < PeriodsLeft(hour) <= |buyFc| && buyNow > MaxAmBuyPrice && soc < exportFloor &&
             (forall i :: 0 <= i < PeriodsLeft(hour) ==> buyNow < buyFc[i])) ==> p == ChargePlan(true, 45, CheapestAhead)
    ensures FloorProtection(soc, exportFloor, buyFc, buyNow, hour) && CheaperAhead(buyFc, buyNow, hour) ==>
      if PeakRevenue(soc, exportFloor, batteryWh, sellFc, PeriodsLeft(hour)) > FloorChargeCost(soc, exportFloor, batteryWh, buyNow) then
        p == ChargePlan(true, 45, Profitable)
      else if PeriodsFor(EnergyToFloor(soc, exportFloor, batteryWh) / maxChargeKwh) >= PeriodsLeft(hour) then
        p == ChargePlan(true, 48, Urgent)
      else p == NoPlan
  {
    if hour >= PeakStart || |buyFc| == 0 then NoPlan
    else
      var energyToFloor := EnergyToFloor(soc, exportFloor, batteryWh);
      var periodsFull := PeriodsToFull(soc, batteryWh, maxChargeKwh);
      var periodsFloor := PeriodsFor(energyToFloor / maxChargeKwh);
      var periodsLeft := PeriodsLeft(hour);
      if periodsLeft <= 0 || |buyFc| < periodsLeft then NoPlan
      else
        var futureBuys := buyFc[..periodsLeft];
        if buyNow <= MaxAmBuyPrice then
          var sortedBuys := SortedPrices(futureBuys, false);
          if periodsFull >= periodsLeft then ChargePlan(true, 50, NeedAllPeriods)
          else if periodsFull > 0 && buyNow <= sortedBuys[MinInt(periodsFull - 1, |sortedBuys| - 1)] then
            ChargePlan(true, 50, AmongCheapest)
          else NoPlan
        else if soc < exportFloor then
          var minBuy := MinOf(futureBuys);
          var cost := FloorChargeCost(soc, exportFloor, batteryWh, buyNow);
          var revenue := PeakRevenue(soc, exportFloor, batteryWh, sellFc, periodsLeft);
          assert CheaperAhead(buyFc, buyNow, hour) ==> buyNow >= minBuy by {
            if CheaperAhead(buyFc, buyNow, hour) {
              var i :| 0 <= i < PeriodsLeft(hour) && i < |buyFc| && buyFc[i] <= buyNow;
              assert futureBuys[i] == buyFc[i];
            }
          }
          if buyNow < minBuy then ChargePlan(true, 45, CheapestAhead)
          else if revenue > cost then ChargePlan(true, 45, Profitable)
          else if periodsFloor >= periodsLeft then ChargePlan(true, 48, Urgent)
          else NoPlan
        else NoPlan
  }

  /**
   * Phase 1 charges exactly when every remaining period is needed, or when
   * fewer than k of the remaining pre-peak prices are strictly cheaper than
   * now, k being the periods needed to fill the battery.
   */
  lemma PhaseOneChargesAmongCheapest(soc: real, exportFloor: real, buyFc: seq<real>, sellFc: seq<real>, buyNow: real,
                                     hour: int, batteryWh: real, maxChargeKwh: real)
    requires maxChargeKwh != 0.0
    requires hour < PeakStart && PeriodsLeft(hour) <= |buyFc|
    requires buyNow <= MaxAmBuyPrice
    ensures SmartCharging(soc, exportFloor, buyFc, sellFc, buyNow, hour, batteryWh, maxChargeKwh).shouldCharge <==>
              (PeriodsToFull(soc, batteryWh, maxChargeKwh) >= PeriodsLeft(hour) ||
               CountBelow(buyFc[..PeriodsLeft(hour)], buyNow) < PeriodsToFull(soc, batteryWh, maxChargeKwh))
  {
    var periodsFull := PeriodsToFull(soc, batteryWh, maxChargeKwh);
    var periodsLeft := PeriodsLeft(hour);
    if periodsFull < periodsLeft {
      AscendingRank(buyFc[..periodsLeft], periodsFull - 1, buyNow);
    }
  }

  /**
   * Before noon no charge is planned from a forecast of at most eight
   * entries, because at least ten periods remain before peak.
   */
  lemma NoChargeBeforeNoon(soc: real, exportFloor: real, buyFc: seq<real>, sellFc: seq<real>, buyNow: real,
                           hour: int, batteryWh: real, maxChargeKwh: real)
    requires hour < PeakStart && |buyFc| > 0 ==> maxChargeKwh != 0.0
    requires hour < 12 && |buyFc| <= FutureForecastHours
    ensures !SmartCharging(soc, exportFloor, buyFc, sellFc, buyNow, hour, batteryWh, maxChargeKwh).shouldCharge
  {
    assert PeriodsLeft(hour) > FutureForecastHours;
  }

  // ---------------------------------------------------------------------
  // Overnight sell-period ranking
  // ---------------------------------------------------------------------

  /** `(hour + i * 0.5) % 24`, the clock hour at which forecast period i starts. */
  function PeriodHour(hour: int, i: int): real
  {
    Mod24(hour as real + i as real * 0.5)
  }

  /** The drain window runs from peak start to sunrise, wrapping over midnight when sunrise is not after peak start. */
  predicate InDrainWindow(ph: real, sunrise: real)
  {
    if (PeakStart as real) < sunrise then PeakStart as real <= ph < sunrise
    else ph >= PeakStart as real || ph < sunrise
  }

  /** The forecast periods among the first n that start inside the drain window, in forecast order. */
  function DrainWindow(sellFc: seq<real>, hour: int, sunrise: real, n: nat): (w: seq<Period>)
    requires n <= |sellFc|
    ensures |w| <= n
    ensures IncreasingIndices(w)
    ensures forall k :: 0 <= k < |w| ==>
      0 <= w[k].index < n && w[k].hour == PeriodHour(hour, w[k].index) &&
      w[k].price == sellFc[w[k].index] && InDrainWindow(w[k].hour, sunrise)
    ensures forall i {:trigger HasIndex(w, i)} :: 0 <= i < n && InDrainWindow(PeriodHour(hour, i), sunrise) ==> HasIndex(w, i)
  {
    if n == 0 then []
    else
      var w0 := DrainWindow(sellFc, hour, sunrise, n - 1);
      var ph := PeriodHour(hour, n - 1);
      if InDrainWindow(ph, sunrise) then
        var w := w0 + [Period(n - 1, ph, sellFc[n - 1])];
        assert w[|w0|].index == n - 1;
        assert forall i :: 0 <= i < n - 1 && HasIndex(w0, i) ==> HasIndex(w, i) by {
          forall i | 0 <= i < n - 1 && HasIndex(w0, i)
            ensures HasIndex(w, i)
          {
            var j :| 0 <= j < |w0| && w0[j].index == i;
            assert w[j] == w0[j];
          }
        }
        w
      else w0
  }

  /** Mid-point of the morning SOC target band. */
  const MorningTarget: real := (TargetMorningSocMin + TargetMorningSocMax) / 2.0

  function DrainKwh(soc: real, batteryWh: real): (e: real)
    ensures e >= 0.0
  {
    Max(0.0, ((soc - MorningTarget) / 100.0) * (batteryWh / 1000.0))
  }

  /**
   * `overnight_opportunities`: None for an empty forecast or an empty drain
   * window; otherwise the selection of the highest-priced window periods,
   * as many as are needed to drain the battery to the morning target.
   */
  function OvernightOpportunities(sellFc: seq<real>, hour: int, sunrise: real, soc: real, batteryWh: real,
                                  maxDischargeKwh: real): (r: Option<Selection>)
    requires |DrainWindow(sellFc, hour, sunrise, |sellFc|)| > 0 ==> maxDischargeKwh != 0.0
    ensures r.None? <==> forall i :: 0 <= i < |sellFc| ==> !InDrainWindow(PeriodHour(hour, i), sunrise)
    ensures r.Some? ==>
      r.value.periodsNeeded >= 1 &&
      r.value.totalPeriods == |DrainWindow(sellFc, hour, sunrise, |sellFc|)| &&
      |r.value.best| == MinInt(r.value.periodsNeeded, r.value.totalPeriods) &&
      |r.value.best| > 0 &&
      r.value.worstAcceptablePrice == r.value.best[|r.value.best| - 1].price
    ensures r.Some? ==> forall b :: b in r.value.best ==>
      0 <= b.index < |sellFc| && b.price == sellFc[b.index] && b.price >= r.value.worstAcceptablePrice &&
      InDrainWindow(b.hour, sunrise)
  {
    if |sellFc| == 0 then None
    else
      var w := DrainWindow(sellFc, hour, sunrise, |sellFc|);
      if |w| == 0 then
        assert forall i :: 0 <= i < |sellFc| && InDrainWindow(PeriodHour(hour, i), sunrise) ==> HasIndex(w, i);
        None
      else
        var o := SelectTop(w, PeriodsFor(DrainKwh(soc, batteryWh) / maxDischargeKwh), true);
        DrainSelectionFacts(sellFc, hour, sunrise, o);
        Some(o)
  }

  lemma DrainSelectionFacts(sellFc: seq<real>, hour: int, sunrise: real, o: Selection)
    requires |DrainWindow(sellFc, hour, sunrise, |sellFc|)| > 0
    requires o.periodsNeeded >= 1 && o == SelectTop(DrainWindow(sellFc, hour, sunrise, |sellFc|), o.periodsNeeded, true)
    ensures exists i :: 0 <= i < |sellFc| && InDrainWindow(PeriodHour(hour, i), sunrise)
    ensures forall b :: b in o.best ==>
      0 <= b.index < |sellFc| && b.price == sellFc[b.index] && b.price >= o.worstAcceptablePrice &&
      InDrainWindow(b.hour, sunrise)
  {
    var w := DrainWindow(sellFc, hour, sunrise, |sellFc|);
    assert InDrainWindow(PeriodHour(hour, w[0].index), sunrise);
    forall b | b in o.best
      ensures 0 <= b.index < |sellFc| && b.price == sellFc[b.index] && b.price >= o.worstAcceptablePrice
      ensures InDrainWindow(b.hour, sunrise)
    {
      assert b in w;
      var k :| 0 <= k < |w| && w[k] == b;
      var j :| 0 <= j < |o.best| && o.best[j] == b;
      assert Precedes(o.best[j], o.best[|o.best| - 1], true);
    }
  }

  /** Every selected period sells at least as high as every drain-window period left out. */
  lemma OvernightBestDominates(sellFc: seq<real>, hour: int, sunrise: real, soc: real, batteryWh: real,
                               maxDischargeKwh: real, e: Period, b: Period)
    requires |DrainWindow(sellFc, hour, sunrise, |sellFc|)| > 0 ==> maxDischargeKwh != 0.0
    requires OvernightOpportunities(sellFc, hour, sunrise, soc, batteryWh, maxDischargeKwh).Some?
    requires e in DrainWindow(sellFc, hour, sunrise, |sellFc|)
    requires e !in OvernightOpportunities(sellFc, hour, sunrise, soc, batteryWh, maxDischargeKwh).value.best
    requires b in OvernightOpportunities(sellFc, hour, sunrise, soc, batteryWh, maxDischargeKwh).value.best
    ensures b.price >= e.price
  {
    var w := DrainWindow(sellFc, hour, sunrise, |sellFc|);
    SelectTopDominates(w, PeriodsFor(DrainKwh(soc, batteryWh) / maxDischargeKwh), true, e, b);
  }

  /**
   * The current period (index 0) is selected exactly when it starts inside
   * the drain window and fewer window periods than needed sell strictly
   * higher; its 1-based rank is one more than that count, and it has no
   * rank outside the window.
   */
  lemma OvernightCurrentRank(sellFc: seq<real>, hour: int, sunrise: real, soc: real, batteryWh: real,
                             maxDischargeKwh: real)
    requires |DrainWindow(sellFc, hour, sunrise, |sellFc|)| > 0 ==> maxDischargeKwh != 0.0
    requires OvernightOpportunities(sellFc, hour, sunrise, soc, batteryWh, maxDischargeKwh).Some?
    ensures |sellFc| > 0
    ensures CurrentStanding(OvernightOpportunities(sellFc, hour, sunrise, soc, batteryWh, maxDischargeKwh).value,
                            DrainWindow(sellFc, hour, sunrise, |sellFc|), sellFc[0], true,
                            InDrainWindow(PeriodHour(hour, 0), sunrise))
  {
    var w := DrainWindow(sellFc, hour, sunrise, |sellFc|);
    var needed := PeriodsFor(DrainKwh(soc, batteryWh) / maxDischargeKwh);
    OpportunitiesAreTopOfWindow(sellFc, hour, sunrise, soc, batteryWh, maxDischargeKwh);
    DrainWindowHasIndex(sellFc, hour, sunrise, 0);
    SelectTopCurrent(w, needed, true, InDrainWindow(PeriodHour(hour, 0), sunrise), sellFc[0]);
  }

  /** A forecast period is in the drain window exactly when its start hour is. */
  lemma DrainWindowHasIndex(sellFc: seq<real>, hour: int, sunrise: real, i: int)
    requires 0 <= i < |sellFc|
    ensures HasIndex(DrainWindow(sellFc, hour, sunrise, |sellFc|), i) <==> InDrainWindow(PeriodHour(hour, i), sunrise)
  {
    var w := DrainWindow(sellFc, hour, sunrise, |sellFc|);
    if HasIndex(w, i) {
      var j :| 0 <= j < |w| && w[j].index == i;
    }
  }

  /** What `overnight_opportunities` returns is the top of the drain window. */
  lemma OpportunitiesAreTopOfWindow(sellFc: seq<real>, hour: int, sunrise: real, soc: real, batteryWh: real,
                                    maxDischargeKwh: real)
    requires |DrainWindow(sellFc, hour, sunrise, |sellFc|)| > 0 ==> maxDischargeKwh != 0.0
    requires OvernightOpportunities(sellFc, hour, sunrise, soc, batteryWh, maxDischargeKwh).Some?
    ensures |sellFc| > 0
    ensures OvernightOpportunities(sellFc, hour, sunrise, soc, batteryWh, maxDischargeKwh).value ==
              SelectTop(DrainWindow(sellFc, hour, sunrise, |sellFc|), PeriodsFor(DrainKwh(soc, batteryWh) / maxDischargeKwh), true)
  {
  }

  // ---------------------------------------------------------------------
  // Next cheapest period before a deadline
  // ---------------------------------------------------------------------

  /** `next_best`'s answer: the clock hour, price and distance in periods of the chosen period. */
  datatype NextSlot = NextSlot(hour: real, price: real, periodsAway: int)

  /** Forecast period i starts before the end hour. */
  predicate StartsBefore(hour: int, i: int, end: int)
  {
    hour as real + i as real * 0.5 < end as real
  }

  /** Future periods 1 ≤ i < n that start before the end hour, in forecast order. */
  function AheadWindow(forecast: seq<real>, hour: int, end: int, n: nat): (w: seq<Period>)
    requires n <= |forecast|
    ensures IncreasingIndices(w)
    ensures forall k :: 0 <= k < |w| ==>
      1 <= w[k].index < n && w[k].hour == hour as real + w[k].index as real * 0.5 &&
      StartsBefore(hour, w[k].index, end) && w[k].price == forecast[w[k].index]
    ensures forall i {:trigger HasIndex(w, i)} :: 1 <= i < n && StartsBefore(hour, i, end) ==> HasIndex(w, i)
  {
    if n <= 1 then []
    else
      var w0 := AheadWindow(forecast, hour, end, n - 1);
      if StartsBefore(hour, n - 1, end) then
        var w := w0 + [Period(n - 1, hour as real + (n - 1) as real * 0.5, forecast[n - 1])];
        assert w[|w0|].index == n - 1;
        assert forall i :: 1 <= i < n - 1 && HasIndex(w0, i) ==> HasIndex(w, i) by {
          forall i | 1 <= i < n - 1 && HasIndex(w0, i)
            ensures HasIndex(w, i)
          {
            var j :| 0 <= j < |w0| && w0[j].index == i;
            assert w[j] == w0[j];
          }
        }
        w
      else w0
  }

  /** The head of the ascending sort of the future periods is the earliest cheapest one. */
  lemma AheadLeader(forecast: seq<real>, hour: int, end: int)
    requires |AheadWindow(forecast, hour, end, |forecast|)| > 0
    ensures var first := Sort(AheadWindow(forecast, hour, end, |forecast|), false)[0];
      1 <= first.index < |forecast| && StartsBefore(hour, first.index, end) &&
      first.hour == hour as real + first.index as real * 0.5 && first.price == forecast[first.index] &&
      (forall i :: 1 <= i < |forecast| && StartsBefore(hour, i, end) ==> first.price <= forecast[i]) &&
      (forall i :: 1 <= i < first.index && StartsBefore(hour, i, end) ==> first.price < forecast[i])
  {
    var w := AheadWindow(forecast, hour, end, |forecast|);
    LeaderOfAscendingSort(w);
    var first := Sort(w, false)[0];
    var k :| 0 <= k < |w| && w[k] == first;
    forall i | 1 <= i < |forecast| && StartsBefore(hour, i, end)
      ensures first.price <= forecast[i]
      ensures i < first.index ==> first.price < forecast[i]
    {
      assert HasIndex(w, i);
      var j :| 0 <= j < |w| && w[j].index == i;
      assert w[j] in w;
    }
  }

  /**
   * `next_best`: among the future periods (index 1 on) that start before
   * `end`, the cheapest, the earliest among equally cheap ones; None when
   * there is no such period.
   */
  function NextBest(forecast: seq<real>, hour: int, end: int): (r: Option<NextSlot>)
    ensures r.None? <==> forall i :: 1 <= i < |forecast| ==> !StartsBefore(hour, i, end)
    ensures r.Some? ==>
      var k := r.value.periodsAway;
      1 <= k < |forecast| && StartsBefore(hour, k, end) &&
      r.value.hour == hour as real + k as real * 0.5 && r.value.price == forecast[k] &&
      (forall i :: 1 <= i < |forecast| && StartsBefore(hour, i, end) ==> forecast[k] <= forecast[i]) &&
      (forall i :: 1 <= i < k && StartsBefore(hour, i, end) ==> forecast[k] < forecast[i])
  {
    if |forecast| == 0 then None
    else
      var w := AheadWindow(forecast, hour, end, |forecast|);
      if |w| == 0 then
        assert forall i :: 1 <= i < |forecast| && StartsBefore(hour, i, end) ==> HasIndex(w, i);
        None
      else
        AheadLeader(forecast, hour, end);
        var first := Sort(w, false)[0];
        Some(NextSlot(first.hour, first.price, first.index))
  }

  // ---------------------------------------------------------------------
  // Dynamic sell threshold
  // ---------------------------------------------------------------------

  /**
   * The sell price the remaining energy above the floor can afford to wait
   * for: the n-th highest positive discounted sell, n being the periods
   * needed to export that energy, or the lowest one when n exceeds them.
   */
  function SellRankThreshold(sellDisc: seq<real>, availSoc: real, batteryWh: real, maxDischargeKwh: real): (t: real)
    requires |Positives(sellDisc)| > 0
    requires maxDischargeKwh != 0.0
    ensures t in Positives(sellDisc)
    ensures CountAbove(Positives(sellDisc), t) < PeriodsFor(availSoc / 100.0 * (batteryWh / 1000.0) / maxDischargeKwh)
    ensures forall v :: (v in Positives(sellDisc) &&
      CountAbove(Positives(sellDisc), v) < PeriodsFor(availSoc / 100.0 * (batteryWh / 1000.0) / maxDischargeKwh)) ==> t <= v
  {
    NthHighest(Positives(sellDisc), PeriodsFor(availSoc / 100.0 * (batteryWh / 1000.0) / maxDischargeKwh))
  }

  /** `min(b for b in buy if b > 0)`, or 0 when there is none. */
  function MinPositiveOrZero(buyDisc: seq<real>): (m: real)
    ensures |Positives(buyDisc)| == 0 ==> m == 0.0
    ensures |Positives(buyDisc)| > 0 ==> m in buyDisc && m > 0.0 && forall b :: b in buyDisc && b > 0.0 ==> m <= b
  {
    var valid := Positives(buyDisc);
    if |valid| > 0 then
      var m := MinOf(valid);
      assert forall b :: b in buyDisc && b > 0.0 ==> b in valid;
      assert forall b :: b in valid ==> exists i :: 0 <= i < |valid| && valid[i] == b;
      m
    else 0.0
  }

  /**
   * The dynamic sell threshold (script lines 859-876): "never sell" unless
   * some discounted sell is positive and there is SOC above the export
   * floor; then the highest of the minimum sell price, the rank threshold
   * and the cheapest positive discounted buy plus the margin.
   */
  function DynamicThreshold(sellDisc: seq<real>, buyDisc: seq<real>, availSoc: real, batteryWh: real,
                            maxDischargeKwh: real): (thr: real)
    requires |Positives(sellDisc)| > 0 && availSoc > 0.0 ==> maxDischargeKwh != 0.0
    ensures thr == NeverSell <== |Positives(sellDisc)| == 0 || availSoc <= 0.0
    ensures |Positives(sellDisc)| > 0 && availSoc > 0.0 ==>
      var ts := SellRankThreshold(sellDisc, availSoc, batteryWh, maxDischargeKwh);
      thr >= BaseMinSellPrice && thr >= ts && thr >= MinPositiveOrZero(buyDisc) + DesiredMargin &&
      (thr == BaseMinSellPrice || thr == ts || thr == MinPositiveOrZero(buyDisc) + DesiredMargin)
  {
    if |sellDisc| == 0 then NeverSell
    else
      var pos := Positives(sellDisc);
      if |pos| > 0 && availSoc > 0.0 then
        var ts := SellRankThreshold(sellDisc, availSoc, batteryWh, maxDischargeKwh);
        Max(Max(BaseMinSellPrice, ts), MinPositiveOrZero(buyDisc) + DesiredMargin)
      else NeverSell
  }

  // ---------------------------------------------------------------------
  // Weather value extraction
  // ---------------------------------------------------------------------

  /**
   * `scalar_sanitise`: the value itself when `float()` accepts it, else its
   * "value" entry when that is accepted, else 0.0. It never raises.
   */
  function ScalarSanitise(x: Value): (r: real)
    ensures AsNumber(x).Some? ==> r == AsNumber(x).value
    ensures x.VDict? && KStr("value") in x.entries && AsNumber(x.entries[KStr("value")]).Some? ==>
              r == AsNumber(x.entries[KStr("value")]).value
    ensures AsNumber(x).None? && !(x.VDict? && KStr("value") in x.entries && AsNumber(x.entries[KStr("value")]).Some?) ==>
              r == 0.0
  {
    match AsNumber(x)
    case Some(v) => v
    case None =>
      match x
      case VDict(d) =>
        (match AsNumber(DictGet(d, KStr("value"), VNone))
         case Some(v) => v
         case None => 0.0)
      case _ => 0.0
  }
}
