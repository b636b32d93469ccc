/**
 * The forecast-rule script (`script.py`): a reserve SOC is derived from the
 * time until the cheapest buy, the 8-hour buy and sell forecasts are
 * validated and discounted, and an if/elif ladder picks the action and the
 * solar mode; two statements after the ladder can still force an import
 * and cap feed-in.
 */
module ForecastRules {
  import opened Common

  const MaxBuyPrice: real := 10.0
  const MaxAmBuyPrice: real := 20.0
  const MinSellPrice: real := 25.0
  const MinDaySellPrice: real := 15.0
  const AlwaysSellPrice: real := 75.0
  const MinSellSoc: real := 10.0
  const MaxDayOpportunisticBuyPrice: real := 5.0
  /** Minimum house power (W) per clock hour, used when the reported load is lower. */
  const MinHousePower: seq<real> := [
    1500.0, 1500.0, 1500.0, 1500.0, 1500.0, 2000.0, 2000.0, 2500.0, 3000.0, 3500.0, 4000.0, 4500.0,
    5000.0, 5500.0, 5000.0, 4500.0, 4000.0, 3500.0, 3000.0, 2500.0, 2000.0, 1500.0, 1500.0, 1500.0]
  const UncertaintyRate: real := 0.10
  const FutureForecastHours: nat := 8
  const NumInverters: real := 2.0
  const SolarActiveHours: real := 2.0
  const MaxChargeRateKw: real := 10.0
  const FullChargeDiscount: real := 0.8
  const FullBattery: real := 99.0
  const PeakTime: int := 16
  const PeakTimeEnd: int := 20
  const ReasonLimit: nat := 256
  /** `hours_until_lowest_buy` without a buy forecast. */
  const NoForecastHours: int := 99
  const InvalidBuySentinel: real := 100000.0
  const InvalidSellSentinel: real := 1.0
  const PanicSuffix: string := " panic buy SOC < 50"
  const FeedInSuffix: string := " setting feed in to 0"

  // ---------------------------------------------------------------------
  // Derived quantities
  // ---------------------------------------------------------------------

  /** `update_reason`'s trimming: the first 256 characters of the formatted text. */
  function UpdateReason(text: string): (r: string)
    ensures |r| <= ReasonLimit
    ensures r <= text
    ensures |text| <= ReasonLimit ==> r == text
    ensures |text| > ReasonLimit ==> |r| == ReasonLimit
  {
    if |text| <= ReasonLimit then text else text[..ReasonLimit]
  }

  /** Trimming twice is trimming once. */
  lemma UpdateReasonIdempotent(text: string)
    ensures UpdateReason(UpdateReason(text)) == UpdateReason(text)
  {
  }

  /**
   * The reserve factor ramps from 1 down to 0 over the solar-active hours
   * before solar output starts, and is 1 outside that window.
   */
  function ReserveFactor(hoursUntilSunrisePlusActive: real): (f: real)
    ensures 0.0 <= f <= 1.0
    ensures !(0.0 <= hoursUntilSunrisePlusActive <= SolarActiveHours) ==> f == 1.0
    ensures f == 0.0 <==> hoursUntilSunrisePlusActive == SolarActiveHours
  {
    var h := hoursUntilSunrisePlusActive;
    if 0.0 <= h <= SolarActiveHours then Max(0.0, 1.0 - h / SolarActiveHours) else 1.0
  }

  /** Inside the ramp, the factor falls as solar output approaches. */
  lemma ReserveFactorRamps(h1: real, h2: real)
    requires 0.0 <= h1 < h2 <= SolarActiveHours
    ensures ReserveFactor(h2) < ReserveFactor(h1)
  {
  }

  /** Index of the first occurrence of the cheapest forecast buy price, or 99 without a forecast. */
  function HoursUntilLowestBuy(buyForecast: seq<real>): (k: int)
    ensures |buyForecast| == 0 ==> k == NoForecastHours
    ensures |buyForecast| > 0 ==>
      0 <= k < |buyForecast| &&
      (forall j :: 0 <= j < |buyForecast| ==> buyForecast[k] <= buyForecast[j]) &&
      (forall j :: 0 <= j < k ==> buyForecast[j] > buyForecast[k])
  {
    if |buyForecast| == 0 then NoForecastHours else IndexOfMin(buyForecast)
  }

  /** The house load per inverter, never below the hour's minimum. */
  function EffectiveHousePower(housePower: real, hour: int): (p: real)
    requires 0 <= hour < 24
    ensures p >= housePower / NumInverters && p >= MinHousePower[hour] / NumInverters
    ensures p == housePower / NumInverters || p == MinHousePower[hour] / NumInverters
  {
    Max(housePower / NumInverters, MinHousePower[hour] / NumInverters)
  }

  /** SOC percentage needed to run the house until the cheapest buy, scaled by the reserve factor. */
  function RequiredMinSoc(factor: real, effectiveHousePower: real, hoursUntilLowestBuy: int, batteryCapacity: real): real
    requires batteryCapacity != 0.0
  {
    factor * ((effectiveHousePower * hoursUntilLowestBuy as real) / batteryCapacity) * 100.0
  }

  /** Hours needed to fill the battery at the discounted 10 kW charge rate. */
  function TimeToFullCharge(soc: real, batteryCapacity: real): real
  {
    ((100.0 - soc) / 100.0 * (batteryCapacity / 1000.0)) / (MaxChargeRateKw * FullChargeDiscount)
  }

  /**
   * The hour charging must start to be full by peak: `int(peak - t) - 1`,
   * `int` truncating toward zero.
   */
  function StartChargingTime(soc: real, batteryCapacity: real): (h: int)
    ensures var t := TimeToFullCharge(soc, batteryCapacity);
      PeakTime as real - t >= 0.0 ==> (PeakTime - h) as real >= t + 1.0 && (PeakTime - h) as real < t + 2.0
  {
    PyInt(PeakTime as real - TimeToFullCharge(soc, batteryCapacity)) - 1
  }

  /** A fuller battery (on a positive capacity) never needs an earlier start. */
  lemma StartChargingTimeMonotone(soc1: real, soc2: real, batteryCapacity: real)
    requires soc1 <= soc2 && batteryCapacity > 0.0
    requires PeakTime as real - TimeToFullCharge(soc1, batteryCapacity) >= 0.0
    ensures StartChargingTime(soc1, batteryCapacity) <= StartChargingTime(soc2, batteryCapacity)
  {
    var kwh := batteryCapacity / 1000.0;
    var rate := MaxChargeRateKw * FullChargeDiscount;
    var e1 := (100.0 - soc1) / 100.0 * kwh;
    var e2 := (100.0 - soc2) / 100.0 * kwh;
    assert e2 <= e1 by {
      MulMonotone(kwh, (100.0 - soc2) / 100.0, (100.0 - soc1) / 100.0);
    }
    DivMonotone(e2, e1, rate);
  }

  // ---------------------------------------------------------------------
  // Forecast validation and discount
  // ---------------------------------------------------------------------

  /** A usable forecast: a non-empty list of strictly positive prices. */
  predicate UsableForecast(f: seq<real>)
  {
    |f| > 0 && forall i :: 0 <= i < |f| ==> f[i] > 0.0
  }

  datatype Forecasts = Forecasts(buy: seq<real>, sell: seq<real>)

  /**
   * With both forecasts usable, the first eight entries with buys grown by
   * 1.1^i and sells shrunk by 0.9^i; otherwise eight 100000c buys and eight
   * 1c sells, so no trade ever looks attractive.
   */
  function DiscountForecasts(buy: seq<real>, sell: seq<real>): (r: Forecasts)
    ensures |r.buy| > 0 && |r.sell| > 0
    ensures UsableForecast(buy) && UsableForecast(sell) ==>
      |r.buy| == MinInt(FutureForecastHours, |buy|) && |r.sell| == MinInt(FutureForecastHours, |sell|) &&
      ScaledPrefix(r.buy, buy, 1.0 + UncertaintyRate) && ScaledPrefix(r.sell, sell, 1.0 - UncertaintyRate)
    ensures !(UsableForecast(buy) && UsableForecast(sell)) ==>
      |r.buy| == FutureForecastHours && |r.sell| == FutureForecastHours &&
      (forall i :: 0 <= i < |r.buy| ==> r.buy[i] == InvalidBuySentinel) &&
      (forall i :: 0 <= i < |r.sell| ==> r.sell[i] == InvalidSellSentinel)
  {
    if UsableForecast(buy) && UsableForecast(sell) then
      Forecasts(DiscountFirst(buy, FutureForecastHours, 1.0 + UncertaintyRate),
                DiscountFirst(sell, FutureForecastHours, 1.0 - UncertaintyRate))
    else
      Forecasts(seq(FutureForecastHours, _ => InvalidBuySentinel), seq(FutureForecastHours, _ => InvalidSellSentinel))
  }

  /** Discounting keeps usable prices positive, never lowers a buy and never raises a sell. */
  lemma DiscountDirection(buy: seq<real>, sell: seq<real>, i: nat)
    requires UsableForecast(buy) && UsableForecast(sell)
    ensures i < |DiscountForecasts(buy, sell).buy| ==> DiscountForecasts(buy, sell).buy[i] >= buy[i]
    ensures i < |DiscountForecasts(buy, sell).sell| ==>
      0.0 < DiscountForecasts(buy, sell).sell[i] <= sell[i]
  {
    var r := DiscountForecasts(buy, sell);
    if i < |r.buy| {
      PowAtLeastOne(1.0 + UncertaintyRate, i);
      MulMonotone(buy[i], 1.0, Pow(1.0 + UncertaintyRate, i));
    }
    if i < |r.sell| {
      PowAtMostOne(1.0 - UncertaintyRate, i);
      PowPositive(1.0 - UncertaintyRate, i);
      MulMonotone(sell[i], Pow(1.0 - UncertaintyRate, i), 1.0);
      MulPositive(sell[i], Pow(1.0 - UncertaintyRate, i));
    }
  }

  /** A buy earlier than a sell in the forecast that is cheaper than that sell. */
  predicate BuyLowSellHigh(buy: seq<real>, sell: seq<real>)
  {
    exists i, j :: 0 <= i < |buy| && i < j < |sell| && buy[i] < sell[j]
  }

  /** The script's nested search with early exits, which finds such a pair exactly when one exists. */
  method SearchOpportunity(buy: seq<real>, sell: seq<real>) returns (found: bool)
    ensures found <==> BuyLowSellHigh(buy, sell)
  {
    found := false;
    var i := 0;
    while i < |buy| && !found
      invariant 0 <= i <= |buy|
      invariant found ==> BuyLowSellHigh(buy, sell)
      invariant !found ==> forall a, b :: 0 <= a < i && a < b < |sell| ==> buy[a] >= sell[b]
      decreases |buy| - i, if found then 0 else 1
    {
      var j := i + 1;
      while j < |sell| && !found
        invariant i + 1 <= j
        invariant found ==> BuyLowSellHigh(buy, sell)
        invariant !found ==> forall b :: i < b < j && b < |sell| ==> buy[i] >= sell[b]
        decreases |sell| - j, if found then 0 else 1
      {
        if buy[i] < sell[j] {
          found := true;
        } else {
          j := j + 1;
        }
      }
      if !found {
        i := i + 1;
      }
    }
  }

  // ---------------------------------------------------------------------
  // The decision ladder
  // ---------------------------------------------------------------------

  /**
   * The host's inputs; `hoursUntilSunrisePlusActive` and `beforeSunrise`
   * are the results of the script's datetime arithmetic.
   */
  datatype Input = Input(
    hour: int,
    batterySoc: real,
    batteryCapacity: real,
    buyPrice: real,
    sellPrice: real,
    rrp: real,
    housePower: real,
    solarPower: real,
    buyForecast: seq<real>,
    sellForecast: seq<real>,
    hoursUntilSunrisePlusActive: real,
    beforeSunrise: bool)

  /** A clock hour, and the non-zero capacity the reserve is divided by. */
  predicate Valid(inp: Input)
  {
    0 <= inp.hour < 24 && inp.batteryCapacity != 0.0
  }

  datatype Context = Context(
    startChargingTime: int,
    requiredMinSoc: real,
    daytime: bool,
    forecasts: Forecasts,
    opportunity: bool)

  function Prepare(inp: Input): (ctx: Context)
    requires Valid(inp)
    ensures |ctx.forecasts.buy| > 0 && |ctx.forecasts.sell| > 0
    ensures ctx.daytime <==> inp.solarPower > 0.0 && inp.hour < PeakTime
    ensures ctx.opportunity <==> BuyLowSellHigh(ctx.forecasts.buy, ctx.forecasts.sell)
  {
    var factor := ReserveFactor(inp.hoursUntilSunrisePlusActive);
    var eff := EffectiveHousePower(inp.housePower, inp.hour);
    var rms := RequiredMinSoc(factor, eff, HoursUntilLowestBuy(inp.buyForecast), inp.batteryCapacity);
    var fc := DiscountForecasts(inp.buyForecast, inp.sellForecast);
    Context(StartChargingTime(inp.batterySoc, inp.batteryCapacity), rms,
            inp.solarPower > 0.0 && inp.hour < PeakTime, fc, BuyLowSellHigh(fc.buy, fc.sell))
  }

  /** Which branch of the ladder decided (the script's `code`). */
  datatype Rule =
    | DayDefault | NightDefault
    | ChargeForPeak | AlwaysSell | NegFitImport | NegFitAuto | NegFitNegSell
    | DaytimeHighSoc | DaytimeLowSoc
    | SellNow | CouldSellLowSoc | BuyNowMinSoc | BuyLowSellHighNow | BuyLowBattery

  datatype Step = Step(action: Action, solar: SolarMode, rule: Rule)

  predicate InPeakWindow(hour: int) { PeakTime <= hour < PeakTimeEnd }

  predicate ChargeCondition(inp: Input, ctx: Context)
  {
    inp.batterySoc < FullBattery &&
    (ctx.startChargingTime <= inp.hour < PeakTime || inp.buyPrice <= MaxDayOpportunisticBuyPrice)
  }

  predicate SellsAtForecastMax(inp: Input, ctx: Context)
    requires |ctx.forecasts.sell| > 0
  {
    inp.sellPrice >= MaxOf(ctx.forecasts.sell) && inp.sellPrice >= MinSellPrice
  }

  /** The forecast branch (code E), reached at night or from peak on. */
  function ForecastBranch(inp: Input, ctx: Context, fallback: Step): (s: Step)
    requires |ctx.forecasts.buy| > 0 && |ctx.forecasts.sell| > 0
    ensures s.solar == SolarExport || s.solar == fallback.solar
    ensures s.action == Export ==> SellsAtForecastMax(inp, ctx) || fallback.action == Export
  {
    if inp.buyPrice < MaxBuyPrice && inp.batterySoc > ctx.requiredMinSoc && SellsAtForecastMax(inp, ctx) then
      Step(Export, SolarExport, SellNow)
    else if SellsAtForecastMax(inp, ctx) then
      Step(fallback.action, fallback.solar, CouldSellLowSoc)
    else if !ctx.daytime && inp.buyPrice == MinOf(ctx.forecasts.buy) && inp.batterySoc < ctx.requiredMinSoc &&
            !InPeakWindow(inp.hour) then
      Step(Import, SolarExport, BuyNowMinSoc)
    else if ctx.opportunity && !InPeakWindow(inp.hour) then
      Step(Import, SolarExport, BuyLowSellHighNow)
    else if inp.batterySoc < MinSellSoc && inp.beforeSunrise && inp.buyPrice < MaxAmBuyPrice then
      Step(Import, SolarExport, BuyLowBattery)
    else fallback
  }

  /** The if/elif ladder after the day/night default. */
  function Ladder(inp: Input, ctx: Context): (s: Step)
    requires |ctx.forecasts.buy| > 0 && |ctx.forecasts.sell| > 0
  {
    var default := if ctx.daytime then Step(Auto, SolarExport, DayDefault) else Step(Auto, SolarExport, NightDefault);
    if ChargeCondition(inp, ctx) then Step(Import, SolarExport, ChargeForPeak)
    else if inp.sellPrice >= AlwaysSellPrice && inp.batterySoc > MinSellSoc then Step(Export, SolarExport, AlwaysSell)
    else if inp.buyPrice <= 0.0 && inp.batterySoc < FullBattery then Step(Import, Curtail, NegFitImport)
    else if inp.sellPrice < 0.0 && inp.buyPrice < -inp.sellPrice && inp.batterySoc > FullBattery then
      Step(Auto, Curtail, NegFitAuto)
    else if inp.sellPrice < 0.0 && inp.batterySoc > FullBattery then Step(Auto, Curtail, NegFitNegSell)
    else if ctx.daytime then
      if inp.sellPrice >= MinDaySellPrice && inp.batterySoc >= ctx.requiredMinSoc then
        Step(Export, SolarExport, DaytimeHighSoc)
      else Step(Auto, SolarExport, DaytimeLowSoc)
    else ForecastBranch(inp, ctx, default)
  }

  /** The panic-buy override after the ladder. */
  predicate PanicBuy(inp: Input, ladderAction: Action)
  {
    14 < inp.hour < 16 && inp.batterySoc < 60.0 && ladderAction != Import && inp.buyPrice < 30.0
  }

  datatype Output = Output(action: Action, solar: SolarMode, feedInPowerLimitation: Option<real>, reason: string)

  /**
   * One evaluation. `format` stands for the formatted reason text of the
   * rule that decided; its content is not modelled, only its trimming and
   * the suffixes appended after the ladder.
   */
  function Run(inp: Input, format: Rule -> string): (out: Output)
    requires Valid(inp)
    ensures out.action == Auto || out.action == Import || out.action == Export
    ensures out.solar == SolarExport || out.solar == Curtail
  {
    var ctx := Prepare(inp);
    var step := Ladder(inp, ctx);
    var panic := PanicBuy(inp, step.action);
    var action := if panic then Import else step.action;
    var reason := UpdateReason(format(step.rule)) + (if panic then PanicSuffix else "") +
                  (if inp.rrp < 0.0 then FeedInSuffix else "");
    Output(action, step.solar, if inp.rrp < 0.0 then Some(0.0) else None, reason)
  }

  // ---------------------------------------------------------------------
  // Properties
  // ---------------------------------------------------------------------

  /** Charging for peak (or at an opportunistic price) below a full battery always ends in an import. */
  lemma ChargeForPeakImports(inp: Input, format: Rule -> string)
    requires Valid(inp)
    requires ChargeCondition(inp, Prepare(inp))
    ensures Run(inp, format).action == Import
    ensures Ladder(inp, Prepare(inp)).rule == ChargeForPeak
  {
  }

  /**
   * The negative-price import branch is dead: a buy price at or below 0c is
   * also at or below the 5c opportunistic price, so the charging branch
   * above it has already taken every case it would.
   */
  lemma NegFitImportUnreachable(inp: Input)
    requires Valid(inp)
    ensures Ladder(inp, Prepare(inp)).rule != NegFitImport
  {
  }

  /** Only the always-sell branch exports from a sell price of 75c; it is reached when no charge is due. */
  lemma AlwaysSellExports(inp: Input, format: Rule -> string)
    requires Valid(inp)
    requires !ChargeCondition(inp, Prepare(inp))
    requires inp.sellPrice >= AlwaysSellPrice && inp.batterySoc > MinSellSoc
    requires !PanicBuy(inp, Export)
    ensures Run(inp, format).action == Export
  {
  }

  /** Between 15:00 and 15:59 with SOC below 60 % and a buy price below 30c the result is an import. */
  lemma PanicBuyImports(inp: Input, format: Rule -> string)
    requires Valid(inp)
    requires 14 < inp.hour < 16 && inp.batterySoc < 60.0 && inp.buyPrice < 30.0
    ensures Run(inp, format).action == Import
  {
  }

  /** The statements after the ladder only ever turn the action into an import. */
  lemma OverrideOnlyImports(inp: Input, format: Rule -> string)
    requires Valid(inp)
    ensures Run(inp, format).action == Ladder(inp, Prepare(inp)).action || Run(inp, format).action == Import
    ensures Run(inp, format).solar == Ladder(inp, Prepare(inp)).solar
  {
  }

  /** A negative spot price caps feed-in at 0 whatever the action; otherwise the limit is not assigned. */
  lemma NegativeRrpCapsFeedIn(inp: Input, format: Rule -> string)
    requires Valid(inp)
    ensures inp.rrp < 0.0 <==> Run(inp, format).feedInPowerLimitation == Some(0.0)
    ensures inp.rrp >= 0.0 ==> Run(inp, format).feedInPowerLimitation.None?
  {
  }

  /** Exports need a sell price of at least the 15c daytime minimum. */
  lemma ExportNeedsPrice(inp: Input, format: Rule -> string)
    requires Valid(inp)
    requires Run(inp, format).action == Export
    ensures inp.sellPrice >= MinDaySellPrice
  {
    var ctx := Prepare(inp);
    assert Ladder(inp, ctx).action == Export;
    if !ChargeCondition(inp, ctx) && !(inp.sellPrice >= AlwaysSellPrice && inp.batterySoc > MinSellSoc) && !ctx.daytime {
      assert MaxOf(ctx.forecasts.sell) in ctx.forecasts.sell;
    }
  }

  /** Solar is curtailed only for a negative sell price with a battery above 99 %. */
  lemma CurtailOnlyWhenFull(inp: Input, format: Rule -> string)
    requires Valid(inp)
    requires Run(inp, format).solar == Curtail
    ensures inp.sellPrice < 0.0 && inp.batterySoc > FullBattery
  {
    NegFitImportUnreachable(inp);
  }

  /**
   * From 16:00 to 19:59 an import happens only at an opportunistic price
   * (at most 5c) or, with the battery below 10 % before sunrise, below 20c.
   */
  lemma PeakImportOnlyWhenCheap(inp: Input, format: Rule -> string)
    requires Valid(inp)
    requires InPeakWindow(inp.hour)
    requires Run(inp, format).action == Import
    ensures inp.buyPrice <= MaxDayOpportunisticBuyPrice ||
            (inp.batterySoc < MinSellSoc && inp.beforeSunrise && inp.buyPrice < MaxAmBuyPrice)
  {
  }

  /**
   * The reason is trimmed before the suffixes are appended, so it starts
   * with the trimmed text and can exceed 256 characters by their length.
   */
  lemma ReasonLength(inp: Input, format: Rule -> string)
    requires Valid(inp)
    ensures var r := Run(inp, format).reason;
      UpdateReason(format(Ladder(inp, Prepare(inp)).rule)) <= r &&
      |r| <= ReasonLimit + |PanicSuffix| + |FeedInSuffix|
  {
  }
}
