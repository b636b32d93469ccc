/**
 * vic_script.py: a fixed time-of-day schedule for a Victorian tariff.
 * Five hour bands each pick export, import or auto from the current
 * prices and state of charge; afterwards a run of "use it or lose it"
 * overrides can only switch the result to export.
 *
 * The script assigns `action` only inside a band, so the model returns
 * `Option<Action>`: None means the script left the host's action alone.
 * The `reason` text is not modelled.
 */
module VicRules {
  import opened Common
  import Regional

  const DesiredSoc: real := 20.0
  const SellThreshold: real := 85.0
  const MorningSellThreshold: real := 20.0
  const MiddaySellThreshold: real := 1000.0
  const MorningBuyPrice: real := 2.0
  const LowBatterySoc: real := 10.0
  const MorningLowSellPrice: real := 15.0
  const MorningBatterySoc: real := 20.0
  const MorningSellPrice: real := 20.0
  const HighBatterySoc: real := 80.0
  const HighMinSellPrice: real := 25.0
  const TakeTheMoneyRrp: real := 800.0

  datatype Input = Input(
    hour: int,            // interval_time.hour
    buyPrice: real,
    sellPrice: real,
    batterySoc: real,
    rrp: real,
    sellForecast: seq<real>)

  /** Midnight to 6am. */
  function NightBand(inp: Input): Action
  {
    if inp.sellPrice > SellThreshold then Export
    else if inp.buyPrice < 5.0 && inp.batterySoc >= DesiredSoc then Import
    else Auto
  }

  /** 6am to 1pm. */
  function MorningBand(inp: Input): Action
  {
    if inp.sellPrice > MorningSellThreshold then Export
    else if inp.buyPrice < MorningBuyPrice then Import
    else Auto
  }

  /** 1pm to 3pm. */
  function MiddayBand(inp: Input): Action
  {
    if inp.sellPrice > MiddaySellThreshold then Export
    else if inp.buyPrice < 20.0 && inp.batterySoc < 100.0 then Import
    else Auto
  }

  /** 3pm to 9pm: auto unless the sell price is high and the battery above the desired charge. */
  function PeakBand(inp: Input): Action
  {
    if inp.sellPrice > SellThreshold && inp.batterySoc >= DesiredSoc then Export else Auto
  }

  /** 9pm to midnight. */
  function LateBand(inp: Input): Action
  {
    if inp.sellPrice > SellThreshold then Export
    else if inp.buyPrice < 10.0 && inp.batterySoc < 100.0 then Import
    else Auto
  }

  /**
   * The band statements in source order. Every hour of the day falls in
   * one band, so the script always assigns an action; no other hour does.
   */
  function Bands(inp: Input): (a: Option<Action>)
    ensures a.Some? <==> 0 <= inp.hour < 24
    ensures 15 <= inp.hour < 21 ==>
              (a == Some(Export) <==> inp.sellPrice > SellThreshold && inp.batterySoc >= DesiredSoc)
    ensures 15 <= inp.hour < 21 && a != Some(Export) ==> a == Some(Auto)
    ensures a == Some(Import) ==> inp.buyPrice < 20.0
    ensures a == Some(Import) && inp.hour >= 6 ==> inp.batterySoc < 100.0 || inp.buyPrice < MorningBuyPrice
  {
    var h := inp.hour;
    var a1 := if 0 <= h < 6 then Some(NightBand(inp)) else None;
    var a2 := if 6 <= h < 13 then Some(MorningBand(inp)) else a1;
    var a3 := if 13 <= h < 15 then Some(MiddayBand(inp))
              else if 15 <= h < 21 then Some(PeakBand(inp))
              else a2;
    if 21 <= h < 24 then Some(LateBand(inp)) else a3
  }

  /** The first four overrides: each may only switch the action to export. */
  function UseItOrLoseIt(inp: Input, a: Option<Action>): (r: Option<Action>)
    ensures r == a || r == Some(Export)
    ensures inp.rrp > TakeTheMoneyRrp && inp.batterySoc > 30.0 ==> r == Some(Export)
    ensures inp.hour < 4 && inp.batterySoc > MorningBatterySoc && inp.sellPrice > MorningSellPrice ==> r == Some(Export)
    ensures r != a ==> inp.sellPrice > MorningLowSellPrice || inp.rrp > TakeTheMoneyRrp
  {
    var h := inp.hour;
    var b1 := if (h > 15 || h < 4) && inp.batterySoc > HighBatterySoc && inp.sellPrice > HighMinSellPrice
              then Some(Export) else a;
    var b2 := if h < 4 && inp.batterySoc > MorningBatterySoc && inp.sellPrice > MorningSellPrice
              then Some(Export) else b1;
    var b3 := if 3 < h < 6 && inp.batterySoc > LowBatterySoc && inp.sellPrice > MorningLowSellPrice
              then Some(Export) else b2;
    if inp.rrp > TakeTheMoneyRrp && inp.batterySoc > 30.0 then Some(Export) else b3
  }

  /**
   * Every condition under which some statement of the script writes
   * 'export', read off as one flat disjunction.
   */
  predicate ExportRuleFires(inp: Input)
  {
    var h := inp.hour;
    var sell := inp.sellPrice;
    var soc := inp.batterySoc;
    var fc := inp.sellForecast;
    (0 <= h < 6 && sell > 85.0) || (6 <= h < 13 && sell > 20.0) || (13 <= h < 15 && sell > 1000.0) ||
    (15 <= h < 21 && sell > 85.0 && soc >= 20.0) || (21 <= h < 24 && sell > 85.0) ||
    ((h > 15 || h < 4) && soc > 80.0 && sell > 25.0) || (h < 4 && soc > 20.0 && sell > 20.0) ||
    (3 < h < 6 && soc > 10.0 && sell > 15.0) || (inp.rrp > 800.0 && soc > 30.0) ||
    (h > 15 && soc > 50.0 && sell > 20.0 && |fc| > 0 && MaxOf(fc) < sell + 10.0) ||
    (h > 15 && soc > 80.0 && sell > 10.0 && |fc| > 0 && MaxOf(fc) < sell + 5.0)
  }

  /**
   * The whole script. It fails only where it takes `max(sell_forecast)` of
   * an empty forecast; otherwise the overrides keep the band's action or
   * replace it by export.
   */
  function Run(inp: Input): (r: Result<Option<Action>>)
    ensures r.Err? <==> inp.hour > 15 && |inp.sellForecast| == 0 &&
                        ((inp.batterySoc > 50.0 && inp.sellPrice > 20.0) ||
                         (inp.batterySoc > HighBatterySoc && inp.sellPrice > 10.0))
    ensures r.Err? ==> r.error == ValueError
    ensures r.Ok? ==> r.value == Bands(inp) || r.value == Some(Export)
    ensures r.Ok? ==> (r.value == Some(Export) <==> ExportRuleFires(inp))
    ensures r.Ok? && 0 <= inp.hour < 24 ==> r.value.Some?
    ensures r.Ok? && inp.rrp > TakeTheMoneyRrp && inp.batterySoc > 30.0 ==> r.value == Some(Export)
    ensures inp.hour < 4 && inp.batterySoc > MorningBatterySoc && inp.sellPrice > MorningSellPrice ==>
              r == Ok(Some(Export))
    ensures inp.hour > 15 && inp.batterySoc > HighBatterySoc && inp.sellPrice > 10.0 &&
            |inp.sellForecast| > 0 && MaxOf(inp.sellForecast) < inp.sellPrice + 5.0 ==>
              r == Ok(Some(Export))
    ensures r == Ok(Some(Import)) ==> inp.buyPrice < 20.0
  {
    var a := UseItOrLoseIt(inp, Bands(inp));
    var late := inp.hour > 15;
    match Regional.BestUpcomingRule(late && inp.batterySoc > 50.0 && inp.sellPrice > 20.0,
                                    inp.sellPrice, inp.sellForecast, 10.0, a)
    case Err(e) => Err(e)
    case Ok(a5) =>
      Regional.BestUpcomingRule(late && inp.batterySoc > HighBatterySoc && inp.sellPrice > 10.0,
                                inp.sellPrice, inp.sellForecast, 5.0, a5)
  }
}
