/**
 * nsw_script.py: the New South Wales schedule. Like the Victorian one it
 * has five hour bands followed by export-only overrides, but a negative
 * wholesale price (rrp) takes the place of the 3pm-9pm band: the script
 * then writes a feed-in limit of 0 instead of choosing an action.
 *
 * That write goes to `feed_in_limitation`, a name the host never reads;
 * every other script sets `feed_in_power_limitation`. `Run` models the
 * script as written and `RunCorrected` with the evidently intended name.
 * The `reason` text is not modelled; "now is before the solar production
 * time" (sunrise plus 30 minutes) is an input.
 */
module NswRules {
  import opened Common
  import Regional

  const DesiredSoc: real := 20.0
  const MinSellSoc: real := 30.0
  const SellThreshold: real := 85.0
  const MorningSellThreshold: real := 20.0
  const MiddaySellThreshold: real := 1000.0
  const MorningBuyPrice: real := 5.0
  const TakeTheMoneyRrp: real := 800.0

  datatype Input = Input(
    hour: int,                     // interval_time.hour
    beforeSolarProduction: bool,   // interval_time < sunrise + 30 minutes
    buyPrice: real,
    sellPrice: real,
    batterySoc: real,
    rrp: real,
    sellForecast: seq<real>)

  /**
   * What the script hands back: the action it assigned (None: left as the
   * host had it), the feed-in limit the host reads, and the value bound to
   * the misspelt `feed_in_limitation`, which the host ignores.
   */
  datatype Output = Output(action: Option<Action>, feedInPowerLimitation: Option<real>,
                           feedInLimitation: Option<real>)

  function NightBand(inp: Input): Action
  {
    if inp.sellPrice > SellThreshold then Export
    else if inp.buyPrice < MorningBuyPrice && inp.batterySoc >= DesiredSoc then Import
    else Auto
  }

  /** 6am to 1pm: with more than half a charge and a positive buy price, wait for the afternoon. */
  function MorningBand(inp: Input): Action
  {
    if inp.sellPrice > MorningSellThreshold then Export
    else if inp.batterySoc > 50.0 && inp.buyPrice > 0.0 then Auto
    else if inp.buyPrice < MorningBuyPrice then Import
    else Auto
  }

  /** 1pm to 3pm: top up below 60% unless the buy price reaches the spike threshold. */
  function MiddayBand(inp: Input): Action
  {
    if inp.sellPrice > MiddaySellThreshold then Export
    else if inp.batterySoc < 60.0 && inp.buyPrice < MiddaySellThreshold then Import
    else Auto
  }

  function PeakBand(inp: Input): Action
  {
    if inp.sellPrice > SellThreshold && inp.batterySoc >= DesiredSoc then Export else Auto
  }

  function LateBand(inp: Input): Action
  {
    if inp.sellPrice > SellThreshold then Export
    else if inp.buyPrice < 10.0 && inp.batterySoc < MinSellSoc then Import
    else Auto
  }

  /**
   * The band statements in source order. The 3pm-9pm band sits in the
   * `elif` of the negative-rrp test, so at those hours a negative rrp
   * leaves the action unassigned.
   */
  function Bands(inp: Input): (a: Option<Action>)
    ensures a.Some? <==> 0 <= inp.hour < 24 && !(15 <= inp.hour < 21 && inp.rrp < 0.0)
    ensures (6 <= inp.hour < 13 && inp.sellPrice <= MorningSellThreshold &&
             inp.batterySoc > 50.0 && inp.buyPrice > 0.0) ==> a == Some(Auto)
    ensures 15 <= inp.hour < 21 && inp.rrp >= 0.0 ==>
              (a == Some(Export) <==> inp.sellPrice > SellThreshold && inp.batterySoc >= DesiredSoc)
    ensures a == Some(Import) && inp.hour >= 13 ==> inp.batterySoc < 60.0
  {
    var h := inp.hour;
    var a1 := if 0 <= h < 6 then Some(NightBand(inp)) else None;
    var a2 := if 6 <= h < 13 then Some(MorningBand(inp)) else a1;
    var a3 := if 13 <= h < 15 then Some(MiddayBand(inp)) else a2;
    var a4 := if inp.rrp < 0.0 then a3
              else if 15 <= h < 21 then Some(PeakBand(inp))
              else a3;
    if 21 <= h < 24 then Some(LateBand(inp)) else a4
  }

  /** Every condition under which some statement of the script writes 'export'. */
  predicate ExportRuleFires(inp: Input)
  {
    var h := inp.hour;
    var sell := inp.sellPrice;
    var soc := inp.batterySoc;
    var fc := inp.sellForecast;
    (0 <= h < 6 && sell > 85.0) || (6 <= h < 13 && sell > 20.0) || (13 <= h < 15 && sell > 1000.0) ||
    (15 <= h < 21 && inp.rrp >= 0.0 && sell > 85.0 && soc >= 20.0) || (21 <= h < 24 && sell > 85.0) ||
    (h > 15 && soc > 80.0 && sell > 10.0 && |fc| > 0 && MaxOf(fc) < sell + 5.0) ||
    (h < 5 && soc > 20.0 && sell > 20.0) ||
    (4 < h && inp.beforeSolarProduction && soc > 10.0 && sell > 15.0) ||
    (inp.rrp > 800.0 && soc > 30.0)
  }

  /**
   * The action the script leaves behind. Only the best-upcoming test can
   * fail (an empty forecast after 3pm with a full battery); every override
   * keeps the band's action or writes export.
   */
  function Actions(inp: Input): (r: Result<Option<Action>>)
    ensures r.Err? <==> inp.hour > 15 && inp.batterySoc > 80.0 && inp.sellPrice > 10.0 &&
                        |inp.sellForecast| == 0
    ensures r.Err? ==> r.error == ValueError
    ensures r.Ok? ==> r.value == Bands(inp) || r.value == Some(Export)
    ensures r.Ok? ==> (r.value == Some(Export) <==> ExportRuleFires(inp))
    ensures r.Ok? && inp.rrp > TakeTheMoneyRrp && inp.batterySoc > MinSellSoc ==> r.value == Some(Export)
    ensures inp.hour < 5 && inp.batterySoc > DesiredSoc && inp.sellPrice > 20.0 ==> r == Ok(Some(Export))
  {
    var h := inp.hour;
    match Regional.BestUpcomingRule(h > 15 && inp.batterySoc > 80.0 && inp.sellPrice > 10.0,
                                    inp.sellPrice, inp.sellForecast, 5.0, Bands(inp))
    case Err(e) => Err(e)
    case Ok(a1) =>
      var a2 := if h < 5 && inp.batterySoc > DesiredSoc && inp.sellPrice > 20.0 then Some(Export) else a1;
      var a3 := if 4 < h && inp.beforeSolarProduction && inp.batterySoc > 10.0 && inp.sellPrice > 15.0
                then Some(Export) else a2;
      Ok(if inp.rrp > TakeTheMoneyRrp && inp.batterySoc > MinSellSoc then Some(Export) else a3)
  }

  /** The script as written: the zero limit lands in the variable the host ignores. */
  function Run(inp: Input): (r: Result<Output>)
    ensures r.Err? <==> Actions(inp).Err?
    ensures r.Ok? ==> r.value.action == Actions(inp).value
    ensures r.Ok? ==> r.value.feedInPowerLimitation.None?
    ensures r.Ok? ==> (r.value.feedInLimitation == Some(0.0) <==> inp.rrp < 0.0)
  {
    match Actions(inp)
    case Err(e) => Err(e)
    case Ok(a) => Ok(Output(a, None, if inp.rrp < 0.0 then Some(0.0) else None))
  }

  /** The script with the limit written to `feed_in_power_limitation`. */
  function RunCorrected(inp: Input): (r: Result<Output>)
    ensures r.Err? <==> Actions(inp).Err?
    ensures r.Ok? ==> r.value.action == Actions(inp).value
    ensures r.Ok? ==> (r.value.feedInPowerLimitation == Some(0.0) <==> inp.rrp < 0.0)
    ensures r.Ok? ==> r.value.feedInPowerLimitation.Some? ==> inp.rrp < 0.0
  {
    match Actions(inp)
    case Err(e) => Err(e)
    case Ok(a) => Ok(Output(a, if inp.rrp < 0.0 then Some(0.0) else None, None))
  }

  /**
   * At 6pm with a negative rrp and no other rule firing, the script as
   * written hands the host no feed-in limit at all, while the corrected
   * script caps feed-in at zero.
   */
  lemma NegativeRrpNotCapped()
    ensures var inp := Input(18, false, 10.0, 5.0, 50.0, -20.0, [5.0]);
            Run(inp).Ok? && Run(inp).value.feedInPowerLimitation.None? &&
            RunCorrected(inp) == Ok(Output(None, Some(0.0), None))
  {
  }
}
