/**
 * sa_script.py: the South Australian script. It starts from auto, exports
 * on high prices, and then runs a sequence of corrections over the action
 * word, several of which test it with Python's substring `in`
 * ('charge' in 'discharge' holds). `pow(1.5, 1 - soc/100)` is a floating
 * point power the model takes as a function parameter; the `reason` text
 * is not modelled, and `daytime` (computed from datetimes) is an input.
 */
module SaRules {
  import opened Common
  import Ranking

  const SapnPeakBuyPrice: real := 12.0
  const SanitySellPrice: real := 18.0
  const SanityRrp: real := 180.0
  const RrpFeedIn: real := 25000.0
  const CurtailFeedIn: real := 1000.0

  datatype Input = Input(
    hour: int,               // interval_time.hour
    daytime: bool,           // sunrise > interval_time and interval_time < sunset
    buyPrice: real,
    sellPrice: real,
    batterySoc: real,
    rrp: real,
    gridPower: real,
    solar: SolarMode,        // the host's current solar mode
    buyForecast: seq<real>,
    sellForecast: seq<real>)

  datatype Output = Output(action: Action, feedInPowerLimitation: Option<real>)

  // ---------------------------------------------------------------------
  // Substring tests on action words
  // ---------------------------------------------------------------------

  /** 'charge' occurs in exactly two action words: charge and discharge. */
  lemma ChargeIn(a: Action)
    ensures Contains(a.Text(), "charge") <==> a == Charge || a == Discharge
  {
    match a
    case Charge => ContainsAt("charge", "charge", 0);
    case Discharge =>
      assert "discharge"[3..9] == "charge";
      ContainsAt("discharge", "charge", 3);
    case Fullstop => MissingChar("fullstop", "charge", 'c');
    case AutoApiCurtail => MissingChar("auto_api_curtail", "charge", 'h');
    case Import => MissingChar("import", "charge", 'c');
    case Export => MissingChar("export", "charge", 'c');
    case Auto =>
  }

  /** 'auto' occurs in auto and auto_api_curtail only. */
  lemma AutoIn(a: Action)
    ensures Contains(a.Text(), "auto") <==> a == Auto || a == AutoApiCurtail
  {
    match a
    case Auto => ContainsAt("auto", "auto", 0);
    case AutoApiCurtail =>
      assert "auto_api_curtail"[0..4] == "auto";
      ContainsAt("auto_api_curtail", "auto", 0);
    case Import => MissingChar("import", "auto", 'a');
    case Export => MissingChar("export", "auto", 'a');
    case Charge => MissingChar("charge", "auto", 'u');
    case Discharge => MissingChar("discharge", "auto", 'u');
    case Fullstop => MissingChar("fullstop", "auto", 'a');
  }

  /** No action word contains 'stopped'. */
  lemma StoppedInNone(a: Action)
    ensures !Contains(a.Text(), "stopped")
  {
    match a
    case Discharge => MissingChar("discharge", "stopped", 'o');
    case Fullstop => MissingChar("fullstop", "stopped", 'e');
    case AutoApiCurtail => MissingChar("auto_api_curtail", "stopped", 's');
    case _ =>
  }

  /** 'import' does not occur in 'auto'. */
  lemma ImportNotInAuto()
    ensures !Contains(Auto.Text(), "import")
  {
  }

  // ---------------------------------------------------------------------
  // The script, statement group by statement group
  // ---------------------------------------------------------------------

  /** `interval_time.hour in [0, 6, 7, 8, 9] or interval_time.hour >= 15` */
  predicate InSapnPeak(hour: int)
  {
    hour == 0 || 6 <= hour <= 9 || hour >= 15
  }

  /**
   * Lines 2-15. The SAPN-peak override tests for 'import' in an action
   * that is still the literal 'auto', so it never fires.
   */
  function Opening(inp: Input): (a: Action)
    ensures a == Export <==> inp.sellPrice > 25.0 || (inp.batterySoc > 50.0 && inp.sellPrice > 20.0)
    ensures a != Export ==> a == Auto
  {
    var a0 := Auto;
    var a1 := if Contains(a0.Text(), "import") && InSapnPeak(inp.hour) && inp.buyPrice > SapnPeakBuyPrice
              then Auto else a0;
    ImportNotInAuto();
    if inp.sellPrice > 25.0 then Export
    else if inp.batterySoc > 50.0 && inp.sellPrice > 20.0 then Export
    else a1
  }

  /** `sum(sorted(buy_forecast)[:6]) / 6`: the mean of the six cheapest forecast prices. */
  function ChargeCost(buyForecast: seq<real>): real
  {
    var cheapest := Ranking.SortedPrices(buyForecast, false);
    Sum(cheapest[..MinInt(6, |buyForecast|)]) / 6.0
  }

  /** The charge cost of six or more prices that all lie between lo and hi lies there too. */
  lemma ChargeCostWithin(buyForecast: seq<real>, lo: real, hi: real)
    requires |buyForecast| >= 6
    requires forall i :: 0 <= i < |buyForecast| ==> lo <= buyForecast[i] <= hi
    ensures lo <= ChargeCost(buyForecast) <= hi
  {
    var six := Ranking.SortedPrices(buyForecast, false)[..6];
    forall i | 0 <= i < 6 ensures lo <= six[i] <= hi {
      Ranking.SortedPriceMember(buyForecast, false, i);
      assert six[i] == Ranking.SortedPrices(buyForecast, false)[i];
    }
    MeanOfSix(six, lo, hi);
  }

  lemma MeanOfSix(six: seq<real>, lo: real, hi: real)
    requires |six| == 6
    requires forall i :: 0 <= i < 6 ==> lo <= six[i] <= hi
    ensures lo <= Sum(six) / 6.0 <= hi
  {
    MeanBetween(six, lo, hi);
  }

  /** With six or more forecast prices the charge cost lies between the cheapest and the dearest. */
  lemma ChargeCostBetween(buyForecast: seq<real>)
    requires |buyForecast| >= 6
    ensures MinOf(buyForecast) <= ChargeCost(buyForecast) <= MaxOf(buyForecast)
  {
    ChargeCostWithin(buyForecast, MinOf(buyForecast), MaxOf(buyForecast));
  }

  /**
   * Lines 21-29: outside 7am-5pm an export below the battery's
   * replacement value (soc_prod * charge cost) becomes discharge, and an
   * import with more than 30% becomes auto.
   */
  function Evening(inp: Input, replacement: real): (r: Action)
    ensures r == Discharge <==> (inp.hour > 16 || inp.hour < 7) && Opening(inp) == Export && inp.sellPrice < replacement
    ensures r != Discharge ==> r == Opening(inp)
  {
    var a := Opening(inp);
    if inp.hour > 16 || inp.hour < 7 then
      if a == Export && inp.sellPrice < replacement then Discharge
      else if a == Import && inp.batterySoc > 30.0 then Auto
      else a
    else a
  }

  /**
   * Lines 2-45, up to the sanity check. After it an export needs a sell
   * price of at least 18 and an rrp of at least 180. The 'stopped' test
   * matches no action word, so its charge never happens.
   */
  function AfterSanity(inp: Input, replacement: real): (a: Action)
    ensures a == Export ==> inp.sellPrice >= SanitySellPrice && inp.rrp >= SanityRrp
    ensures a == Auto || a == Export || a == Discharge
    ensures a == Discharge ==> (inp.hour > 16 || inp.hour < 7) && inp.sellPrice < replacement
  {
    var a0 := Evening(inp, replacement);
    var a1 := if inp.hour > 20 && inp.batterySoc > 80.0 && inp.sellPrice > 18.0 then Export else a0;
    var a2 := if inp.hour < 5 && inp.batterySoc < 20.0 && a1 == Export && inp.sellPrice < 100.0
              then Auto else a1;
    StoppedInNone(a2);
    var a3 := if inp.daytime && Contains(a2.Text(), "stopped") && inp.sellPrice < 0.0 then Charge else a2;
    if a3 == Export && (inp.sellPrice < SanitySellPrice || inp.rrp < SanityRrp) then Auto else a3
  }

  /**
   * Lines 60-75. The closing `'charge' in action` test removes charge and
   * discharge, so what is left is auto or export; a new export here needs
   * an rrp above 300.
   */
  function Middle(inp: Input, replacement: real): (a: Action)
    ensures !Contains(a.Text(), "charge")
    ensures a == Auto || a == Export
    ensures a == Export ==> inp.rrp >= SanityRrp
    ensures a == Export && inp.sellPrice < SanitySellPrice ==>
              inp.hour < 21 && inp.batterySoc > 80.0 && inp.rrp > 300.0
  {
    var a0 := AfterSanity(inp, replacement);
    ChargeIn(a0);
    var a1 := if inp.gridPower < 0.0 && inp.buyPrice > 5.0 && inp.batterySoc > 50.0 &&
                 Contains(a0.Text(), "charge") then Auto else a0;
    var a2 := if inp.hour < 21 && inp.batterySoc > 80.0 && a1 == Auto && inp.rrp > 300.0
              then Export else a1;
    ChargeIn(a2);
    var a3 := if Contains(a2.Text(), "charge") then Auto else a2;
    ChargeIn(a3);
    a3
  }

  /** Lines 56-66: 25000 W when rrp is positive, then 1000 W while curtailing below 95%. */
  function FeedIn(inp: Input): (f: Option<real>)
    ensures inp.solar == Curtail && inp.batterySoc < 95.0 ==> f == Some(CurtailFeedIn)
    ensures !(inp.solar == Curtail && inp.batterySoc < 95.0) ==>
              (f == Some(RrpFeedIn) <==> inp.rrp > 0.0) && (f.None? <==> inp.rrp <= 0.0)
  {
    var f0 := if inp.rrp > 0.0 then Some(RrpFeedIn) else None;
    if inp.solar == Curtail && inp.batterySoc < 95.0 then Some(CurtailFeedIn) else f0
  }

  /**
   * The whole script. The final action is one of auto, export, fullstop
   * and import; an export never goes out with an rrp below 180; fullstop
   * happens exactly on a negative buy price, rrp below -100 and a battery
   * above 95%; and the only failure is `max()` of an empty sell forecast.
   */
  function Run(inp: Input, pow: (real, real) -> real): (r: Result<Output>)
    ensures r.Err? ==> r.error == ValueError && |inp.sellForecast| == 0
    ensures |inp.sellForecast| > 0 ==> r.Ok?
    ensures r.Ok? ==> r.value.action in {Auto, Export, Fullstop, Import}
    ensures r.Ok? && r.value.action == Export ==> inp.rrp >= SanityRrp
    ensures inp.buyPrice < 0.0 && inp.rrp < -100.0 && inp.batterySoc > 95.0 ==>
              r.Ok? && r.value.action == Fullstop
    ensures r.Ok? && r.value.action == Fullstop ==>
              inp.buyPrice < 0.0 && inp.rrp < -100.0 && inp.batterySoc > 95.0
    ensures r.Ok? && inp.buyPrice < 0.0 && inp.batterySoc < 70.0 && inp.hour < 9 ==> r.value.action == Import
    ensures r.Ok? ==> r.value.feedInPowerLimitation == FeedIn(inp)
  {
    var socProd := pow(1.5, 1.0 - inp.batterySoc / 100.0);
    var replacement := socProd * ChargeCost(inp.buyForecast);
    var a0 := Middle(inp, replacement);
    AutoIn(a0);
    var a1 := if Contains(a0.Text(), "auto") && inp.buyPrice < 0.0 && inp.rrp < -100.0 && inp.batterySoc > 95.0
              then Fullstop else a0;
    var saveTest := a1 == Export && inp.batterySoc < 60.0 && inp.hour < 18 &&
                    (inp.sellPrice < 50.0 || inp.rrp < 500.0);
    if saveTest && |inp.sellForecast| == 0 then Err(ValueError)
    else
      var a2 := if saveTest && MaxOf(inp.sellForecast) > 100.0 then Auto else a1;
      var a3 := if inp.buyPrice < 0.0 && inp.batterySoc < 70.0 && inp.hour < 9 then Import else a2;
      Ok(Output(a3, FeedIn(inp)))
  }
}
