/**
 * One evaluation of the v7.7 script: the planning quantities are computed
 * once, then each rule of the priority table may register a candidate
 * action with the host's resolver and may assign the feed-in limit. The
 * applied action is the resolver's winner; the feed-in limit is whatever
 * the last executed assignment wrote.
 */
module ScriptV77 {
  import opened Common
  import opened Ranking
  import opened Decisions
  import opened ArbitrageV77

  /**
   * The host's inputs for one dispatch interval. The weather lookups are
   * already resolved to the GTI figure the floor is computed from.
   */
  datatype Input = Input(
    hour: int,
    sunriseHour: real,
    buyPrice: real,
    sellPrice: real,
    batterySoc: real,
    batteryCapacity: real,
    buyForecast: seq<real>,
    sellForecast: seq<real>,
    gti: real,
    optimalCharging: real,
    optimalDischarging: real)

  /** A clock hour, and the capacity and rates the script divides by. */
  predicate Valid(inp: Input)
  {
    0 <= inp.hour < 24 && inp.batteryCapacity != 0.0 && inp.optimalCharging != 0.0 && inp.optimalDischarging != 0.0
  }

  /** The quantities every rule reads. */
  datatype Context = Context(
    buyDisc: seq<real>,
    sellDisc: seq<real>,
    solarClass: SolarClass,
    premium: real,
    floor: Floor,
    plan: ChargePlan,
    availSoc: real,
    threshold: real,
    opportunity: Option<Selection>,
    nextCharge: Option<NextSlot>)

  function MaxChargeKwh(inp: Input): real { (inp.optimalCharging / 1000.0) * 0.5 }
  function MaxDischargeKwh(inp: Input): real { (inp.optimalDischarging / 1000.0) * 0.5 }

  predicate InPeak(hour: int) { PeakStart <= hour <= PeakEnd }

  /** From peak start until sunrise, wrapping over midnight when sunrise is not after peak start. */
  predicate IsOvernightWindow(hour: int, sunrise: real)
  {
    if PeakStart as real >= sunrise then hour >= PeakStart || (hour as real) < sunrise
    else PeakStart <= hour && (hour as real) < sunrise
  }

  function Prepare(inp: Input): (ctx: Context)
    requires Valid(inp)
    ensures |ctx.buyDisc| <= FutureForecastHours && |ctx.sellDisc| <= FutureForecastHours
    ensures ctx.availSoc >= 0.0
    ensures 45 <= ctx.plan.priority <= 50
    ensures inp.hour < 12 ==> !ctx.plan.shouldCharge
  {
    var buyDisc := ApplyDiscount(inp.buyForecast, FutureForecastHours, BuyUncertaintyDiscount);
    var sellDisc := ApplyDiscount(inp.sellForecast, FutureForecastHours, -SellUncertaintyDiscount);
    var cls := ClassifySolar(inp.gti);
    var premium := EveningPremium(inp.buyForecast, inp.sellForecast, inp.hour);
    var floor := ComputeFloor(cls, premium, inp.batterySoc, inp.hour, inp.sunriseHour, inp.batteryCapacity);
    var plan := SmartCharging(inp.batterySoc, floor.exportFloor, buyDisc, sellDisc, inp.buyPrice, inp.hour,
                              inp.batteryCapacity, MaxChargeKwh(inp));
    assert inp.hour < 12 ==> !plan.shouldCharge by {
      if inp.hour < 12 {
        NoChargeBeforeNoon(inp.batterySoc, floor.exportFloor, buyDisc, sellDisc, inp.buyPrice, inp.hour,
                           inp.batteryCapacity, MaxChargeKwh(inp));
      }
    }
    var availSoc := Max(0.0, inp.batterySoc - floor.exportFloor);
    var thr := DynamicThreshold(sellDisc, buyDisc, availSoc, inp.batteryCapacity, MaxDischargeKwh(inp));
    var opp := if IsOvernightWindow(inp.hour, inp.sunriseHour)
               then OvernightOpportunities(sellDisc, inp.hour, inp.sunriseHour, inp.batterySoc, inp.batteryCapacity, MaxDischargeKwh(inp))
               else None;
    var nextCharge := if inp.hour < PeakStart && inp.batterySoc < 100.0 then NextBest(buyDisc, inp.hour, PeakStart) else None;
    Context(buyDisc, sellDisc, cls, premium, floor, plan, availSoc, thr, opp, nextCharge)
  }

  // ---------------------------------------------------------------------
  // The rules, in the order the script runs them
  // ---------------------------------------------------------------------

  /** Priority 100: a price spike is exported whatever the floor. */
  function SpikeRule(inp: Input): (e: Effect)
    ensures forall c :: c in e.candidates ==> c == Candidate(Export, 100)
    ensures e.feedIn.None?
    ensures Candidate(Export, 100) in e.candidates <==> inp.sellPrice >= AlwaysSellPrice && inp.batterySoc > 5.0
  {
    if inp.sellPrice >= AlwaysSellPrice && inp.batterySoc > 5.0 then Register(Export, 100) else NoEffect
  }

  /** Priority 90: a negative buy price outside the peak is imported; a full battery also curtails solar. */
  function PaidImportRule(inp: Input): (e: Effect)
    ensures forall c :: c in e.candidates ==> c == Candidate(Import, 90)
    ensures |e.candidates| > 0 <==> inp.buyPrice < 0.0 && !InPeak(inp.hour)
    ensures |e.candidates| > 0 ==> e.feedIn == Some(if inp.batterySoc >= 98.0 then 10.0 else 10000.0)
    ensures |e.candidates| == 0 ==> e.feedIn.None?
  {
    if inp.buyPrice < 0.0 && !InPeak(inp.hour) then
      if inp.batterySoc >= 98.0 then Effect([Candidate(Import, 90)], Some(10.0))
      else Effect([Candidate(Import, 90)], Some(10000.0))
    else NoEffect
  }

  /** SOC needed to bridge the periods until the next cheap charge, with the daytime safety margin. */
  function BridgeSoc(inp: Input, next: Option<NextSlot>): real
    requires Valid(inp)
  {
    match next
    case Some(n) =>
      (n.periodsAway as real * 0.5 * HouseLoadKwhPerHour * DaytimeSafetyMargin / (inp.batteryCapacity / 1000.0)) * 100.0
    case None => 20.0
  }

  /** The hour PV generation is expected to begin: sunrise plus the class's offset. */
  function PvGenerationHour(inp: Input, ctx: Context): real
  {
    inp.sunriseHour + PvOffset(ctx.solarClass)
  }

  /**
   * The SOC a daytime sale must stay above: the reserve to reach PV
   * generation plus 5 points before it starts, or the bridge to the next
   * cheap charge plus 15 points after.
   */
  function DaytimeSellReserve(inp: Input, ctx: Context): real
    requires Valid(inp)
  {
    if (inp.hour as real) < PvGenerationHour(inp, ctx) then
      ReserveSoc(PvGenerationHour(inp, ctx) - inp.hour as real, inp.batteryCapacity) + 5.0
    else BridgeSoc(inp, ctx.nextCharge) + 15.0
  }

  /**
   * The daytime price opportunity: the sell price is within 2c of the buy
   * price, or beats some discounted pre-peak buy forecast by the margin.
   */
  predicate DaytimeOpportunity(inp: Input, ctx: Context)
  {
    |ctx.buyDisc| > 0 && PeriodsLeft(inp.hour) > 0 &&
    (inp.sellPrice >= inp.buyPrice - 2.0 ||
     exists j :: 0 <= j < MinInt(PeriodsLeft(inp.hour), |ctx.buyDisc|) && inp.sellPrice >= ctx.buyDisc[j] + DaytimeArbitrageMargin)
  }

  /**
   * Priority 75: between sunrise and peak, a sell price of at least 5c that
   * beats the buy price less 2c or the cheapest pre-peak buy plus 3c is
   * exported, keeping enough SOC to reach PV generation (before it starts)
   * or the next cheap charge (after).
   */
  function DaytimeSellRule(inp: Input, ctx: Context): (e: Effect)
    requires Valid(inp)
    ensures forall c :: c in e.candidates ==> c == Candidate(Export, 75)
    ensures e.feedIn.None?
    ensures |e.candidates| > 0 <==>
      inp.sunriseHour <= inp.hour as real && inp.hour < PeakStart && inp.sellPrice >= DaytimeOpportunisticSellPrice &&
      DaytimeOpportunity(inp, ctx) && inp.batterySoc > DaytimeSellReserve(inp, ctx)
  {
    if inp.sunriseHour <= inp.hour as real && inp.hour < PeakStart && inp.sellPrice >= DaytimeOpportunisticSellPrice then
      var pvGenerationHour := inp.sunriseHour + PvOffset(ctx.solarClass);
      var periodsUntilPeak := PeriodsLeft(inp.hour);
      if |ctx.buyDisc| > 0 && periodsUntilPeak > 0 then
        var window := ctx.buyDisc[..MinInt(periodsUntilPeak, |ctx.buyDisc|)];
        var minFutureBuy := MinOf(window);
        assert inp.sellPrice >= minFutureBuy + DaytimeArbitrageMargin <==>
               exists j :: 0 <= j < |window| && inp.sellPrice >= ctx.buyDisc[j] + DaytimeArbitrageMargin by {
          if inp.sellPrice >= minFutureBuy + DaytimeArbitrageMargin {
            var j :| 0 <= j < |window| && window[j] == minFutureBuy;
            assert window[j] == ctx.buyDisc[j];
          }
          forall j | 0 <= j < |window| && inp.sellPrice >= ctx.buyDisc[j] + DaytimeArbitrageMargin
            ensures inp.sellPrice >= minFutureBuy + DaytimeArbitrageMargin
          {
            assert window[j] == ctx.buyDisc[j];
          }
        }
        if inp.sellPrice >= inp.buyPrice - 2.0 || inp.sellPrice >= minFutureBuy + DaytimeArbitrageMargin then
          if (inp.hour as real) < pvGenerationHour then
            var minSocForPv := ReserveSoc(pvGenerationHour - inp.hour as real, inp.batteryCapacity);
            if inp.batterySoc > minSocForPv + 5.0 then Register(Export, 75) else NoEffect
          else
            if inp.batterySoc > BridgeSoc(inp, ctx.nextCharge) + 15.0 then Register(Export, 75) else NoEffect
        else NoEffect
      else NoEffect
    else NoEffect
  }

  /** The price the overnight drain accepts, by urgency: anything positive in the last half hour. */
  function DrainThreshold(hrs: real, o: Selection): (t: real)
    ensures t >= 0.01
    ensures hrs <= 0.5 ==> t == 0.01
    ensures hrs > 0.5 && o.currentIsGood ==> t >= o.worstAcceptablePrice
    ensures hrs > 0.5 && !o.currentIsGood ==> t < BaseMinSellPrice
  {
    if hrs <= 0.5 then 0.01
    else if o.currentIsGood then Max(0.01, o.worstAcceptablePrice)
    else if hrs <= 2.0 then BaseMinSellPrice * 0.5
    else BaseMinSellPrice * 0.7
  }

  /**
   * Priority 65: in the overnight window, above the morning target, export
   * in a selected period, or in the last hour before sunrise, or in the
   * last two hours when SOC is 15 points over the target, provided the
   * price clears the urgency threshold and SOC is above the export floor.
   */
  function OvernightDrainRule(inp: Input, ctx: Context): (e: Effect)
    ensures forall c :: c in e.candidates ==> c == Candidate(Export, 65)
    ensures e.feedIn.None?
    ensures |e.candidates| > 0 <==>
      ctx.opportunity.Some? && inp.batterySoc > TargetMorningSocMax &&
      DrainDue(HoursToSunrise(inp.hour, inp.sunriseHour), ctx.opportunity.value, inp.batterySoc) &&
      inp.sellPrice >= DrainThreshold(HoursToSunrise(inp.hour, inp.sunriseHour), ctx.opportunity.value) &&
      inp.batterySoc > ctx.floor.exportFloor
    ensures |e.candidates| > 0 ==> inp.sellPrice > 0.0
  {
    match ctx.opportunity
    case None => NoEffect
    case Some(o) =>
      if inp.batterySoc > TargetMorningSocMax then
        var hrs := HoursToSunrise(inp.hour, inp.sunriseHour);
        var shouldSell := o.currentIsGood || hrs <= 1.0 || (hrs <= 2.0 && inp.batterySoc > TargetMorningSocMax + 15.0);
        if shouldSell && inp.sellPrice >= DrainThreshold(hrs, o) && inp.batterySoc > ctx.floor.exportFloor then
          Register(Export, 65)
        else NoEffect
      else NoEffect
  }

  /** The dynamic threshold, relaxed by the overnight factor from peak end until sunrise. */
  function AdjustedThreshold(inp: Input, ctx: Context): real
  {
    if inp.hour >= PeakEnd || (inp.hour as real) < inp.sunriseHour then ctx.threshold * OvernightThresholdFactor
    else ctx.threshold
  }

  /** Priority 60: export when energy is above the floor and the price clears the (adjusted) dynamic threshold. */
  function ArbitrageSellRule(inp: Input, ctx: Context): (e: Effect)
    ensures forall c :: c in e.candidates ==> c == Candidate(Export, 60)
    ensures e.feedIn.None?
    ensures |e.candidates| > 0 <==>
      inp.sellPrice >= 0.0 && ctx.availSoc > 0.0 && inp.sellPrice >= AdjustedThreshold(inp, ctx)
  {
    if inp.sellPrice >= 0.0 && ctx.availSoc > 0.0 && inp.sellPrice >= AdjustedThreshold(inp, ctx) then
      Register(Export, 60)
    else NoEffect
  }

  /** Priorities 45-50: import on the charging plan outside the peak, lifting the feed-in limit to the charge rate. */
  function SmartChargeRule(inp: Input, ctx: Context): (e: Effect)
    ensures forall c :: c in e.candidates ==> c == Candidate(Import, ctx.plan.priority)
    ensures |e.candidates| > 0 <==> ctx.plan.shouldCharge && !InPeak(inp.hour)
    ensures |e.candidates| > 0 ==> e.feedIn == Some(inp.optimalCharging)
    ensures |e.candidates| == 0 ==> e.feedIn.None?
  {
    if ctx.plan.shouldCharge && !InPeak(inp.hour) then
      Effect([Candidate(Import, ctx.plan.priority)], Some(inp.optimalCharging))
    else NoEffect
  }

  /** Priorities 41/42: a negative sell price while not charging curtails a full battery, else lets solar charge it. */
  function NegativeFeedInRule(inp: Input, ctx: Context): (e: Effect)
    ensures forall c :: c in e.candidates ==> c == Candidate(AutoApiCurtail, 42) || c == Candidate(Auto, 41)
    ensures |e.candidates| > 0 <==> inp.sellPrice < 0.0 && !ctx.plan.shouldCharge
    ensures |e.candidates| > 0 ==> e.feedIn == Some(if inp.batterySoc >= 98.0 then 10.0 else 10000.0)
    ensures |e.candidates| == 0 ==> e.feedIn.None?
  {
    if inp.sellPrice < 0.0 && !ctx.plan.shouldCharge then
      if inp.batterySoc >= 98.0 then Effect([Candidate(AutoApiCurtail, 42)], Some(10.0))
      else Effect([Candidate(Auto, 41)], Some(10000.0))
    else NoEffect
  }

  /** Priority 40: a sell price at the forecast maximum that cannot be used because SOC is at the floor is logged. */
  function MissedSellRule(inp: Input, ctx: Context): (e: Effect)
    ensures forall c :: c in e.candidates ==> c == Candidate(Auto, 40)
    ensures e.feedIn.None?
    ensures |e.candidates| > 0 <==>
      |ctx.sellDisc| > 0 && ctx.availSoc <= 0.0 && inp.sellPrice >= BaseMinSellPrice &&
      forall j :: 0 <= j < |ctx.sellDisc| ==> inp.sellPrice >= ctx.sellDisc[j]
  {
    if |ctx.sellDisc| > 0 && ctx.availSoc <= 0.0 && inp.sellPrice >= MaxOf(ctx.sellDisc) && inp.sellPrice >= BaseMinSellPrice then
      Register(Auto, 40)
    else NoEffect
  }

  /** Every rule's effect, in execution order; the last is the priority-1 default. */
  function Effects(inp: Input, ctx: Context): (es: seq<Effect>)
    requires Valid(inp)
    ensures |es| == 9
  {
    [SpikeRule(inp), PaidImportRule(inp), DaytimeSellRule(inp, ctx), OvernightDrainRule(inp, ctx),
     ArbitrageSellRule(inp, ctx), SmartChargeRule(inp, ctx), NegativeFeedInRule(inp, ctx),
     MissedSellRule(inp, ctx), Register(Auto, 1)]
  }

  datatype Output = Output(action: Action, feedInPowerLimitation: real)

  /**
   * The rules' combined result for given planning quantities: the action
   * the resolver applies and the feed-in limit left by the last assignment
   * (initially the optimal charging rate).
   */
  function Decide(inp: Input, ctx: Context): (out: Output)
    requires Valid(inp)
    ensures out.action == Auto || out.action == Import || out.action == Export || out.action == AutoApiCurtail
  {
    var es := Effects(inp, ctx);
    var cs := AllCandidates(es);
    assert Candidate(Auto, 1) in es[8].candidates;
    var w := Winner(cs);
    assert w.action == Auto || w.action == Import || w.action == Export || w.action == AutoApiCurtail by {
      var k :| 0 <= k < |es| && w in es[k].candidates;
      if k < 4 {
        assert w in es[0].candidates || w in es[1].candidates || w in es[2].candidates || w in es[3].candidates;
      } else {
        assert w in es[4].candidates || w in es[5].candidates || w in es[6].candidates || w in es[7].candidates || w in es[8].candidates;
      }
    }
    var fi := LastAssignment(es);
    Output(w.action, if fi.Some? then fi.value else inp.optimalCharging)
  }

  /** One evaluation of the script. */
  function Run(inp: Input): (out: Output)
    requires Valid(inp)
    ensures out.action == Auto || out.action == Import || out.action == Export || out.action == AutoApiCurtail
    ensures inp.sellPrice >= AlwaysSellPrice && inp.batterySoc > 5.0 ==> out.action == Export
    ensures InPeak(inp.hour) ==> out.action != Import
    ensures inp.hour < 12 && inp.buyPrice >= 0.0 ==> out.action != Import
  {
    var ctx := Prepare(inp);
    DecideGuarantees(inp, ctx);
    Decide(inp, ctx)
  }

  // ---------------------------------------------------------------------
  // Properties of the rule table, for any planning quantities
  // ---------------------------------------------------------------------

  /** The charging plan's priorities, which lie below every sell rule's. */
  predicate PlanBelowSells(ctx: Context) { ctx.plan.priority <= 50 }

  /**
   * The rule table: every candidate a rule can register, and for the two
   * highest priorities the condition under which their rule fires.
   */
  lemma RuleTable(inp: Input, ctx: Context, c: Candidate)
    requires Valid(inp) && PlanBelowSells(ctx)
    requires c in AllCandidates(Effects(inp, ctx))
    ensures c in {Candidate(Export, 100), Candidate(Import, 90), Candidate(Export, 75), Candidate(Export, 65),
                  Candidate(Export, 60), Candidate(Import, ctx.plan.priority), Candidate(AutoApiCurtail, 42),
                  Candidate(Auto, 41), Candidate(Auto, 40), Candidate(Auto, 1)}
    ensures c == Candidate(Export, 100) ==> inp.sellPrice >= AlwaysSellPrice && inp.batterySoc > 5.0
    ensures c == Candidate(Import, 90) ==> inp.buyPrice < 0.0 && !InPeak(inp.hour)
  {
    var es := Effects(inp, ctx);
    var k :| 0 <= k < |es| && c in es[k].candidates;
    if k < 4 {
      assert c in es[0].candidates || c in es[1].candidates || c in es[2].candidates || c in es[3].candidates;
    } else {
      assert c in es[4].candidates || c in es[5].candidates || c in es[6].candidates || c in es[7].candidates ||
             c in es[8].candidates;
    }
  }

  lemma DecideSpike(inp: Input, ctx: Context)
    requires Valid(inp) && PlanBelowSells(ctx)
    requires inp.sellPrice >= AlwaysSellPrice && inp.batterySoc > 5.0
    ensures Decide(inp, ctx).action == Export
  {
    var es := Effects(inp, ctx);
    assert Candidate(Export, 100) in es[0].candidates;
    forall c | c in AllCandidates(es) && c.priority >= 100
      ensures c.action == Export
    {
      RuleTable(inp, ctx, c);
    }
    TopBandDecides(AllCandidates(es), 100, Export);
  }

  lemma DecideNoImport(inp: Input, ctx: Context)
    requires Valid(inp)
    requires InPeak(inp.hour) || (!ctx.plan.shouldCharge && inp.buyPrice >= 0.0)
    ensures Decide(inp, ctx).action != Import
  {
    var es := Effects(inp, ctx);
    var cs := AllCandidates(es);
    assert forall k :: 0 <= k < |es| ==> forall c :: c in es[k].candidates ==> c.action != Import;
    assert Winner(cs) in cs;
  }

  /**
   * What every evaluation guarantees whatever the planning quantities: a
   * spike price with charge to spare exports, and nothing imports during
   * the peak or, at a non-negative buy price, before noon.
   */
  lemma DecideGuarantees(inp: Input, ctx: Context)
    requires Valid(inp) && PlanBelowSells(ctx)
    requires inp.hour < 12 ==> !ctx.plan.shouldCharge
    ensures inp.sellPrice >= AlwaysSellPrice && inp.batterySoc > 5.0 ==> Decide(inp, ctx).action == Export
    ensures InPeak(inp.hour) ==> Decide(inp, ctx).action != Import
    ensures inp.hour < 12 && inp.buyPrice >= 0.0 ==> Decide(inp, ctx).action != Import
  {
    if inp.sellPrice >= AlwaysSellPrice && inp.batterySoc > 5.0 {
      DecideSpike(inp, ctx);
    }
    if InPeak(inp.hour) || (inp.hour < 12 && inp.buyPrice >= 0.0) {
      DecideNoImport(inp, ctx);
    }
  }

  lemma DecideArbitrage(inp: Input, ctx: Context)
    requires Valid(inp) && PlanBelowSells(ctx)
    requires inp.buyPrice >= 0.0
    requires inp.sellPrice >= 0.0 && ctx.availSoc > 0.0 && inp.sellPrice >= AdjustedThreshold(inp, ctx)
    ensures Decide(inp, ctx).action == Export
  {
    var es := Effects(inp, ctx);
    assert Candidate(Export, 60) in es[4].candidates;
    forall c | c in AllCandidates(es) && c.priority >= 60
      ensures c.action == Export
    {
      RuleTable(inp, ctx, c);
    }
    TopBandDecides(AllCandidates(es), 60, Export);
  }

  /**
   * With a non-negative buy price, a daytime sale the priority-75 rule
   * registers is exported: only the spike rule outranks it without a
   * negative buy price, and it exports too.
   */
  lemma DecideDaytimeSell(inp: Input, ctx: Context)
    requires Valid(inp) && PlanBelowSells(ctx)
    requires inp.buyPrice >= 0.0
    requires inp.sunriseHour <= inp.hour as real && inp.hour < PeakStart && inp.sellPrice >= DaytimeOpportunisticSellPrice
    requires DaytimeOpportunity(inp, ctx) && inp.batterySoc > DaytimeSellReserve(inp, ctx)
    ensures Decide(inp, ctx).action == Export
  {
    var es := Effects(inp, ctx);
    assert Candidate(Export, 75) in es[2].candidates;
    forall c | c in AllCandidates(es) && c.priority >= 75
      ensures c.action == Export
    {
      RuleTable(inp, ctx, c);
    }
    TopBandDecides(AllCandidates(es), 75, Export);
  }

  lemma DecideDrain(inp: Input, ctx: Context)
    requires Valid(inp) && PlanBelowSells(ctx)
    requires inp.buyPrice >= 0.0
    requires ctx.opportunity.Some? && ctx.opportunity.value.currentIsGood
    requires inp.sellPrice >= Max(0.01, ctx.opportunity.value.worstAcceptablePrice)
    requires inp.batterySoc > TargetMorningSocMax && inp.batterySoc > ctx.floor.exportFloor
    ensures Decide(inp, ctx).action == Export
  {
    var es := Effects(inp, ctx);
    assert Candidate(Export, 65) in es[3].candidates;
    forall c | c in AllCandidates(es) && c.priority >= 65
      ensures c.action == Export
    {
      RuleTable(inp, ctx, c);
    }
    TopBandDecides(AllCandidates(es), 65, Export);
  }

  lemma DecideNegativeFeedIn(inp: Input, ctx: Context)
    requires Valid(inp)
    requires inp.sellPrice < 0.0 && !ctx.plan.shouldCharge
    ensures Decide(inp, ctx).feedInPowerLimitation == if inp.batterySoc >= 98.0 then 10.0 else 10000.0
  {
    var es := Effects(inp, ctx);
    assert es[6].feedIn.Some?;
  }

  lemma DecidePaidImportWithCharge(inp: Input, ctx: Context)
    requires Valid(inp) && PlanBelowSells(ctx)
    requires inp.buyPrice < 0.0 && !InPeak(inp.hour) && inp.batterySoc >= 98.0 && inp.sellPrice < AlwaysSellPrice
    requires ctx.plan.shouldCharge
    ensures Decide(inp, ctx).action == Import
    ensures Decide(inp, ctx).feedInPowerLimitation == inp.optimalCharging
  {
    PaidImportActionWins(inp, ctx);
    PaidImportKeepsFeedIn(inp, ctx);
  }

  lemma PaidImportActionWins(inp: Input, ctx: Context)
    requires Valid(inp) && PlanBelowSells(ctx)
    requires inp.buyPrice < 0.0 && !InPeak(inp.hour) && inp.batterySoc >= 98.0 && inp.sellPrice < AlwaysSellPrice
    ensures Decide(inp, ctx).action == Import
  {
    var es := Effects(inp, ctx);
    assert Candidate(Import, 90) in es[1].candidates;
    forall c | c in AllCandidates(es) && c.priority >= 90
      ensures c.action == Import
    {
      RuleTable(inp, ctx, c);
    }
    TopBandDecides(AllCandidates(es), 90, Import);
  }

  lemma PaidImportKeepsFeedIn(inp: Input, ctx: Context)
    requires Valid(inp)
    requires !InPeak(inp.hour) && ctx.plan.shouldCharge
    ensures Decide(inp, ctx).feedInPowerLimitation == inp.optimalCharging
  {
    var es := Effects(inp, ctx);
    assert es[5].feedIn.Some?;
    assert forall j :: 5 < j < |es| ==> es[j].feedIn.None?;
  }

  lemma DecideFeedInUntouched(inp: Input, ctx: Context)
    requires Valid(inp)
    requires inp.buyPrice >= 0.0 && inp.sellPrice >= 0.0 && !ctx.plan.shouldCharge
    ensures Decide(inp, ctx).feedInPowerLimitation == inp.optimalCharging
  {
    var es := Effects(inp, ctx);
    assert forall k :: 0 <= k < |es| ==> es[k].feedIn.None?;
  }

  // ---------------------------------------------------------------------
  // Properties of the whole evaluation
  // ---------------------------------------------------------------------

  /**
   * With a non-negative buy price, an arbitrage sell (price at or above the
   * threshold, relaxed by 0.7 from peak end until sunrise) is exported:
   * every rule that could outrank it also exports.
   */
  lemma ArbitrageSellWins(inp: Input)
    requires Valid(inp)
    requires inp.buyPrice >= 0.0
    requires inp.sellPrice >= 0.0 && Prepare(inp).availSoc > 0.0
    requires inp.sellPrice >= AdjustedThreshold(inp, Prepare(inp))
    ensures Run(inp).action == Export
  {
    DecideArbitrage(inp, Prepare(inp));
  }

  /** A daytime sale the priority-75 rule registers is exported unless the buy price is negative. */
  lemma DaytimeSellWins(inp: Input)
    requires Valid(inp)
    requires inp.buyPrice >= 0.0
    requires inp.sunriseHour <= inp.hour as real && inp.hour < PeakStart && inp.sellPrice >= DaytimeOpportunisticSellPrice
    requires DaytimeOpportunity(inp, Prepare(inp)) && inp.batterySoc > DaytimeSellReserve(inp, Prepare(inp))
    ensures Run(inp).action == Export
  {
    DecideDaytimeSell(inp, Prepare(inp));
  }

  /**
   * With a non-negative buy price, a current period among the selected
   * overnight periods, priced at least at the worst selected one (and
   * 0.01c), is drained while SOC is above the morning target and the
   * export floor.
   */
  lemma OvernightDrainWins(inp: Input)
    requires Valid(inp)
    requires inp.buyPrice >= 0.0
    requires Prepare(inp).opportunity.Some? && Prepare(inp).opportunity.value.currentIsGood
    requires inp.sellPrice >= Max(0.01, Prepare(inp).opportunity.value.worstAcceptablePrice)
    requires inp.batterySoc > TargetMorningSocMax && inp.batterySoc > Prepare(inp).floor.exportFloor
    ensures Run(inp).action == Export
  {
    DecideDrain(inp, Prepare(inp));
  }

  /**
   * A negative sell price while no charge is planned leaves the feed-in
   * limit at 10 W for a full battery and 10 kW otherwise, whatever the
   * earlier rules assigned: that rule's assignment runs last.
   */
  lemma NegativeFeedInSetsLimit(inp: Input)
    requires Valid(inp)
    requires inp.sellPrice < 0.0 && !Prepare(inp).plan.shouldCharge
    ensures Run(inp).feedInPowerLimitation == if inp.batterySoc >= 98.0 then 10.0 else 10000.0
  {
    DecideNegativeFeedIn(inp, Prepare(inp));
  }

  /**
   * When the battery is full and buying pays, the paid-import rule asks for
   * a 10 W feed-in limit to curtail solar; if a charge is also planned, the
   * charging rule runs later and replaces it with the charge rate, while
   * the applied action is still the priority-90 import (absent a spike).
   */
  lemma ChargeRuleReplacesCurtailLimit(inp: Input)
    requires Valid(inp)
    requires inp.buyPrice < 0.0 && !InPeak(inp.hour) && inp.batterySoc >= 98.0 && inp.sellPrice < AlwaysSellPrice
    requires Prepare(inp).plan.shouldCharge
    ensures Run(inp).action == Import
    ensures Run(inp).feedInPowerLimitation == inp.optimalCharging
  {
    DecidePaidImportWithCharge(inp, Prepare(inp));
  }

  /** Without a negative price and without a planned charge, the feed-in limit stays at the optimal charging rate. */
  lemma FeedInUntouched(inp: Input)
    requires Valid(inp)
    requires inp.buyPrice >= 0.0 && inp.sellPrice >= 0.0
    requires !Prepare(inp).plan.shouldCharge
    ensures Run(inp).feedInPowerLimitation == inp.optimalCharging
  {
    DecideFeedInUntouched(inp, Prepare(inp));
  }
}
