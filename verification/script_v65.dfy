/**
 * One evaluation of the v6.5 script. Every host value arrives as a dynamic
 * Python value and is cleaned first; the planning quantities are then
 * computed once and each rule of the priority table may register a
 * candidate and may assign the feed-in limit, which starts unset (None).
 */
module ScriptV65 {
  import opened Common
  import opened Ranking
  import opened PyData
  import opened Decisions
  import opened ArbitrageV65
  import V77 = ArbitrageV77

  /**
   * The host's inputs for one dispatch interval, as the script sees them
   * after its `NameError` guards: the clock hour and the parsed sunrise
   * hour as numbers, everything else as an arbitrary value.
   */
  datatype Input = Input(
    hour: int,
    sunriseHour: real,
    batterySoc: Value,
    inverters: Value,
    batteryCapacity: Value,
    buyPrice: Value,
    sellPrice: Value,
    buyForecast: Value,
    sellForecast: Value,
    gtiToday: Value,
    gtiTomorrow: Value)

  /** A number as the script reads a scalar input: itself when numeric, else 0. */
  function NumberOrZero(v: Value): (x: real)
    ensures AsNumber(v).Some? ==> x == AsNumber(v).value
    ensures AsNumber(v).None? ==> x == 0.0
  {
    match AsNumber(v)
    case Some(n) => n
    case None => 0.0
  }

  /** The inverter map the script hands on: a falsy value becomes `{}`. */
  function InvertersOrEmpty(v: Value): Value
  {
    if Truthy(v) then v else VDict(map[])
  }

  /** The cleaned and derived quantities every rule reads. */
  datatype Context = Context(
    soc: real,
    batteryKwh: real,
    buyNow: real,
    sellNow: real,
    buyDisc: seq<real>,
    sellDisc: seq<real>,
    solarClass: SolarClass,
    premium: real,
    floor: V77.Floor,
    plan: V77.ChargePlan,
    availableKwh: real,
    threshold: real,
    opportunity: Option<Selection>)

  predicate InPeak(hour: int) { PeakStart <= hour <= PeakEnd }

  /** From peak end (inclusive) until sunrise: where the overnight analysis runs and the threshold is relaxed. */
  predicate IsOvernight(hour: int, sunrise: real)
  {
    hour >= PeakEnd || (hour as real) < sunrise
  }

  /** The energy above the 15 % morning target, the overnight drain goal. */
  function DrainKwh(soc: real, batteryKwh: real): (e: real)
    ensures e >= 0.0
  {
    var target := (TargetMorningSocMin + TargetMorningSocMax) / 2.0;
    Max(0.0, Max(0.0, (soc / 100.0) * batteryKwh) - Max(0.0, (target / 100.0) * batteryKwh))
  }

  function Prepare(inp: Input): (ctx: Context)
    ensures ctx.batteryKwh > 0.0
    ensures |ctx.buyDisc| <= FutureForecastHours && |ctx.sellDisc| <= FutureForecastHours
    ensures |ctx.sellDisc| > 0
    ensures ctx.availableKwh >= 0.0
    ensures 45 <= ctx.plan.priority <= 50
    ensures inp.hour < 12 ==> !ctx.plan.shouldCharge
    ensures ctx.plan.kind != V77.Profitable
    ensures ctx.buyNow == NumberOrZero(inp.buyPrice) && ctx.sellNow == NumberOrZero(inp.sellPrice)
  {
    var soc := CombinedSoc(inp.batterySoc, InvertersOrEmpty(inp.inverters));
    var batteryKwh := CapacityWh(inp.batteryCapacity) / 1000.0;
    var buyNow := NumberOrZero(inp.buyPrice);
    var sellNow := NumberOrZero(inp.sellPrice);
    var buyClean := CleanNumberList(if inp.buyForecast.VList? then inp.buyForecast else VList([]), 9999.0);
    var sellClean := CleanNumberList(if inp.sellForecast.VList? then inp.sellForecast else VList([]), 0.0);
    var disc := UncertaintyDiscount(buyClean, sellClean, FutureForecastHours, BuyUncertaintyDiscount,
                                    SellUncertaintyDiscount);
    var gti := if (inp.hour as real) < inp.sunriseHour then NumberOrZero(inp.gtiToday) else NumberOrZero(inp.gtiTomorrow);
    var cls := ClassifySolarForecast(VFloat(gti));
    var premium := V77.EveningPremium(buyClean, sellClean, inp.hour);
    var floor := ComputeFloorAndBudget(cls, premium, batteryKwh, soc, inp.hour, inp.sunriseHour);
    var plan := ChargeBlock(inp.hour, soc, floor.exportFloor, batteryKwh, disc.buy, disc.sell, buyNow);
    assert inp.hour < 12 ==> !plan.shouldCharge by {
      if inp.hour < 12 {
        NoChargeBeforeNoon(inp.hour, soc, floor.exportFloor, batteryKwh, disc.buy, disc.sell, buyNow);
      }
    }
    assert plan.kind != V77.Profitable by {
      ProfitableNeverFires(inp.hour, soc, floor.exportFloor, batteryKwh, disc.buy, disc.sell, buyNow);
    }
    var available := AvailableAboveFloor(soc, floor.exportFloor, batteryKwh);
    var thr := DynamicSellThreshold(disc.sell, disc.buy, available, SiteExportKwhPerPeriod, BaseMinSellPrice,
                                    DesiredMargin);
    var opp := if IsOvernight(inp.hour, inp.sunriseHour)
               then AnalyzeOvernight(disc.sell, inp.hour, inp.sunriseHour, PeakEnd, DrainKwh(soc, batteryKwh),
                                     SiteExportKwhPerPeriod)
               else None;
    Context(soc, batteryKwh, buyNow, sellNow, disc.buy, disc.sell, cls, premium, floor, plan, available, thr, opp)
  }

  // ---------------------------------------------------------------------
  // The rules, in the order the script runs them
  // ---------------------------------------------------------------------

  /** Priority 100: a price spike of at least 100c is exported while SOC is above 5 %. */
  function SpikeRule(ctx: Context): (e: Effect)
    ensures forall c :: c in e.candidates ==> c == Candidate(Export, 100)
    ensures e.feedIn.None?
    ensures Candidate(Export, 100) in e.candidates <==> ctx.sellNow >= AlwaysSellPrice && ctx.soc > 5.0
  {
    if ctx.sellNow >= AlwaysSellPrice && ctx.soc > 5.0 then Register(Export, 100) else NoEffect
  }

  /** Priority 90: a negative buy price outside the peak is imported; the feed-in limit is left alone. */
  function PaidImportRule(hour: int, ctx: Context): (e: Effect)
    ensures forall c :: c in e.candidates ==> c == Candidate(Import, 90)
    ensures e.feedIn.None?
    ensures |e.candidates| > 0 <==> ctx.buyNow < 0.0 && !InPeak(hour)
  {
    if ctx.buyNow < 0.0 && !InPeak(hour) then Register(Import, 90) else NoEffect
  }

  /** Priorities 82/80: a negative sell price curtails a nearly full battery, else stays automatic; both cap feed-in at 10 W. */
  function NegativeFeedInRule(ctx: Context): (e: Effect)
    ensures forall c :: c in e.candidates ==> c == Candidate(AutoApiCurtail, 82) || c == Candidate(Auto, 80)
    ensures |e.candidates| > 0 <==> ctx.sellNow < 0.0
    ensures |e.candidates| > 0 ==> e.feedIn == Some(10.0)
    ensures |e.candidates| > 0 ==> (e.candidates[0].action == AutoApiCurtail <==> ctx.soc >= FullBattery - 2.0)
    ensures |e.candidates| == 0 ==> e.feedIn.None?
  {
    if ctx.sellNow < 0.0 then
      if ctx.soc >= FullBattery - 2.0 then Effect([Candidate(AutoApiCurtail, 82)], Some(10.0))
      else Effect([Candidate(Auto, 80)], Some(10.0))
    else NoEffect
  }

  /** The price the overnight drain accepts, by urgency. */
  function DrainThreshold(hrs: real, o: Selection): (t: real)
    ensures t > 0.0
  {
    if hrs <= 0.5 then 0.01
    else if o.currentIsGood then Max(0.01, o.worstAcceptablePrice)
    else if hrs <= 2.0 then BaseMinSellPrice * 0.5
    else BaseMinSellPrice * 0.7
  }

  /** The SOC kept for the house until sunrise, and never below the 10 % morning minimum. */
  function MinSafeSoc(hrs: real, batteryKwh: real): (m: real)
    requires batteryKwh > 0.0
    ensures m >= TargetMorningSocMin
  {
    Max(TargetMorningSocMin, (Max(0.0, hrs * HouseLoadKwhPerHour) / batteryKwh) * 100.0)
  }

  /**
   * Priority 65: with overnight sell periods ranked and SOC above the 20 %
   * morning maximum, export in a selected period, in the last hour before
   * sunrise, or in the last two hours when SOC is above 35 %, provided the
   * price clears the urgency threshold and SOC stays above the house reserve.
   */
  function OvernightDrainRule(hour: int, sunrise: real, ctx: Context): (e: Effect)
    requires ctx.batteryKwh > 0.0
    ensures forall c :: c in e.candidates ==> c == Candidate(Export, 65)
    ensures e.feedIn.None?
    ensures |e.candidates| > 0 <==>
      ctx.opportunity.Some? && ctx.soc > TargetMorningSocMax &&
      V77.DrainDue(V77.HoursToSunrise(hour, sunrise), ctx.opportunity.value, ctx.soc) &&
      ctx.sellNow >= DrainThreshold(V77.HoursToSunrise(hour, sunrise), ctx.opportunity.value) &&
      ctx.soc > MinSafeSoc(V77.HoursToSunrise(hour, sunrise), ctx.batteryKwh)
    ensures |e.candidates| > 0 ==> ctx.sellNow > 0.0
  {
    match ctx.opportunity
    case None => NoEffect
    case Some(o) =>
      var hrs := V77.HoursToSunrise(hour, sunrise);
      if ctx.soc > TargetMorningSocMax then
        var shouldSell := o.currentIsGood || hrs <= 1.0 || (hrs <= 2.0 && ctx.soc > TargetMorningSocMax + 15.0);
        if shouldSell && ctx.sellNow >= DrainThreshold(hrs, o) && ctx.soc > MinSafeSoc(hrs, ctx.batteryKwh) then
          Register(Export, 65)
        else NoEffect
      else NoEffect
  }

  /** The dynamic threshold, relaxed to 70 % from peak end until sunrise. */
  function AdjustedThreshold(hour: int, sunrise: real, ctx: Context): real
  {
    if IsOvernight(hour, sunrise) then ctx.threshold * 0.7 else ctx.threshold
  }

  /** Priority 60: export when energy is above the floor and the price clears the (adjusted) dynamic threshold. */
  function ArbitrageSellRule(hour: int, sunrise: real, ctx: Context): (e: Effect)
    ensures forall c :: c in e.candidates ==> c == Candidate(Export, 60)
    ensures e.feedIn.None?
    ensures |e.candidates| > 0 <==>
      ctx.sellNow >= 0.0 && ctx.availableKwh > 0.0 && ctx.sellNow >= AdjustedThreshold(hour, sunrise, ctx)
  {
    if ctx.sellNow >= 0.0 && ctx.availableKwh > 0.0 && ctx.sellNow >= AdjustedThreshold(hour, sunrise, ctx) then
      Register(Export, 60)
    else NoEffect
  }

  /** Priorities 45-50: import on the charging plan outside the peak. */
  function SmartChargeRule(hour: int, ctx: Context): (e: Effect)
    ensures forall c :: c in e.candidates ==> c == Candidate(Import, ctx.plan.priority)
    ensures e.feedIn.None?
    ensures |e.candidates| > 0 <==> ctx.plan.shouldCharge && !InPeak(hour)
  {
    if ctx.plan.shouldCharge && !InPeak(hour) then Register(Import, ctx.plan.priority) else NoEffect
  }

  /** Priority 40: a sell price at the forecast maximum that cannot be used because SOC is at the floor is logged. */
  function MissedSellRule(ctx: Context): (e: Effect)
    ensures forall c :: c in e.candidates ==> c == Candidate(Auto, 40)
    ensures e.feedIn.None?
    ensures |e.candidates| > 0 <==>
      |ctx.sellDisc| > 0 && ctx.availableKwh <= 0.0 && ctx.sellNow >= MaxOf(ctx.sellDisc) && ctx.sellNow >= BaseMinSellPrice
  {
    if |ctx.sellDisc| > 0 && ctx.availableKwh <= 0.0 && ctx.sellNow >= MaxOf(ctx.sellDisc) &&
       ctx.sellNow >= BaseMinSellPrice then
      Register(Auto, 40)
    else NoEffect
  }

  /** Every rule's effect, in execution order; the last is the priority-1 default. */
  function Effects(inp: Input, ctx: Context): (es: seq<Effect>)
    requires ctx.batteryKwh > 0.0
    ensures |es| == 8
  {
    [SpikeRule(ctx), PaidImportRule(inp.hour, ctx), NegativeFeedInRule(ctx),
     OvernightDrainRule(inp.hour, inp.sunriseHour, ctx), ArbitrageSellRule(inp.hour, inp.sunriseHour, ctx),
     SmartChargeRule(inp.hour, ctx), MissedSellRule(ctx), Register(Auto, 1)]
  }

  /** The applied action, and the feed-in limit if any rule assigned one. */
  datatype Output = Output(action: Action, feedInPowerLimitation: Option<real>)

  function Decide(inp: Input, ctx: Context): (out: Output)
    requires ctx.batteryKwh > 0.0
    ensures out.action == Auto || out.action == Import || out.action == Export || out.action == AutoApiCurtail
  {
    var es := Effects(inp, ctx);
    var cs := AllCandidates(es);
    assert Candidate(Auto, 1) in es[7].candidates;
    var w := Winner(cs);
    assert w.action == Auto || w.action == Import || w.action == Export || w.action == AutoApiCurtail by {
      var k :| 0 <= k < |es| && w in es[k].candidates;
      if k < 4 {
        assert w in es[0].candidates || w in es[1].candidates || w in es[2].candidates || w in es[3].candidates;
      } else {
        assert w in es[4].candidates || w in es[5].candidates || w in es[6].candidates || w in es[7].candidates;
      }
    }
    Output(w.action, LastAssignment(es))
  }

  /** One evaluation of the script. */
  function Run(inp: Input): (out: Output)
    ensures out.action == Auto || out.action == Import || out.action == Export || out.action == AutoApiCurtail
    ensures NumberOrZero(inp.sellPrice) >= AlwaysSellPrice && Prepare(inp).soc > 5.0 ==> out.action == Export
    ensures InPeak(inp.hour) ==> out.action != Import
    ensures inp.hour < 12 && NumberOrZero(inp.buyPrice) >= 0.0 ==> out.action != Import
  {
    var ctx := Prepare(inp);
    DecideGuarantees(inp, ctx);
    Decide(inp, ctx)
  }

  // ---------------------------------------------------------------------
  // Properties of the rule table, for any planning quantities
  // ---------------------------------------------------------------------

  /** The charging plan's priorities, which lie below every sell rule's. */
  predicate PlanBelowSells(ctx: Context) { ctx.plan.priority <= 50 }

  /**
   * The rule table: every candidate a rule can register, and for the
   * priorities above 65 the condition under which their rule fires.
   */
  lemma RuleTable(inp: Input, ctx: Context, c: Candidate)
    requires ctx.batteryKwh > 0.0 && PlanBelowSells(ctx)
    requires c in AllCandidates(Effects(inp, ctx))
    ensures c in {Candidate(Export, 100), Candidate(Import, 90), Candidate(AutoApiCurtail, 82), Candidate(Auto, 80),
                  Candidate(Export, 65), Candidate(Export, 60), Candidate(Import, ctx.plan.priority),
                  Candidate(Auto, 40), Candidate(Auto, 1)}
    ensures c == Candidate(Export, 100) ==> ctx.sellNow >= AlwaysSellPrice && ctx.soc > 5.0
    ensures c == Candidate(Import, 90) ==> ctx.buyNow < 0.0 && !InPeak(inp.hour)
    ensures c == Candidate(AutoApiCurtail, 82) ==> ctx.sellNow < 0.0 && ctx.soc >= FullBattery - 2.0
    ensures c == Candidate(Auto, 80) ==> ctx.sellNow < 0.0 && ctx.soc < FullBattery - 2.0
  {
    var es := Effects(inp, ctx);
    var k :| 0 <= k < |es| && c in es[k].candidates;
    if k < 4 {
      assert c in es[0].candidates || c in es[1].candidates || c in es[2].candidates || c in es[3].candidates;
    } else {
      assert c in es[4].candidates || c in es[5].candidates || c in es[6].candidates || c in es[7].candidates;
    }
  }

  lemma DecideSpike(inp: Input, ctx: Context)
    requires ctx.batteryKwh > 0.0 && PlanBelowSells(ctx)
    requires ctx.sellNow >= AlwaysSellPrice && ctx.soc > 5.0
    ensures Decide(inp, ctx).action == Export
  {
    var es := Effects(inp, ctx);
    assert Candidate(Export, 100) in es[0].candidates;
    forall c | c in AllCandidates(es) && c.priority >= 100
      ensures c.action == Export
    {
      RuleTable(inp, ctx, c);
    }
    TopBandDecides(AllCandidates(es), 100, Export);
  }

  lemma DecideNoImport(inp: Input, ctx: Context)
    requires ctx.batteryKwh > 0.0
    requires InPeak(inp.hour) || (!ctx.plan.shouldCharge && ctx.buyNow >= 0.0)
    ensures Decide(inp, ctx).action != Import
  {
    var es := Effects(inp, ctx);
    var cs := AllCandidates(es);
    assert forall k :: 0 <= k < |es| ==> forall c :: c in es[k].candidates ==> c.action != Import;
    assert Winner(cs) in cs;
  }

  /**
   * What every evaluation guarantees whatever the planning quantities: a
   * spike price with charge to spare exports, and nothing imports during
   * the peak or, at a non-negative buy price, before noon.
   */
  lemma DecideGuarantees(inp: Input, ctx: Context)
    requires ctx.batteryKwh > 0.0 && PlanBelowSells(ctx)
    requires inp.hour < 12 ==> !ctx.plan.shouldCharge
    ensures ctx.sellNow >= AlwaysSellPrice && ctx.soc > 5.0 ==> Decide(inp, ctx).action == Export
    ensures InPeak(inp.hour) ==> Decide(inp, ctx).action != Import
    ensures inp.hour < 12 && ctx.buyNow >= 0.0 ==> Decide(inp, ctx).action != Import
  {
    if ctx.sellNow >= AlwaysSellPrice && ctx.soc > 5.0 {
      DecideSpike(inp, ctx);
    }
    if InPeak(inp.hour) || (inp.hour < 12 && ctx.buyNow >= 0.0) {
      DecideNoImport(inp, ctx);
    }
  }

  lemma DecideFeedIn(inp: Input, ctx: Context)
    requires ctx.batteryKwh > 0.0
    ensures ctx.sellNow < 0.0 ==> Decide(inp, ctx).feedInPowerLimitation == Some(10.0)
    ensures ctx.sellNow >= 0.0 ==> Decide(inp, ctx).feedInPowerLimitation.None?
  {
    var es := Effects(inp, ctx);
    if ctx.sellNow < 0.0 {
      assert es[2].feedIn.Some?;
      assert forall j :: 2 < j < |es| ==> es[j].feedIn.None?;
    } else {
      assert forall k :: 0 <= k < |es| ==> es[k].feedIn.None?;
    }
  }

  lemma DecideNegativeFeedIn(inp: Input, ctx: Context)
    requires ctx.batteryKwh > 0.0 && PlanBelowSells(ctx)
    requires ctx.sellNow < 0.0 && !(ctx.buyNow < 0.0 && !InPeak(inp.hour))
    ensures Decide(inp, ctx).action == if ctx.soc >= FullBattery - 2.0 then AutoApiCurtail else Auto
  {
    var es := Effects(inp, ctx);
    var cs := AllCandidates(es);
    var a := if ctx.soc >= FullBattery - 2.0 then AutoApiCurtail else Auto;
    var p := if ctx.soc >= FullBattery - 2.0 then 82 else 80;
    assert Candidate(a, p) in es[2].candidates;
    forall c | c in cs && c.priority >= p
      ensures c.action == a
    {
      RuleTable(inp, ctx, c);
    }
    TopBandDecides(cs, p, a);
  }

  lemma DecideArbitrage(inp: Input, ctx: Context)
    requires ctx.batteryKwh > 0.0 && PlanBelowSells(ctx)
    requires ctx.buyNow >= 0.0 || InPeak(inp.hour)
    requires ctx.sellNow >= 0.0 && ctx.availableKwh > 0.0 && ctx.sellNow >= AdjustedThreshold(inp.hour, inp.sunriseHour, ctx)
    ensures Decide(inp, ctx).action == Export
  {
    var es := Effects(inp, ctx);
    assert Candidate(Export, 60) in es[4].candidates;
    forall c | c in AllCandidates(es) && c.priority >= 60
      ensures c.action == Export
    {
      RuleTable(inp, ctx, c);
    }
    TopBandDecides(AllCandidates(es), 60, Export);
  }

  lemma DecideDrain(inp: Input, ctx: Context)
    requires ctx.batteryKwh > 0.0 && PlanBelowSells(ctx)
    requires ctx.buyNow >= 0.0 || InPeak(inp.hour)
    requires ctx.opportunity.Some? && ctx.opportunity.value.currentIsGood
    requires ctx.sellNow >= DrainThreshold(V77.HoursToSunrise(inp.hour, inp.sunriseHour), ctx.opportunity.value)
    requires ctx.soc > TargetMorningSocMax && ctx.soc > MinSafeSoc(V77.HoursToSunrise(inp.hour, inp.sunriseHour), ctx.batteryKwh)
    ensures Decide(inp, ctx).action == Export
  {
    var es := Effects(inp, ctx);
    assert Candidate(Export, 65) in es[3].candidates;
    forall c | c in AllCandidates(es) && c.priority >= 65
      ensures c.action == Export
    {
      RuleTable(inp, ctx, c);
    }
    TopBandDecides(AllCandidates(es), 65, Export);
  }

  // ---------------------------------------------------------------------
  // Properties of the whole evaluation
  // ---------------------------------------------------------------------

  /**
   * The feed-in limit is assigned exactly when the sell price is negative,
   * and then to 10 W; otherwise it stays unset.
   */
  lemma FeedInOnlyOnNegativeSell(inp: Input)
    ensures Prepare(inp).sellNow < 0.0 ==> Run(inp).feedInPowerLimitation == Some(10.0)
    ensures Prepare(inp).sellNow >= 0.0 ==> Run(inp).feedInPowerLimitation.None?
  {
    DecideFeedIn(inp, Prepare(inp));
  }

  /**
   * A negative sell price, when no paid import applies, curtails a battery
   * at 98 % or more and otherwise leaves the inverter on automatic: every
   * higher band is empty and the lower ones cannot outrank it.
   */
  lemma NegativeSellDecides(inp: Input)
    requires Prepare(inp).sellNow < 0.0
    requires !(Prepare(inp).buyNow < 0.0 && !InPeak(inp.hour))
    ensures Run(inp).action == if Prepare(inp).soc >= FullBattery - 2.0 then AutoApiCurtail else Auto
  {
    DecideNegativeFeedIn(inp, Prepare(inp));
  }

  /** A price at or above the (adjusted) dynamic threshold with energy above the floor is exported unless buying pays. */
  lemma ArbitrageSellWins(inp: Input)
    requires Prepare(inp).buyNow >= 0.0 || InPeak(inp.hour)
    requires Prepare(inp).sellNow >= 0.0 && Prepare(inp).availableKwh > 0.0
    requires Prepare(inp).sellNow >= AdjustedThreshold(inp.hour, inp.sunriseHour, Prepare(inp))
    ensures Run(inp).action == Export
  {
    DecideArbitrage(inp, Prepare(inp));
  }

  /** A selected overnight period whose price clears the drain threshold is exported while SOC is above the house reserve. */
  lemma OvernightDrainWins(inp: Input)
    requires Prepare(inp).buyNow >= 0.0 || InPeak(inp.hour)
    requires Prepare(inp).opportunity.Some? && Prepare(inp).opportunity.value.currentIsGood
    requires Prepare(inp).sellNow >=
      DrainThreshold(V77.HoursToSunrise(inp.hour, inp.sunriseHour), Prepare(inp).opportunity.value)
    requires Prepare(inp).soc > TargetMorningSocMax
    requires Prepare(inp).soc > MinSafeSoc(V77.HoursToSunrise(inp.hour, inp.sunriseHour), Prepare(inp).batteryKwh)
    ensures Run(inp).action == Export
  {
    DecideDrain(inp, Prepare(inp));
  }
}
