# Powston decision scripts, modelled in Dafny

The repository holds user scripts for the Powston home-battery
controller. On every dispatch interval the host fills a Python namespace with
the current buy and sell prices, the wholesale price (`rrp`), the battery's
state of charge, price forecasts, sunrise and the inverter readings. It runs
one script and reads back three variables: `action` (auto, import, export,
charge, discharge, fullstop, auto_api_curtail), `solar` (export, curtail,
maximize) and `feed_in_power_limitation`.

The model makes each script a pure function. The function takes the
namespace as an `Input` record and returns the variables the host reads.
A Python exception the script does not catch (`max([])`, a missing dict
key, an unbound name, a non-subscriptable `dict_keys`) becomes an `Err`
value of a `Result`.

| module | file | script |
|---|---|---|
| `Common` | common.dfy | Python arithmetic (`int()` truncation, `max`/`min`, `% 24`), forecast discounting |
| `PyData` | pydata.dfy | dynamically typed Python values and dict lookups |
| `Ranking` | ranking.dfy | Python's stable `sorted(..., key=price)` over forecast periods, and the rank of the current period |
| `Decisions` | decisions.dfy | the host's `decisions.reason(action, ..., priority=p)`: the highest-priority candidate wins |
| `ArbitrageV77`, `ScriptV77` | arbitrage_v77.dfy, script_v77.dfy | script7.7.py: helper functions, then the priority-ordered rules |
| `ArbitrageV65`, `ScriptV65` | arbitrage_v65.dfy, script_v65.dfy | script_v6.5.py: helper functions, then the priority-ordered rules |
| `ForecastRules` | forecast_rules.dfy | script.py: the 8-hour-forecast if/elif ladder |
| `Regional`, `VicRules`, `NswRules`, `SaRules` | regional.dfy, vic_rules.dfy, nsw_rules.dfy, sa_rules.dfy | the fixed regional schedules |
| `CoupledSolar`, `SaCoupledSolar`, `QldAcCoupled` | coupled_solar.dfy, sa_coupled_solar.dfy, qld_ac_coupled.dfy | the AC-coupled solar curtailment scripts |
| `InverterDictModel` | inverter_dict.dfy | `InverterDict` from test_script.py: a dict addressable by id, serial or position |

Floating-point values are modelled as Dafny `real`s. The half-hour forecast
period `i` starts at hour `(hour + i * 0.5) % 24`, except in the evening
premium (script7.7.py:228, 233 and script_v6.5.py:183), which reads entry
`i` as clock hour `(hour + i) % 24`; the model follows each. Python's `int(x)`
truncates toward zero and is written out as `PyInt`. The idiom
`max(1, int(x + 0.999))` is `PeriodsFor`. Its result is not always the
ceiling of `x`, and the model keeps that behaviour.

## Model

| member | source | states |
|---|---|---|
| Common.PyInt | script7.7.py:387-389 | Python's `int()` of a float truncates toward zero: the floor for a non-negative argument and the ceiling for a negative one |
| Common.PeriodsFor | script7.7.py:387-388 | the period count is at least 1, at most the larger of 1 and the amount plus 0.999, and more than the amount less 0.001 |
| Common.PeriodsForIsNotCeiling | script7.7.py:520 | an amount of 1.0005 periods is granted one period, so the count is not a ceiling |
| Common.Mod24 | script7.7.py:504 | the clock hour of a forecast period lies in [0, 24), differs from the unwrapped hour by a whole number of days, and an hour already in range is unchanged |
| Common.PyMax | vic_script.py:85-87 | `max()` of an empty list fails with ValueError; otherwise it returns a member that no element exceeds |
| Common.DiscountFirst | script_v6.5.py:130-136 | the result has the first `min(n, len)` entries, entry i scaled by the i-th power of the discount factor |
| Common.FirstIndexOf | script.py:135-138 | `list.index(v)`: a position holding `v` with no earlier one |
| Common.IndexOfMin | script.py:135-138 | `list.index(min(list))`: the position of a minimum with no equal minimum before it |
| PyData.AsNumber | script_v6.5.py:89-98 | `isinstance(x, (int, float))` succeeds exactly for bools, ints and floats, and yields their numeric value |
| PyData.DictGet | script_v6.5.py:104-114 | `d.get(k, default)` returns the stored value for a present key and the default otherwise |
| Ranking.SortStable | script7.7.py:519 | sorting periods by price keeps periods of equal price in forecast order, as Python's sort does |
| Ranking.SortOrdered | script7.7.py:570 | the sorted periods are ordered by price, ascending or descending as requested |
| Ranking.FirstLandsAfterItsBetters | script7.7.py:524-528 | after the sort, the current period sits behind exactly the periods that strictly beat its price |
| Ranking.AscendingRank | script7.7.py:405-410 | the current price is at most the k-th cheapest price iff at most k forecast prices are strictly cheaper |
| Ranking.DescendingRank | script_v6.5.py:340-345 | the current price is at least the k-th highest price iff at most k forecast prices are strictly higher |
| Ranking.NthHighest | script7.7.py:863-866 | the n-th highest price is a forecast price with fewer than n prices above it, and the least such price |
| Ranking.LeaderOfAscendingSort | script7.7.py:570-575 | the head of an ascending sort is the cheapest period, and the earliest among periods of equal price |
| Ranking.SelectTop | script7.7.py:519-528 | the best periods are the first `min(needed, len)` of the sort; the worst acceptable price is the last of them; the current period is good iff it is among them |
| Ranking.SelectTopDominates | script7.7.py:519-521 | every selected period is at least as good as every period left out |
| Ranking.SelectTopCurrentPresent | script7.7.py:524-528 | the current period's rank is one plus the number of periods strictly better; it is good iff fewer than `needed` are better |
| Ranking.SelectTopCurrentAbsent | script7.7.py:524-528 | when the current period is not in the window it has no rank and is never good |
| Decisions.Winner | script7.7.py:943-957 | the winning decision is a registered candidate of maximal priority, and the earliest such candidate |
| Decisions.LaterLowerNeverOverrides | script7.7.py:943-948 | registering a lower-priority decision after a higher one leaves the winner unchanged |
| Decisions.LaterHigherWins | script7.7.py:943-948 | a decision of strictly higher priority than all earlier ones becomes the winner |
| Decisions.TopBandDecides | script7.7.py:943-957 | if every candidate of the highest present priority has the same action, that action wins |
| Decisions.LastAssignment | script7.7.py:984-1205 | `feed_in_power_limitation` ends as the value of the last rule that assigned it, and is unset iff no rule did |
| ArbitrageV77.ApplyDiscount | script7.7.py:144-170 | empty for an empty forecast or a non-positive horizon; otherwise the first `min(hours, len)` entries, entry i scaled by `(1 + rate) ** i` |
| ArbitrageV77.SellDiscountLowersPrices | script7.7.py:805-814 | a positive sell price stays positive and never rises, and every one after the first falls strictly |
| ArbitrageV77.BuyDiscountRaisesPrices | script7.7.py:805-814 | discounting never lowers a non-negative buy price |
| ArbitrageV77.ClassifySolar | script7.7.py:194-198 | sunny iff irradiance reaches the sunny threshold; rainy iff it is below the normal threshold |
| ArbitrageV77.EveningPremium | script7.7.py:225-235 | the premium is the best spread between a daytime buy period and a peak sell period, or 0 when either window is empty |
| ArbitrageV77.ReserveSocIncreasing | script7.7.py:291-295 | more hours until sunrise need a strictly larger overnight reserve |
| ArbitrageV77.AllowedBudget | script7.7.py:314-325 | the export budget is between 0 and the weather class's base budget: 0 iff the evening premium does not exceed the 5c margin, half the base budget up to twice the margin, the whole of it beyond |
| ArbitrageV77.ComputeFloor | script7.7.py:238-337 | before peak the import floor is 100 and the export floor covers the night from peak; after peak both floors cover the hours to sunrise; the budget is the smaller of the allowed budget and the energy above the floor |
| ArbitrageV77.FloorStepsDown | script7.7.py:302-312 | from peak start to 23:00, with sunrise no later than peak start, both floors fall strictly with every hour |
| ArbitrageV77.FloorCanExceedFull | script7.7.py:331-337 | the floors are clamped at 0 only: a rainy 17:00 with sunrise at 6:00 on 50 kWh asks for 101.5% |
| ArbitrageV77.SmartCharging | script7.7.py:340-449 | no plan at or after peak or without enough forecast; a plan has priority 45, 48 or 50, and 45 or 48 only for an expensive price below the floor; there, 45 when now is strictly the cheapest pre-peak price, otherwise 45 when the capped peak revenue beats the cost of charging to the floor, else 48 when reaching the floor needs every remaining period, else no plan |
| ArbitrageV77.PhaseOneChargesAmongCheapest | script7.7.py:404-419 | with a cheap current price, the planner charges iff the periods needed to fill reach the periods left, or fewer than that many future prices are strictly cheaper |
| ArbitrageV77.NoChargeBeforeNoon | script7.7.py:381-392 | no charging plan exists before noon |
| ArbitrageV77.OvernightOpportunities | script7.7.py:452-538 | no result iff no forecast period falls in the drain window; otherwise the selected periods are window periods, at least the worst acceptable price, as many as needed or the whole window |
| ArbitrageV77.OvernightBestDominates | script7.7.py:519-521 | a selected overnight period sells at least as high as any window period left out |
| ArbitrageV77.OvernightCurrentRank | script7.7.py:524-528 | the current period is selected iff it starts in the drain window and fewer than the needed number of window periods sell strictly higher; its rank is one plus that count, and it has no rank outside the window |
| ArbitrageV77.NextBest | script7.7.py:541-575 | no answer iff no later period starts before the cut-off; otherwise the cheapest such period, the earliest of equal price, with its hour and price |
| ArbitrageV77.DynamicThreshold | script7.7.py:859-876 | the sell threshold is the largest of the base minimum, the rank threshold and the cheapest positive buy plus the margin, or never-sell when nothing is left to sell |
| ArbitrageV77.MinPositiveOrZero | script7.7.py:870-873 | the smallest strictly positive buy price, or 0 when there is none |
| ArbitrageV77.ScalarSanitise | script7.7.py:693-712 | a number passes through, else a dict's numeric `value` entry, else 0; it never raises |
| ScriptV77.Prepare | script7.7.py:726-912 | the derived context: discounted forecasts within the horizon, energy above the floor never negative, and no charging plan before noon |
| ScriptV77.SpikeRule | script7.7.py:968-975 | an export at priority 100 is registered iff the sell price reaches the spike price with more than 5% charge |
| ScriptV77.PaidImportRule | script7.7.py:984-1013 | outside peak a negative buy price registers import at 90 and a feed-in limit of 10 W when full, 10000 W otherwise |
| ScriptV77.DaytimeSellRule | script7.7.py:1015-1083 | export at 75 iff it is between sunrise and peak start with a sell price of at least 5c, that price is within 2c of the buy price or beats some discounted pre-peak buy by 3c, and SOC exceeds the reserve to PV generation plus 5 (before it starts) or the bridge to the next cheap charge plus 15 (after) |
| ScriptV77.OvernightDrainRule | script7.7.py:1092-1135 | export at 65 iff there is a drain opportunity, SOC is above the 20% morning target and the export floor, the drain is due (a selected period, sunrise within the hour, or within two hours with SOC above 35%) and the sell price clears the urgency threshold; a drain never sells at a price of 0 or below |
| ScriptV77.ArbitrageSellRule | script7.7.py:1144-1158 | export at 60 iff the sell price is non-negative and reaches the adjusted threshold with energy left above the floor |
| ScriptV77.SmartChargeRule | script7.7.py:1167-1175 | a planned charge outside peak registers import at the plan's priority and sets feed-in to the host's optimal value |
| ScriptV77.NegativeFeedInRule | script7.7.py:1184-1205 | a negative sell price with no charge plan registers curtail at 42 or auto at 41 and a 10 W or 10000 W limit |
| ScriptV77.MissedSellRule | script7.7.py:1213-1219 | auto at 40 iff no energy is left above the floor while the sell price is at least 5c and at least every discounted sell forecast |
| ScriptV77.Decide | script7.7.py:960-1264 | the resolved action is one of auto, import, export and auto_api_curtail |
| ScriptV77.RuleTable | script7.7.py:968-1219 | every registered candidate is one of the ten (action, priority) pairs of the rules, and the priority-100 and priority-90 ones only appear under their rule's condition |
| ScriptV77.DecideGuarantees | script7.7.py:968-1175 | whatever the planning quantities, with the charge plan at priority 50 or below: a spike price with more than 5% charge exports, and nothing imports during peak or, at a non-negative buy price, before noon when no plan charges then |
| ScriptV77.Run | script7.7.py:720-1264 | the action is auto, import, export or auto_api_curtail; a spike price with more than 5% charge exports; nothing imports during peak, nor before noon at a non-negative buy price |
| ScriptV77.DecideDaytimeSell | script7.7.py:968-1083 | for any planning quantities, with a non-negative buy price, a daytime sale the priority-75 rule registers is the exported action |
| ScriptV77.DaytimeSellWins | script7.7.py:1015-1083 | with a non-negative buy price, a daytime sale meeting the price opportunity and the SOC reserve exports |
| ScriptV77.ArbitrageSellWins | script7.7.py:1144-1158 | with a non-negative buy price, meeting the adjusted threshold exports |
| ScriptV77.OvernightDrainWins | script7.7.py:1092-1135 | a good overnight period above the drain price and above the floor exports |
| ScriptV77.NegativeFeedInSetsLimit | script7.7.py:1184-1205 | a negative sell price without a charge plan leaves 10 W when full and 10000 W otherwise |
| ScriptV77.ChargeRuleReplacesCurtailLimit | script7.7.py:988-1175 | when paid to import with a full battery and a charge plan, the charge rule's feed-in value replaces the 10 W curtail limit |
| ScriptV77.FeedInUntouched | script7.7.py:726 | with non-negative prices and no charge plan, the host's feed-in value comes back unchanged |
| ArbitrageV65.CleanNumberList | script_v6.5.py:89-98 | the numeric entries of a list in order, or the one-element default when there are none |
| ArbitrageV65.NumbersAppend | script_v6.5.py:89-98 | filtering numbers distributes over list concatenation |
| ArbitrageV65.NumbersOfNumeric | script_v6.5.py:89-98 | a list of numbers passes through the filter unchanged |
| ArbitrageV65.CombinedSoc | script_v6.5.py:101-119 | the combined charge is the mean of the inverter readings (times their number it gives their sum), so it lies between the smallest and largest; with no readings it is the host's value, or 0 if that is not numeric |
| ArbitrageV65.SocReadingsAllPresent | script_v6.5.py:104-114 | every listed inverter with a numeric charge contributes its reading, in order |
| ArbitrageV65.CapacityWh | script_v6.5.py:604-612 | the capacity is the host's positive value, or the configured default |
| ArbitrageV65.UncertaintyDiscount | script_v6.5.py:122-144 | the kept forecast entries are scaled per period ahead; an empty result is replaced by the sentinel price |
| ArbitrageV65.SellDiscountLowers | script_v6.5.py:132-136 | a discounted sell price is at most the original, and strictly less after the first period |
| ArbitrageV65.ClassifyTimePeriod | script_v6.5.py:147-155 | peak iff the hour is within peak; day iff after sunrise and before peak |
| ArbitrageV65.ClassifySolarForecast | script_v6.5.py:158-169 | sunny iff irradiance reaches the sunny threshold, rainy iff below the normal one, normal when unknown |
| ArbitrageV65.SolarClassMonotone | script_v6.5.py:158-169 | more irradiance never gives a worse weather class |
| ArbitrageV65.ScaledBudget | script_v6.5.py:288-295 | the budget is between 0 and the base budget: 0 iff the premium does not exceed the 5c margin, half the base budget up to twice the margin, the whole of it beyond |
| ArbitrageV65.AvailableAboveFloor | script_v6.5.py:298-301 | the energy above the floor in kWh, or 0 at or below the floor |
| ArbitrageV65.ComputeFloorAndBudget | script_v6.5.py:204-314 | the export floor is the base floor plus the night reserve; the import floor is 100 before 16:00 and the export floor after; the budget is the smaller of the scaled budget and the energy above the floor |
| ArbitrageV65.HeaderFloors | script_v6.5.py:226-261 | before 16:00, with sunrise at 6:00 on 50 kWh, the export floors are 71, 91 and 116% for sunny, normal and rainy |
| ArbitrageV65.FloorStepsDown | script_v6.5.py:268-285 | from 16:00 to 23:00, with sunrise no later than 16:00, the export floor falls strictly with every hour |
| ArbitrageV65.DynamicSellThreshold | script_v6.5.py:317-359 | the threshold is the largest of the base price, the rank threshold and the cheapest buy plus margin, or never-sell |
| ArbitrageV65.OvernightWindow | script_v6.5.py:376-398 | the window holds exactly the forecast periods that start strictly after peak end and before sunrise, in forecast order |
| ArbitrageV65.AnalyzeOvernight | script_v6.5.py:362-439 | no result iff no period falls in the window; otherwise the selected periods come from the window and sell at least at the worst acceptable price |
| ArbitrageV65.OvernightBestDominates | script_v6.5.py:410-416 | a selected period sells at least as high as any window period left out |
| ArbitrageV65.OvernightCurrentRank | script_v6.5.py:420-427 | the current period is good iff it is in the window with fewer than `needed` periods selling higher, and its rank counts those |
| ArbitrageV65.PriceOr9999 | script_v6.5.py:497-499 | a non-numeric forecast price is read as 9999 |
| ArbitrageV65.ScanBeforePeak | script_v6.5.py:485-505 | the scan keeps the consecutive periods from now that start before peak |
| ArbitrageV65.AnalyzeDaytimeCharging | script_v6.5.py:442-558 | solar alone iff the surplus covers the need; no periods iff none start before peak; otherwise the selected periods are the cheapest of the scan |
| ArbitrageV65.DaytimeCurrentRank | script_v6.5.py:530-537 | the current period is selected iff fewer than the needed number of pre-peak periods are strictly cheaper, and its rank is one plus that count |
| ArbitrageV65.ChargeBlock | script_v6.5.py:756-863 | no plan at or after 16:00 or without enough forecast; a plan has priority 45, 48 or 50, and 45 or 48 only for an expensive price below the floor; there, 45 when now is strictly the cheapest pre-peak price, otherwise 45 when the capped peak revenue beats the cost of charging to the floor, else 48 when reaching the floor needs every remaining period, else no plan |
| ArbitrageV65.PhaseOneChargesAmongCheapest | script_v6.5.py:793-816 | with a cheap price the block charges iff the periods to fill reach the periods left or fewer that many prices are strictly cheaper |
| ArbitrageV65.ProfitableNeverFires | script_v6.5.py:777-786 | with at most eight discounted sell prices the peak average is 0, so the profitable-charge branch is never taken |
| ArbitrageV65.NoChargeBeforeNoon | script_v6.5.py:756-774 | no charging plan exists before noon |
| ScriptV65.Prepare | script_v6.5.py:604-901 | the context has a positive capacity, discounted forecasts within the horizon, a non-empty sell forecast and no charge plan before noon |
| ScriptV65.NumberOrZero | script_v6.5.py:615-623 | a numeric price passes through and anything else reads as 0 |
| ScriptV65.SpikeRule | script_v6.5.py:914-921 | export at 100 iff the sell price reaches the spike price with more than 5% charge |
| ScriptV65.PaidImportRule | script_v6.5.py:926-934 | import at 90 iff the buy price is negative outside peak |
| ScriptV65.NegativeFeedInRule | script_v6.5.py:939-959 | a negative sell price registers curtail at 82 when nearly full or auto at 80, with a 10 W limit |
| ScriptV65.MinSafeSoc | script_v6.5.py:981-983 | the safe charge is never below the morning minimum |
| ScriptV65.OvernightDrainRule | script_v6.5.py:970-1040 | export at 65 iff there is an opportunity, SOC is above 20% and above the safe charge, the drain is due (a selected period, sunrise within the hour, or within two hours with SOC above 35%) and the price clears the urgency threshold; a drain never sells at a price of 0 or below |
| ScriptV65.ArbitrageSellRule | script_v6.5.py:1045-1061 | export at 60 iff the price is non-negative and reaches the adjusted threshold with energy left |
| ScriptV65.SmartChargeRule | script_v6.5.py:1070-1078 | import at the plan's priority iff a charge is planned outside peak |
| ScriptV65.MissedSellRule | script_v6.5.py:1083-1089 | auto at 40 iff nothing is left to sell while the price is the forecast maximum |
| ScriptV65.Decide | script_v6.5.py:909-1181 | the action is one of auto, import, export and auto_api_curtail |
| ScriptV65.RuleTable | script_v6.5.py:914-1089 | every registered candidate is one of the nine (action, priority) pairs of the rules, and those at 80 and above only appear under their rule's condition |
| ScriptV65.DecideGuarantees | script_v6.5.py:914-1078 | whatever the planning quantities, with the charge plan at priority 50 or below: a spike price with more than 5% charge exports, and nothing imports during peak or, at a non-negative buy price, before noon when no plan charges then |
| ScriptV65.Run | script_v6.5.py:604-1181 | the action is auto, import, export or auto_api_curtail; a spike price with more than 5% charge exports; nothing imports during peak, nor before noon at a non-negative buy price |
| ScriptV65.FeedInOnlyOnNegativeSell | script_v6.5.py:939-959 | the feed-in limit is 10 W iff the sell price is negative, and unset otherwise |
| ScriptV65.NegativeSellDecides | script_v6.5.py:939-959 | a negative sell price, not paid to import, gives curtail when nearly full and auto otherwise |
| ScriptV65.ArbitrageSellWins | script_v6.5.py:1045-1061 | meeting the adjusted threshold exports unless paid to import |
| ScriptV65.OvernightDrainWins | script_v6.5.py:970-1040 | a good overnight period above the drain price exports when the battery is above the safe charge |
| ForecastRules.UpdateReason | script.py:80 | the reason is the text's prefix of at most 256 characters, and the whole text when it fits |
| ForecastRules.UpdateReasonIdempotent | script.py:80 | trimming an already trimmed reason changes nothing |
| ForecastRules.StartChargingTime | script.py:91-97 | charging starts one to two hours before the full-charge time needed ahead of peak |
| ForecastRules.StartChargingTimeMonotone | script.py:91-97 | a fuller battery never starts charging earlier |
| ForecastRules.ReserveFactor | script.py:123-128 | the factor is in [0, 1], is 1 outside the solar ramp, and is 0 only at its end |
| ForecastRules.ReserveFactorRamps | script.py:123-128 | within the ramp the factor strictly falls as the hours grow |
| ForecastRules.HoursUntilLowestBuy | script.py:131-138 | 99 for an empty forecast; otherwise the first position of the minimum |
| ForecastRules.EffectiveHousePower | script.py:142 | the larger of measured and minimum house power per inverter |
| ForecastRules.DiscountForecasts | script.py:154-173 | usable forecasts are discounted per period; otherwise both become the invalid-price sentinels |
| ForecastRules.DiscountDirection | script.py:162-169 | discounting raises buy prices and lowers positive sell prices |
| ForecastRules.SearchOpportunity | script.py:344-351 | found iff some buy price is below a later sell price |
| ForecastRules.Prepare | script.py:120-173 | daytime iff solar power flows before peak; the opportunity flag is the buy-low-sell-high test |
| ForecastRules.ForecastBranch | script.py:299-376 | the forecast branch exports only when selling at the forecast maximum or when the fallback did |
| ForecastRules.Run | script.py:208-385 | the action is auto, import or export and the solar mode export or curtail |
| ForecastRules.ChargeForPeakImports | script.py:208-220 | the charge-for-peak condition imports |
| ForecastRules.NegFitImportUnreachable | script.py:235-245 | the negative-feed-in import rule is never the one chosen |
| ForecastRules.AlwaysSellExports | script.py:222-232 | a price at the always-sell level exports unless charging for peak or panic buying |
| ForecastRules.PanicBuyImports | script.py:378-380 | between 14:00 and 16:00 a low battery and a buy price below 30 import |
| ForecastRules.OverrideOnlyImports | script.py:378-380 | the panic override only ever changes the action to import and never the solar mode |
| ForecastRules.NegativeRrpCapsFeedIn | script.py:383-385 | the feed-in limit is 0 iff rrp is negative and unset otherwise |
| ForecastRules.ExportNeedsPrice | script.py:222-327 | every export happens at a sell price of at least the daytime minimum |
| ForecastRules.CurtailOnlyWhenFull | script.py:261-271 | curtailment happens only with a negative sell price and a full battery |
| ForecastRules.PeakImportOnlyWhenCheap | script.py:330-376 | an import during peak needs a cheap buy price, or a low battery before sunrise |
| ForecastRules.ReasonLength | script.py:80 | the reason begins with the trimmed rule text and grows only by the two fixed suffixes |
| Regional.BestUpcomingRule | vic_script.py:85-99 | the rule fails iff it applies to an empty forecast; it exports iff every forecast price is within the margin of the current price |
| VicRules.Bands | vic_script.py:17-67 | every hour of the day picks an action; between 15:00 and 21:00 export iff the price is high with the desired charge |
| VicRules.UseItOrLoseIt | vic_script.py:69-83 | the overrides keep the band's action or export, and rrp above 800 with more than 30% always exports |
| VicRules.Run | vic_script.py:1-99 | the script fails only on an empty forecast late in the day; it exports iff one of its export conditions holds |
| NswRules.Bands | nsw_script.py:12-68 | an action is picked at every hour except 15:00-21:00 with a negative rrp |
| NswRules.Actions | nsw_script.py:12-88 | fails only on an empty forecast late with a full battery; exports iff one of its export conditions holds |
| NswRules.Run | nsw_script.py:47-49 | as written: the zero feed-in limit lands in a variable the host never reads |
| NswRules.RunCorrected | nsw_script.py:47-49 | corrected: the feed-in limit is 0 iff rrp is negative |
| NswRules.NegativeRrpNotCapped | nsw_script.py:47-57 | at 18:00 with rrp -20 the script as written sets no limit, while the corrected one caps feed-in at 0 |
| SaRules.ChargeIn | sa_script.py:73-75 | 'charge' occurs in exactly the words charge and discharge |
| SaRules.AutoIn | sa_script.py:77-79 | 'auto' occurs in exactly auto and auto_api_curtail |
| SaRules.StoppedInNone | sa_script.py:39-41 | no action word contains 'stopped', so the line 39 rule never fires |
| SaRules.Opening | sa_script.py:2-15 | export iff the sell price is above 25, or above 20 with more than half a charge; otherwise auto |
| SaRules.ChargeCostBetween | sa_script.py:17-18 | the charge cost of six or more prices lies between the cheapest and the dearest |
| SaRules.Evening | sa_script.py:21-29 | discharge iff, outside 7:00-17:00, an export sells below replacement cost |
| SaRules.AfterSanity | sa_script.py:31-45 | after the sanity check an export needs a sell price of 18 and an rrp of 180 |
| SaRules.Middle | sa_script.py:60-75 | no charge or discharge survives; a new export needs rrp above 300 |
| SaRules.FeedIn | sa_script.py:56-66 | 1000 W while curtailing below 95%, else 25000 W iff rrp is positive |
| SaRules.Run | sa_script.py:1-89 | fails only on an empty sell forecast; fullstop iff paid to import with rrp below -100 and above 95%; an export always has rrp of at least 180 |
| CoupledSolar.Decide | qld_ac_coupled.py:5-20 | always auto; curtail iff the buy price is negative and rrp below 100; maximize iff rrp is negative, the net need below -5000 and the buy price not negative; a feed-in limit iff rrp is negative and the need between -5000 and minus the solar power, the limit then being minus the need |
| SaCoupledSolar.ReadParams | sa_coupled_solar_script.py:5-7 | the readings come back iff all three fields are present and numeric |
| SaCoupledSolar.Run | sa_coupled_solar_script.py:1-23 | NameError iff the inverter key is absent; otherwise the shared decision on the grid need |
| QldAcCoupled.Read | qld_ac_coupled.py:1-3 | a missing inverter 0 reads as all zeros; a non-dict entry raises AttributeError; a dict entry reads iff all three fields are missing or numeric, and then gives each field's number, 0 when missing |
| QldAcCoupled.Run | qld_ac_coupled.py:1-20 | fails exactly when the readings fail, with their error; otherwise always auto, decided on solar minus house plus battery power of inverter 0 |
| QldAcCoupled.MissingInverterReadsZero | qld_ac_coupled.py:1-5 | without inverter 0 the script decides on a grid need of 0 |
| InverterDictModel.Set | test_script.py:27-29 | `self[k] = v`: the key now maps to v, no other key changes, and insertion order is kept |
| InverterDictModel.AddInverter | test_script.py:15-29 | without an id or a serial nothing changes; otherwise the id, the serial and `inverter_params_<id>` all map to the parameters |
| InverterDictModel.New | test_script.py:11-13 | `InverterDict(**kwargs)` holds the positional entries updated by the keywords; with an id and a serial the three inverter keys map to the keyword dict, without either nothing more is added, and every other key keeps its updated value |
| InverterDictModel.LastKeyword | test_script.py:12 | the value of the last keyword argument naming a key, and none iff no keyword names it |
| InverterDictModel.Update | test_script.py:12 | `dict.update(**kwargs)`: the keys are the old ones plus the keywords; a key named by a keyword maps to the last such keyword's value, every other key keeps its lookup |
| InverterDictModel.NewWithoutKeywords | test_script.py:11-13 | with no keywords the constructor adds nothing |
| InverterDictModel.GetItem | test_script.py:31-48 | an int key raises TypeError; a known string key gives its entry; an unknown one gives an empty dict |
| InverterDictModel.Get | test_script.py:50-57 | `get` passes the TypeError through, since it catches only KeyError and IndexError |
| InverterDictModel.GetIgnoresDefault | test_script.py:44-57 | for a string key the default is never returned |
| InverterDictModel.GetIntKeyRaises | test_script.py:39-42 | `get(i, default)` with an int key always raises TypeError |
| InverterDictModel.GetItemCorrected | test_script.py:39-42 | corrected: an int key selects by insertion position, negative from the end, and IndexError out of range |
| InverterDictModel.GetCorrected | test_script.py:50-57 | corrected: `get` never fails, and returns the default for an out-of-range position |
| InverterDictModel.IndexAccessRaises | test_script.py:39-42 | with one inverter, `get(0, {})` raises TypeError as written and returns its parameters when corrected |

## Left out

- Reason text and logging are not modelled: `reason`, `build_kiosk_info` in script7.7.py, the next-charge and next-discharge logging at script_v6.5.py:1096-1143, and the final context line.
- Python's `round()` in logged values, and the rounding of `next_best`'s hour, are left out, because they only reach the reason text.
- Datetime arithmetic becomes plain inputs: the sunrise hour, the hours until sunrise and sunset, "before sunrise", SA's `daytime` and NSW's "before solar production time". Timezone handling is out of scope.
- The MQTT and weather lookups that supply the irradiance (GTI) value are left out; the value and its source are inputs. Their `NameError` guards go with them.
- ScriptV77.Prepare: requires a non-zero battery capacity and charge and discharge rates on every input. The source divides by them only on some paths: by the charge rate in `smart_charging` (script7.7.py:387-388), by the discharge rate in `overnight_opportunities` and the sell threshold (script7.7.py:520, 865), by the capacity in the reserve and daytime-sell arithmetic (script7.7.py:294, 309, 1046, 1069). A zero value raises ZeroDivisionError only when such a path runs; the inputs with a zero value that never reach one are not modelled.
- ForecastRules.Prepare: requires a non-zero battery capacity for the same reason.
- ForecastRules.DiscountForecasts: forecasts are lists of reals. A non-numeric entry makes the source raise an uncaught TypeError, from `min()` at script.py:135 or from `v <= 0` at script.py:156, which the `except ValueError` at script.py:170 does not catch; that failure is not modelled.
- ArbitrageV77.ScalarSanitise: strings that `float()` would parse are treated as non-numeric.
- sa_script.py's `pow(1.5, 1 - soc/100)` is a floating-point power passed in as a function parameter.
- In `InverterDict`, `str()` of an arbitrary key is a function parameter.
- Floating-point rounding is not modelled; every price, charge and power is an exact real.
- The regional scripts read the inverters as a plain Python dict; the QLD script on an `InverterDict` would raise TypeError (InverterDictModel.GetIntKeyRaises), and that pairing is not modelled.
- sim_script.py and the `TestUserScript` unit tests are not part of this model.

## Findings

| source | as written | input that shows it | evidently intended | confidence | as-written member | corrected member |
|---|---|---|---|---|---|---|
| nsw_script.py:47-49 | a negative rrp sets `feed_in_limitation = 0`, a name the host never reads | hour 18, rrp -20, sell 5, buy 10, charge 50%: the host receives no feed-in limit | `feed_in_power_limitation = 0`, as in every other script | high, not executed | NswRules.Run, NswRules.NegativeRrpNotCapped | NswRules.RunCorrected |
| test_script.py:39-42 | index access calls `self.keys()[key]`, and `dict_keys` is not subscriptable, so every int key raises TypeError, which `get` does not catch | one registered inverter, then `get(0, {})` | `list(self.keys())[key]`, selecting the entry by insertion position | high, not executed | InverterDictModel.GetItem, InverterDictModel.Get, InverterDictModel.IndexAccessRaises | InverterDictModel.GetItemCorrected, InverterDictModel.GetCorrected |
