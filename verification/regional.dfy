/**
 * Pieces shared by the short regional scripts (vic_script.py,
 * nsw_script.py): the "sell when the current price is within a margin of
 * the best price still to come" override.
 */
module Regional {
  import opened Common

  /**
   * `if applies: best = max(sell_forecast); if best < sell + margin:
   * action = 'export'`. The forecast maximum is only taken when the rule
   * applies, so an empty forecast fails only then.
   */
  function BestUpcomingRule(applies: bool, sellPrice: real, sellForecast: seq<real>, margin: real,
                            action: Option<Action>): (r: Result<Option<Action>>)
    ensures r.Err? <==> applies && |sellForecast| == 0
    ensures r.Err? ==> r.error == ValueError
    ensures r.Ok? ==> r.value == action || r.value == Some(Export)
    ensures r.Ok? && r.value != action ==>
              applies && forall i :: 0 <= i < |sellForecast| ==> sellForecast[i] < sellPrice + margin
    ensures applies && |sellForecast| > 0 && MaxOf(sellForecast) < sellPrice + margin ==> r == Ok(Some(Export))
    ensures applies && |sellForecast| > 0 && MaxOf(sellForecast) >= sellPrice + margin ==> r == Ok(action)
  {
    if !applies then Ok(action)
    else
      match PyMax(sellForecast)
      case Err(e) => Err(e)
      case Ok(best) => Ok(if best < sellPrice + margin then Some(Export) else action)
  }
}
