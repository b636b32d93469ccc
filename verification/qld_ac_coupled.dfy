/**
 * qld_ac_coupled.py: the coupled-solar rule, reading the second inverter
 * with `inverters.get(0, {}).get(field, 0)` on a plain dictionary, so a
 * missing inverter or field reads as zero. An entry that is not a dict
 * has no `.get` (AttributeError); a field that is not a number cannot
 * take part in the arithmetic (TypeError).
 */
module QldAcCoupled {
  import opened Common
  import opened PyData
  import CoupledSolar

  /** `params.get(name, 0)` read as a number. */
  function FieldOrZero(params: map<Key, Value>, name: string): (r: Option<real>)
    ensures KStr(name) !in params ==> r == Some(0.0)
    ensures KStr(name) in params ==> r == AsNumber(params[KStr(name)])
  {
    AsNumber(DictGet(params, KStr(name), VInt(0)))
  }

  /** Lines 1-3 and the arithmetic of line 5 as far as it can fail. */
  function Read(inverters: map<Key, Value>): (r: Result<CoupledSolar.Readings>)
    ensures KInt(0) !in inverters ==> r == Ok(CoupledSolar.Readings(0.0, 0.0, 0.0))
    ensures r.Err? && r.error == AttributeError <==> KInt(0) in inverters && !inverters[KInt(0)].VDict?
    ensures r.Err? ==> r.error == AttributeError || r.error == TypeError
    ensures KInt(0) in inverters && inverters[KInt(0)].VDict? ==>
              var p := inverters[KInt(0)].entries;
              (r.Ok? <==> FieldOrZero(p, "house_power").Some? && FieldOrZero(p, "battery_power").Some? &&
                          FieldOrZero(p, "solar_power").Some?)
    ensures r.Ok? && KInt(0) in inverters ==>
              var p := inverters[KInt(0)].entries;
              r.value == CoupledSolar.Readings(FieldOrZero(p, "solar_power").value, FieldOrZero(p, "battery_power").value,
                                               FieldOrZero(p, "house_power").value)
  {
    var p := DictGet(inverters, KInt(0), VDict(map[]));
    if !p.VDict? then Err(AttributeError)
    else
      var house := FieldOrZero(p.entries, "house_power");
      var battery := FieldOrZero(p.entries, "battery_power");
      var solar := FieldOrZero(p.entries, "solar_power");
      if house.Some? && battery.Some? && solar.Some? then
        Ok(CoupledSolar.Readings(solar.value, battery.value, house.value))
      else Err(TypeError)
  }

  /** The whole script. */
  function Run(inverters: map<Key, Value>, rrp: real, buyPrice: real, solarPower: real)
    : (r: Result<CoupledSolar.Output>)
    ensures r.Err? ==> r.error == AttributeError || r.error == TypeError
    ensures r.Ok? == Read(inverters).Ok?
    ensures r.Ok? ==> r.value.action == Auto
    ensures r.Err? ==> r.error == Read(inverters).error
    ensures r.Ok? ==> r.value == CoupledSolar.Decide(CoupledSolar.GridNeed(Read(inverters).value), rrp, buyPrice, solarPower)
  {
    var rd := Read(inverters);
    if rd.Err? then Err(rd.error)
    else Ok(CoupledSolar.Decide(CoupledSolar.GridNeed(rd.value), rrp, buyPrice, solarPower))
  }

  /** With no inverter 0 every reading defaults to zero, so the grid need is zero. */
  lemma MissingInverterReadsZero(inverters: map<Key, Value>, rrp: real, buyPrice: real, solarPower: real)
    requires KInt(0) !in inverters
    ensures Run(inverters, rrp, buyPrice, solarPower) == Ok(CoupledSolar.Decide(0.0, rrp, buyPrice, solarPower))
  {
    var zero := CoupledSolar.Readings(0.0, 0.0, 0.0);
    assert Read(inverters) == Ok(zero);
    assert CoupledSolar.GridNeed(zero) == 0.0;
  }
}
