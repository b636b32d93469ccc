/**
 * sa_coupled_solar_script.py: reads the second inverter from the host's
 * `inverters` dictionary under 'inverter_params_71876' and applies the
 * coupled-solar rule. Without that entry `other_solar_power` is never
 * bound and the script stops with a NameError.
 */
module SaCoupledSolar {
  import opened Common
  import opened PyData
  import CoupledSolar

  const ParamsKey: Key := KStr("inverter_params_71876")

  /** `params[name]`: a KeyError when the field is missing. */
  function Field(params: map<Key, Value>, name: string): (r: Result<Value>)
    ensures r.Ok? <==> KStr(name) in params
    ensures r.Ok? ==> r.value == params[KStr(name)]
    ensures r.Err? ==> r.error == KeyError
  {
    if KStr(name) in params then Ok(params[KStr(name)]) else Err(KeyError)
  }

  /**
   * Lines 5-8: the three subscripts, in source order, and the arithmetic
   * that combines them. Subscripting anything but a dict, or combining
   * anything but numbers, is a TypeError.
   */
  function ReadParams(v: Value): (r: Result<CoupledSolar.Readings>)
    ensures r.Ok? <==> v.VDict? &&
                       (forall f :: f in ["solar_power", "battery_power", "house_power"] ==>
                          KStr(f) in v.entries && AsNumber(v.entries[KStr(f)]).Some?)
    ensures r.Ok? ==> r.value == CoupledSolar.Readings(AsNumber(v.entries[KStr("solar_power")]).value,
                                                       AsNumber(v.entries[KStr("battery_power")]).value,
                                                       AsNumber(v.entries[KStr("house_power")]).value)
    ensures r.Err? && r.error == KeyError ==> v.VDict?
    ensures r.Err? ==> r.error == KeyError || r.error == TypeError
  {
    if !v.VDict? then Err(TypeError)
    else
      match Field(v.entries, "solar_power")
      case Err(e) => Err(e)
      case Ok(s) =>
        match Field(v.entries, "battery_power")
        case Err(e) => Err(e)
        case Ok(b) =>
          match Field(v.entries, "house_power")
          case Err(e) => Err(e)
          case Ok(h) =>
            if AsNumber(s).Some? && AsNumber(b).Some? && AsNumber(h).Some?
            then Ok(CoupledSolar.Readings(AsNumber(s).value, AsNumber(b).value, AsNumber(h).value))
            else Err(TypeError)
  }

  /**
   * The whole script. `inverters and key in inverters` holds exactly when
   * the key is present; otherwise the script fails with a NameError.
   */
  function Run(inverters: map<Key, Value>, rrp: real, buyPrice: real, solarPower: real)
    : (r: Result<CoupledSolar.Output>)
    ensures r.Err? && r.error == NameError <==> ParamsKey !in inverters
    ensures r.Err? ==> r.error in {NameError, KeyError, TypeError}
    ensures r.Ok? ==> r.value.action == Auto
    ensures r.Ok? ==> ParamsKey in inverters &&
                      var rd := ReadParams(inverters[ParamsKey]);
                      rd.Ok? && r.value == CoupledSolar.Decide(CoupledSolar.GridNeed(rd.value), rrp, buyPrice, solarPower)
  {
    if |inverters| > 0 && ParamsKey in inverters then
      match ReadParams(inverters[ParamsKey])
      case Err(e) => Err(e)
      case Ok(rd) => Ok(CoupledSolar.Decide(CoupledSolar.GridNeed(rd), rrp, buyPrice, solarPower))
    else Err(NameError)
  }
}
