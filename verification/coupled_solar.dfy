/**
 * The rule shared by sa_coupled_solar_script.py and qld_ac_coupled.py,
 * for a site whose second, battery-less inverter is AC-coupled: from that
 * inverter's solar, house and battery power work out how much the site
 * would push to the grid, and when the wholesale price (rrp) is negative
 * either let the solar run flat out, or cap feed-in at that amount; a
 * negative buy price always curtails. The action itself is always auto.
 */
module CoupledSolar {
  import opened Common

  /** Below this grid need (W) the second inverter's surplus is too large to curtail around. */
  const MaximizeBelow: real := -5000.0

  /** Readings of the second inverter, in watts. */
  datatype Readings = Readings(solarPower: real, batteryPower: real, housePower: real)

  /** `other_solar_power - other_house_power + other_battery_power` */
  function GridNeed(r: Readings): real
  {
    r.solarPower - r.housePower + r.batteryPower
  }

  /**
   * What the script assigns: the action, and the solar mode and feed-in
   * limit when it assigns them (None: the host's value stands).
   */
  datatype Output = Output(action: Action, solar: Option<SolarMode>, feedInPowerLimitation: Option<real>)

  /**
   * The decision, given the grid need, the rrp, the buy price and this
   * site's own `solar_power`. A negative buy price (with rrp below 100)
   * overrides maximize with curtail; the feed-in cap, when set, is the
   * surplus the second inverter exports, which exceeds this site's solar
   * power and is at most 5000 W.
   */
  function Decide(gridNeed: real, rrp: real, buyPrice: real, solarPower: real): (o: Output)
    ensures o.action == Auto
    ensures o.solar == Some(Curtail) <==> buyPrice < 0.0 && rrp < 100.0
    ensures o.solar == Some(Maximize) <==> rrp < 0.0 && gridNeed < MaximizeBelow && buyPrice >= 0.0
    ensures o.solar.Some? ==> o.solar == Some(Maximize) || o.solar == Some(Curtail)
    ensures o.solar.Some? ==> rrp < 100.0
    ensures o.feedInPowerLimitation.Some? <==> rrp < 0.0 && MaximizeBelow <= gridNeed < -solarPower
    ensures o.feedInPowerLimitation.Some? ==>
              o.feedInPowerLimitation.value == -gridNeed &&
              solarPower < o.feedInPowerLimitation.value <= -MaximizeBelow
    ensures o.feedInPowerLimitation.Some? ==> o.solar != Some(Maximize)
  {
    var o1 :=
      if rrp < 0.0 && gridNeed < MaximizeBelow then Output(Auto, Some(Maximize), None)
      else if rrp < 0.0 && gridNeed < -solarPower then Output(Auto, None, Some(-gridNeed))
      else Output(Auto, None, None);
    if buyPrice < 0.0 && rrp < 100.0 then o1.(solar := Some(Curtail)) else o1
  }
}
