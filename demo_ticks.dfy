/**
 * The integer step bodies of the demo light and thermostat ticks, as pure
 * step functions over the attributes they read and write.
 */
module DemoTicks {
  import opened Vendor

  const MaxLevel: int := 254

  /**
   * The on/off attribute and the current level (absent while null) of the
   * platform's one demo light (`this.light`); its colour is
   * `Bridged.DemoLight`.
   */
  datatype LightAttrs = LightAttrs(onOff: bool, level: Option<int>)

  /**
   * The light tick as written: ten steps brighter and on; past 254 the light
   * is switched off and, because the tick returns before writing the level,
   * the level attribute keeps its old value.
   */
  function LightTick(s: LightAttrs): (r: LightAttrs)
    ensures s.level.None? ==> r == s
    ensures r.level.Some? ==> r.onOff == (r.level != s.level)
    ensures s.level.Some? && s.level.value + 10 <= MaxLevel ==> r == LightAttrs(true, Some(s.level.value + 10))
    ensures s.level.Some? && s.level.value + 10 > MaxLevel ==> r == LightAttrs(false, s.level)
  {
    match s.level
    case None => s
    case Some(level) =>
      if level + 10 > MaxLevel then LightAttrs(false, s.level)
      else LightAttrs(true, Some(level + 10))
  }

  /**
   * Once the level passes 244 the tick as written is stuck: the light stays
   * off at a non-zero level forever instead of starting a new ramp.
   */
  lemma LightTickStalls(level: int)
    requires MaxLevel - 10 < level
    ensures LightTick(LightAttrs(true, Some(level))) == LightAttrs(false, Some(level))
    ensures LightTick(LightTick(LightAttrs(true, Some(level)))) == LightTick(LightAttrs(true, Some(level)))
  {
  }

  /** The light tick with the ramp restarting from level 0 once it passes 254. */
  function LightTickWrapping(s: LightAttrs): (r: LightAttrs)
    ensures s.level.None? ==> r == s
    ensures s.level.Some? ==> r.level.Some?
  {
    match s.level
    case None => s
    case Some(level) =>
      if level + 10 > MaxLevel then LightAttrs(false, Some(0))
      else LightAttrs(true, Some(level + 10))
  }

  /**
   * The corrected tick keeps the level within 0..254, moves it on every tick,
   * and keeps on/off in step with it: the light is on exactly when its level
   * is non-zero.
   */
  lemma LightTickWrappingKeepsRamp(s: LightAttrs)
    requires s.level.Some? && 0 <= s.level.value <= MaxLevel
    ensures LightTickWrapping(s).level.Some?
    ensures 0 <= LightTickWrapping(s).level.value <= MaxLevel
    ensures LightTickWrapping(s).level != s.level
    ensures LightTickWrapping(s).onOff <==> LightTickWrapping(s).level.value != 0
  {
  }

  const ThermoLow: int := 1600
  const ThermoHigh: int := 2300

  /** The thermostat tick: a null temperature counts as 16 °C; past 23 °C back to 16 °C, else one degree up. */
  function ThermoTick(local: Option<int>): (r: int)
    ensures local.None? ==> r == ThermoLow + 100
    // on the whole-degree grid from 16 to 23 degrees the cycle never leaves it
    ensures (local.None? || (ThermoLow <= local.value <= ThermoHigh && local.value % 100 == 0)) ==>
      ThermoLow <= r <= ThermoHigh && r % 100 == 0
    ensures local.Some? && local.value >= ThermoHigh ==> r == ThermoLow
    ensures local.GetOr(ThermoLow) < ThermoHigh ==> r == local.GetOr(ThermoLow) + 100
  {
    var t := local.GetOr(ThermoLow);
    if t >= ThermoHigh then ThermoLow else t + 100
  }
}
