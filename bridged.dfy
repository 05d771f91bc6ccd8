/**
 * A bridged device as the host holds it after discovery, and the command
 * handlers `createFellerDevice` attaches to it. A handler's vendor round
 * trip is replaced by the vendor's reply, passed in as a parameter.
 */
module Bridged {
  import opened Vendor
  import opened Mapping

  /** The on/off reply is taken into account only when it succeeded with a brightness state. */
  predicate IsConfirmed(resp: LoadResponse) {
    resp.status == Success && IsOnOffState(resp.data.state)
  }

  /**
   * The on/off attribute after the `on` handler: the vendor is authoritative,
   * so the attribute follows whether the returned load is lit.
   */
  function ConfirmedOnOff(current: bool, resp: LoadResponse): (r: bool)
    ensures IsConfirmed(resp) ==> r == IsLit(resp.data.state)
    ensures !IsConfirmed(resp) ==> r == current
  {
    if resp.status == Success && IsOnOffState(resp.data.state) then resp.data.state.bri != 0 else current
  }

  /** The on/off attribute after the `off` handler, as the handler is written. */
  function OffFeedback(current: bool, resp: LoadResponse): (r: bool)
    ensures IsConfirmed(resp) ==> r == !IsLit(resp.data.state)
    ensures !IsConfirmed(resp) ==> r == current
  {
    if resp.status == Success && IsOnOffState(resp.data.state) then resp.data.state.bri == 0 else current
  }

  /**
   * The `off` handler as written reports the load as on exactly when the
   * vendor confirms it is off: a confirmed `bri` of 0 turns the attribute on.
   */
  lemma OffFeedbackInvertsConfirmedState(current: bool, resp: LoadResponse)
    requires IsConfirmed(resp)
    ensures OffFeedback(current, resp) != ConfirmedOnOff(current, resp)
    ensures resp.data.state.bri == 0 ==> OffFeedback(current, resp)
  {
  }

  /** A concrete reply that shows it: the vendor confirms the load is off. */
  lemma OffFeedbackCounterexample(current: bool, load: Load)
    requires load.state == BriState(0)
    ensures !IsLit(load.state)
    ensures OffFeedback(current, LoadResponse(Success, load)) == true
    ensures ConfirmedOnOff(current, LoadResponse(Success, load)) == false
  {
  }

  /**
   * The colour of the platform's one demo light (`this.light`), which the
   * dali colour handlers write. Its on/off and level, which the demo light
   * tick steps, are `DemoTicks.LightAttrs`.
   */
  class DemoLight {
    var hue: int
    var saturation: int
    var colorTemperatureMireds: int

    constructor (color: ColorAttrs)
      ensures hue == color.hue && saturation == color.saturation
      ensures colorTemperatureMireds == color.colorTemperatureMireds
    {
      hue := color.hue;
      saturation := color.saturation;
      colorTemperatureMireds := color.colorTemperatureMireds;
    }
  }

  class BridgedDevice {
    const deviceType: DeviceType
    const loadId: string
    const info: BasicInfo
    var onOff: Option<bool>
    var currentLevel: Option<int>
    var color: Option<ColorAttrs>

    /** The device as a value, for comparison with the discovery specification. */
    function Record(): DeviceRecord
      reads this
    {
      DeviceRecord(deviceType, loadId, info, Attributes(onOff, currentLevel, color))
    }

    constructor (r: DeviceRecord)
      ensures Record() == r
    {
      deviceType := r.deviceType;
      loadId := r.loadId;
      info := r.info;
      onOff := r.attrs.onOff;
      currentLevel := r.attrs.currentLevel;
      color := r.attrs.color;
    }

    /**
     * The `on` handler, registered only on a device with an on/off cluster.
     * The request carries no body; the attribute follows the reply.
     */
    method On(resp: LoadResponse)
      requires onOff.Some?
      modifies this`onOff
      ensures onOff == Some(ConfirmedOnOff(old(onOff).value, resp))
      ensures IsConfirmed(resp) ==> onOff == Some(IsLit(resp.data.state))
      ensures !IsConfirmed(resp) ==> onOff == old(onOff)
    {
      if resp.status == Success && IsOnOffState(resp.data.state) {
        onOff := Some(resp.data.state.bri != 0);
      }
    }

    /** The `off` handler, as written: it stores whether the returned `bri` is 0. */
    method Off(resp: LoadResponse)
      requires onOff.Some?
      modifies this`onOff
      ensures onOff == Some(OffFeedback(old(onOff).value, resp))
      ensures !IsConfirmed(resp) ==> onOff == old(onOff)
    {
      if resp.status == Success && IsOnOffState(resp.data.state) {
        onOff := Some(resp.data.state.bri == 0);
      }
    }

    /**
     * The `moveToLevel` handler, registered only on a device with a level
     * cluster: the level becomes the `bri` the vendor returns, whatever was
     * requested, and the reply's status is not looked at.
     */
    method MoveToLevel(level: int, resp: LevelResponse)
      requires currentLevel.Some?
      modifies this`currentLevel
      ensures currentLevel == Some(resp.bri)
    {
      currentLevel := Some(resp.bri);
    }

    /** The `moveToLevelWithOnOff` handler: the same round trip; on/off is not touched. */
    method MoveToLevelWithOnOff(level: int, resp: LevelResponse)
      requires currentLevel.Some?
      modifies this`currentLevel
      ensures currentLevel == Some(resp.bri)
    {
      currentLevel := Some(resp.bri);
    }
  }
}
