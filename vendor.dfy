/**
 * The records the Feller Wiser controller hands out over its REST API,
 * already decoded: a device with its two identity blocks and its ordered
 * outputs, the load behind each output, and the bodies of the replies to
 * a load mutation.
 *
 * A JavaScript field that is absent or empty is falsy for `||`; both are
 * represented here by the empty string.
 */
module Vendor {

  datatype Option<+T> = None | Some(value: T) {
    function GetOr(default: T): T {
      match this
      case Some(v) => v
      case None => default
    }
  }

  /** The state union of a load: brightness-shaped or motion-shaped. */
  datatype State =
    | BriState(bri: int)
    | MotorState(running: bool, pos: int, angle: int)

  /** A load as returned by `GET loads/{id}` or inside a mutation reply. */
  datatype Load = Load(
    id: string,
    name: string,
    loadType: string,   // the vendor tag: "onoff" | "dim" | "motor" | "dali"
    subtype: string,
    device: string,     // the sub-kind that decides the capabilities
    channel: string,
    state: State)

  /** The "as shipped" identity block (`a`). */
  datatype AsShipped = AsShipped(
    fwId: string,
    hwId: string,
    fwRevision: string,
    commName: string,
    serialNr: string)

  /** The "configured" identity block (`c`). */
  datatype Configured = Configured(
    fwId: string,
    hwId: string,
    fwVersion: string,
    commName: string,
    serialNr: string)

  /** One output slot of a device; `load` is the id of the load behind it. */
  datatype Output = Output(load: int, outputType: string, subType: string)

  /** A device as returned by `GET devices/{id}`. */
  datatype DeviceDetail = DeviceDetail(
    id: string,
    a: AsShipped,
    c: Configured,
    outputs: seq<Output>)

  /** The reply to the on/off POST: a status and the load after the change. */
  datatype LoadResponse = LoadResponse(status: string, data: Load)

  /** The reply to the level POST, read as `{status, data: {bri}}`. */
  datatype LevelResponse = LevelResponse(status: string, bri: int)

  const Success: string := "success"
}
