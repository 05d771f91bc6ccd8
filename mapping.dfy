/**
 * The pure part of the load-to-Matter mapping: the device type table, the
 * identity block built from `||` fallbacks, the capability seeding keyed on
 * `load.device`, and the whole discovery pass over one device stated as a
 * function of its outputs' loads.
 */
module Mapping {
  import opened Vendor

  /** The two device type definitions the table hands out. */
  datatype DeviceType = OnOffSwitch | Cover

  /** The type-tag table of `createFellerDevice`. */
  const DeviceMap: map<string, DeviceType> :=
    map["onoff" := OnOffSwitch, "dim" := OnOffSwitch, "motor" := Cover, "dali" := OnOffSwitch]

  const VendorId: int := 0xfff1
  const VendorName: string := "Feller AG"

  /** The guard that tells a brightness-shaped state from a motion state. */
  predicate IsOnOffState(s: State)
    // the two shapes exclude each other: a state without `bri` is a motion state
    ensures IsOnOffState(s) <==> !s.MotorState?
  {
    s.BriState?
  }

  /** The table lookup; `None` is an unsupported tag. */
  function Classify(tag: string): (r: Option<DeviceType>)
    ensures r == Some(OnOffSwitch) <==> tag == "onoff" || tag == "dim" || tag == "dali"
    ensures r == Some(Cover) <==> tag == "motor"
    ensures r == None <==> tag !in {"onoff", "dim", "motor", "dali"}
  {
    if tag in DeviceMap then Some(DeviceMap[tag]) else None
  }

  predicate Supported(l: Load) {
    Classify(l.loadType).Some?
  }

  /** JavaScript `a || b` on strings: an empty string counts as missing. */
  function Or(a: string, b: string): (r: string)
    ensures r == a || r == b
    ensures r == "" <==> a == "" && b == ""
    ensures a != "" ==> r == a
  {
    if a != "" then a else b
  }

  /** The decimal digit character of a value below ten. */
  function DigitChar(d: nat): (c: char)
    requires d < 10
    ensures '0' <= c <= '9'
    ensures c as int - '0' as int == d
  {
    ('0' as int + d) as char
  }

  predicate IsDigits(s: string) {
    forall k :: 0 <= k < |s| ==> '0' <= s[k] <= '9'
  }

  /**
   * The value a string of decimal digits denotes, most significant digit
   * first: the reading against which the printing of `String(index)` is
   * checked.
   */
  function DecValue(s: string): nat
    requires IsDigits(s)
  {
    if s == [] then 0 else 10 * DecValue(s[..|s| - 1]) + (s[|s| - 1] as int - '0' as int)
  }

  /** The decimal printing of `String(index)`: digits, most significant first, no leading zero. */
  function NatToString(n: nat): (s: string)
    ensures 1 <= |s|
    ensures n < 10 <==> |s| == 1
    ensures IsDigits(s)
    ensures DecValue(s) == n
    ensures s[0] == '0' <==> n == 0
  {
    if n < 10 then [DigitChar(n)]
    else
      var t := NatToString(n / 10);
      assert (t + [DigitChar(n % 10)])[..|t|] == t;
      t + [DigitChar(n % 10)]
  }

  /**
   * Distinct indices give distinct decimal strings: each string reads back,
   * by `DecValue`, as the index it was printed from.
   */
  lemma NatToStringInjective(a: nat, b: nat)
    ensures NatToString(a) == NatToString(b) ==> a == b
  {
    assert DecValue(NatToString(a)) == a && DecValue(NatToString(b)) == b;
  }

  /** The part of every serial number of a device that comes before `_index`. */
  function SerialPrefix(d: DeviceDetail): string {
    Or(d.c.serialNr, d.a.serialNr)
  }

  /** Whether `p` is a prefix of `s`. */
  predicate StartsWith(s: string, p: string) {
    |p| <= |s| && s[..|p|] == p
  }

  function SerialNumber(d: DeviceDetail, index: nat): (r: string)
    ensures StartsWith(r, SerialPrefix(d) + "_")
    ensures r[|SerialPrefix(d)| + 1..] == NatToString(index)
  {
    SerialPrefix(d) + "_" + NatToString(index)
  }

  /** Two outputs of one device get the same serial only at the same index. */
  lemma SerialNumberInjective(d: DeviceDetail, i: nat, j: nat)
    ensures SerialNumber(d, i) == SerialNumber(d, j) <==> i == j
  {
    if SerialNumber(d, i) == SerialNumber(d, j) {
      NatToStringInjective(i, j);
    }
  }

  /**
   * The identity block handed to the bridged basic information cluster.
   * The firmware and hardware ids keep the text that the source passes to
   * `Number(...)`; the hardware version string is always absent.
   */
  datatype BasicInfo = BasicInfo(
    name: string,
    serialNumber: string,
    vendorId: int,
    vendorName: string,
    productName: string,
    softwareVersion: string,
    softwareVersionString: string,
    hardwareVersion: string,
    hardwareVersionString: Option<string>)

  function BuildInfo(d: DeviceDetail, load: Load, index: nat): (r: BasicInfo)
    // the name: load name, then configured, then as-shipped commercial name
    ensures r.name in {load.name, d.c.commName, d.a.commName}
    ensures load.name != "" ==> r.name == load.name
    ensures load.name == "" ==> r.name == r.productName
    ensures r.name == "" <==> load.name == "" && d.c.commName == "" && d.a.commName == ""
    // the product name: configured, then as-shipped commercial name
    ensures r.productName in {d.c.commName, d.a.commName}
    ensures d.c.commName != "" ==> r.productName == d.c.commName
    ensures d.c.commName == "" ==> r.productName == d.a.commName
    // versions prefer the configured block
    ensures d.c.fwId != "" ==> r.softwareVersion == d.c.fwId
    ensures d.c.fwId == "" ==> r.softwareVersion == d.a.fwId
    ensures d.c.fwVersion != "" ==> r.softwareVersionString == d.c.fwVersion
    ensures d.c.fwVersion == "" ==> r.softwareVersionString == d.a.fwRevision
    ensures d.c.hwId != "" ==> r.hardwareVersion == d.c.hwId
    ensures d.c.hwId == "" ==> r.hardwareVersion == d.a.hwId
    ensures r.hardwareVersionString == None
    ensures r.vendorId == 0xfff1 && r.vendorName == "Feller AG"
    ensures r.serialNumber == SerialNumber(d, index)
  {
    BasicInfo(
      Or(load.name, Or(d.c.commName, d.a.commName)),
      SerialNumber(d, index),
      VendorId,
      VendorName,
      Or(d.c.commName, d.a.commName),
      Or(d.c.fwId, d.a.fwId),
      Or(d.c.fwVersion, d.a.fwRevision),
      Or(d.c.hwId, d.a.hwId),
      None)
  }

  /** Colour attributes of a colour control cluster. */
  datatype ColorAttrs = ColorAttrs(hue: int, saturation: int, colorTemperatureMireds: int)

  /**
   * The initial values the host library gives a cluster created without
   * arguments; the host library is not part of this model, so they are inputs.
   */
  datatype HostDefaults = HostDefaults(level: int, color: ColorAttrs)

  /** The attributes of a bridged device; `None` means the cluster is absent. */
  datatype Attributes = Attributes(
    onOff: Option<bool>,
    currentLevel: Option<int>,
    color: Option<ColorAttrs>)

  predicate HasOnOffDevice(l: Load) {
    l.device == "onoff" || l.device == "dim" || l.device == "dali"
  }

  predicate HasLevelDevice(l: Load) {
    l.device == "dim" || l.device == "dali"
  }

  /** Whether a state shows the load as lit. */
  predicate IsLit(s: State) {
    s.BriState? && s.bri != 0
  }

  /** The clusters beyond identity that a built device gets, and their seeds. */
  function SeedAttributes(load: Load, defaults: HostDefaults): (r: Attributes)
    ensures r.onOff.Some? <==> HasOnOffDevice(load) && IsOnOffState(load.state)
    ensures r.onOff.Some? ==> r.onOff.value == IsLit(load.state)
    ensures r.currentLevel.Some? <==> HasLevelDevice(load) && IsOnOffState(load.state)
    ensures r.currentLevel.Some? ==> r.currentLevel.value == defaults.level
    ensures r.color.Some? <==> load.device == "dali" && IsOnOffState(load.state)
    ensures r.color.Some? ==> r.color.value == defaults.color
    ensures r.color.Some? ==> r.currentLevel.Some?
    ensures r.currentLevel.Some? ==> r.onOff.Some?
  {
    if HasOnOffDevice(load) && IsOnOffState(load.state) then
      Attributes(
        Some(load.state.bri != 0),
        if HasLevelDevice(load) then Some(defaults.level) else None,
        if load.device == "dali" then Some(defaults.color) else None)
    else
      Attributes(None, None, None)
  }

  /** A bridged device as a value: what the registry holds once it is built. */
  datatype DeviceRecord = DeviceRecord(
    deviceType: DeviceType,
    loadId: string,
    info: BasicInfo,
    attrs: Attributes)

  function BuildDevice(d: DeviceDetail, load: Load, index: nat, defaults: HostDefaults): (r: DeviceRecord)
    requires Supported(load)
    ensures Classify(load.loadType) == Some(r.deviceType)
    ensures r.loadId == load.id
    ensures r.info == BuildInfo(d, load, index)
    ensures r.attrs == SeedAttributes(load, defaults)
  {
    DeviceRecord(Classify(load.loadType).value, load.id, BuildInfo(d, load, index), SeedAttributes(load, defaults))
  }

  /** A motor load becomes a cover with no capability from discovery. */
  lemma MotorLoadHasNoCapability(d: DeviceDetail, load: Load, index: nat, defaults: HostDefaults)
    requires load.loadType == "motor" && load.state.MotorState?
    ensures BuildDevice(d, load, index, defaults).deviceType == Cover
    ensures BuildDevice(d, load, index, defaults).attrs == Attributes(None, None, None)
  {
  }

  /**
   * The devices one discovery pass appends for the first `n` outputs, in
   * output-index order: one per supported load, none for the others.
   */
  function Discover(d: DeviceDetail, loads: seq<Load>, n: nat, defaults: HostDefaults): (r: seq<DeviceRecord>)
    requires n <= |loads|
    ensures |r| <= n
  {
    if n == 0 then []
    else if Supported(loads[n - 1]) then
      Discover(d, loads, n - 1, defaults) + [BuildDevice(d, loads[n - 1], n - 1, defaults)]
    else
      Discover(d, loads, n - 1, defaults)
  }

  /** The tags that one discovery pass warns about, in output-index order. */
  function UnsupportedTags(loads: seq<Load>, n: nat): (r: seq<string>)
    requires n <= |loads|
    ensures |r| <= n
    ensures forall k :: 0 <= k < |r| ==> Classify(r[k]) == None
  {
    if n == 0 then []
    else if Supported(loads[n - 1]) then UnsupportedTags(loads, n - 1)
    else UnsupportedTags(loads, n - 1) + [loads[n - 1].loadType]
  }

  /**
   * The indices of the supported outputs among the first `n`, ascending: the
   * reference against which `Discover` is checked.
   */
  function SupportedIndices(loads: seq<Load>, n: nat): (r: seq<nat>)
    requires n <= |loads|
    ensures forall k :: 0 <= k < |r| ==> r[k] < n && Supported(loads[r[k]])
    ensures forall j, k :: 0 <= j < k < |r| ==> r[j] < r[k]
    ensures forall i :: 0 <= i < n && Supported(loads[i]) ==> i in r
  {
    if n == 0 then []
    else if Supported(loads[n - 1]) then SupportedIndices(loads, n - 1) + [n - 1]
    else SupportedIndices(loads, n - 1)
  }

  /** The k-th discovered device is the one built for the k-th supported output. */
  lemma {:induction false} DiscoverFollowsOutputOrder(d: DeviceDetail, loads: seq<Load>, n: nat, defaults: HostDefaults)
    requires n <= |loads|
    ensures |Discover(d, loads, n, defaults)| == |SupportedIndices(loads, n)|
    ensures forall k :: 0 <= k < |Discover(d, loads, n, defaults)| ==>
      Discover(d, loads, n, defaults)[k] == BuildDevice(d, loads[SupportedIndices(loads, n)[k]], SupportedIndices(loads, n)[k], defaults)
  {
    if n > 0 {
      DiscoverFollowsOutputOrder(d, loads, n - 1, defaults);
    }
  }

  /** Every output is accounted for: it yields either a device or a warning. */
  lemma {:induction false} EveryOutputDevicedOrWarned(d: DeviceDetail, loads: seq<Load>, n: nat, defaults: HostDefaults)
    requires n <= |loads|
    ensures |Discover(d, loads, n, defaults)| + |UnsupportedTags(loads, n)| == n
  {
    if n > 0 {
      EveryOutputDevicedOrWarned(d, loads, n - 1, defaults);
    }
  }

  /**
   * The devices of one pass have pairwise distinct serial numbers, all of
   * them the device serial followed by `_` and the output index.
   */
  lemma DiscoveredSerialsDistinct(d: DeviceDetail, loads: seq<Load>, n: nat, defaults: HostDefaults)
    requires n <= |loads|
    ensures forall k :: 0 <= k < |Discover(d, loads, n, defaults)| ==>
      StartsWith(Discover(d, loads, n, defaults)[k].info.serialNumber, SerialPrefix(d) + "_")
    ensures forall j, k :: 0 <= j < k < |Discover(d, loads, n, defaults)| ==>
      Discover(d, loads, n, defaults)[j].info.serialNumber != Discover(d, loads, n, defaults)[k].info.serialNumber
  {
    var ds, idx := Discover(d, loads, n, defaults), SupportedIndices(loads, n);
    DiscoverFollowsOutputOrder(d, loads, n, defaults);
    forall j, k | 0 <= j < k < |ds|
      ensures ds[j].info.serialNumber != ds[k].info.serialNumber
    {
      SerialNumberInjective(d, idx[j], idx[k]);
    }
  }
}
