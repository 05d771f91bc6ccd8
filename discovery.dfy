/**
 * The platform: the registry of bridged devices it appends to, the warnings
 * it logs, the discovery pass over one device, and the colour handlers of
 * a dali device, which write to the platform's demo light.
 */
module Discovery {
  import opened Vendor
  import opened Mapping
  import opened Bridged

  class Platform {
    /** The devices handed to the host with `addBridgedDevice`, in order. */
    var bridged: seq<BridgedDevice>
    /** The unsupported type tags warned about, in order. */
    var warnings: seq<string>
    /** The demo light, absent until the demo scaffolding has created it. */
    var light: DemoLight?

    constructor ()
      ensures bridged == [] && warnings == [] && light == null
    {
      bridged := [];
      warnings := [];
      light := null;
    }

    /**
     * The discovery pass over one device: `loads[i]` is the load fetched for
     * output `i`. Each output with a supported type appends exactly one new
     * device, in output-index order; each other output appends a warning.
     */
    method CreateFellerDevice(d: DeviceDetail, loads: seq<Load>, defaults: HostDefaults)
      requires |loads| == |d.outputs|
      modifies this`bridged, this`warnings
      ensures |bridged| == |old(bridged)| + |Discover(d, loads, |loads|, defaults)|
      ensures bridged[..|old(bridged)|] == old(bridged)
      ensures forall k :: |old(bridged)| <= k < |bridged| ==>
        fresh(bridged[k]) && bridged[k].Record() == Discover(d, loads, |loads|, defaults)[k - |old(bridged)|]
      ensures warnings == old(warnings) + UnsupportedTags(loads, |loads|)
    {
      ghost var base := |bridged|;
      for index := 0 to |d.outputs|
        invariant |bridged| == base + |Discover(d, loads, index, defaults)|
        invariant bridged[..base] == old(bridged)
        invariant forall k :: base <= k < |bridged| ==>
          fresh(bridged[k]) && bridged[k].Record() == Discover(d, loads, index, defaults)[k - base]
        invariant warnings == old(warnings) + UnsupportedTags(loads, index)
      {
        var load := loads[index];
        var deviceType := Classify(load.loadType);
        if deviceType.None? {
          assert Discover(d, loads, index + 1, defaults) == Discover(d, loads, index, defaults);
          warnings := warnings + [load.loadType];
          continue;
        }
        assert Discover(d, loads, index + 1, defaults) == Discover(d, loads, index, defaults) + [BuildDevice(d, load, index, defaults)];
        var device := new BridgedDevice(BuildDevice(d, load, index, defaults));
        bridged := bridged + [device];
      }
    }

    /**
     * The `moveToHueAndSaturation` handler of a dali device: it writes the
     * demo light's hue and saturation, so the device's own colour is unchanged.
     */
    method MoveToHueAndSaturation(device: BridgedDevice, hue: int, saturation: int)
      requires device.color.Some?
      modifies light
      ensures light != null ==> light.hue == hue && light.saturation == saturation
      ensures light != null ==> light.colorTemperatureMireds == old(light.colorTemperatureMireds)
      ensures device.Record() == old(device.Record())
    {
      if light != null {
        light.hue := hue;
        light.saturation := saturation;
      }
    }

    /** The `moveToColorTemperature` handler of a dali device: again the demo light's. */
    method MoveToColorTemperature(device: BridgedDevice, colorTemperatureMireds: int)
      requires device.color.Some?
      modifies light
      ensures light != null ==> light.colorTemperatureMireds == colorTemperatureMireds
      ensures light != null ==> light.hue == old(light.hue) && light.saturation == old(light.saturation)
      ensures device.Record() == old(device.Record())
    {
      if light != null {
        light.colorTemperatureMireds := colorTemperatureMireds;
      }
    }
  }
}
