# Feller Wiser to Matter bridge: a Dafny model of the mapping core

This project models the part of the Matterbridge Feller Wiser plugin that maps
the Feller Wiser controller's loads onto Matter devices
(`src/platform.ts`, class `FellerWiserPlatform`):

- **Discovery pass** (`createFellerDevice`). The pass walks a device's outputs in
  index order. It classifies each output's load by its `type` tag through a fixed
  table (`onoff`, `dim`, `dali` become an on/off switch, `motor` a cover). An
  unknown tag is warned about and skipped. Every supported load gets an identity
  block built from JavaScript `||` fallbacks and is appended to the platform's
  list of bridged devices. Serial numbers are the device serial followed by
  `_<output index>`.
- **Capability seeding**, keyed on the load's `device` sub-kind, not on its tag:
  - on/off (seeded `bri != 0`) for `onoff`, `dim` and `dali` loads whose state has a `bri`;
  - level for `dim` and `dali`;
  - colour for `dali`.
- **Command feedback** of the built devices. The vendor's reply is a parameter;
  the attributes are written from the reply, not from the request.
- **Window covering** `stopMotion` and `goToLiftPercentage`, and the demo ticks'
  integer steps (cover, light level, thermostat).

Modules: `Vendor` (the controller's records), `Mapping` (the table, fallbacks,
seeding and the discovery specification `Discover`), `Bridged` (a bridged
device as a class with its handlers), `Discovery` (the platform and its
discovery loop), `Covering` (the window covering), `DemoTicks`.

Behaviour of the code that the model follows:

- The level cluster is created without an initial value
  (src/platform.ts:315). The level is therefore not seeded from `bri`. The
  host library's default level and colour are the input `HostDefaults`.
- The `on` handler writes only the on/off attribute, never the level.
- The level handlers do not look at the reply's status.
- The colour handlers of a `dali` device write to the platform's demo light
  (`this.light`), not to the device itself.
- Discovery does no deduplication. Running it twice for the same device
  appends every device twice.
- A `motor` load becomes a cover device type without any covering capability.
- An absent string and an empty string are both falsy for `||`. Both are
  modelled as the empty string.

## Model

| member | source | states |
|---|---|---|
| `Mapping.Classify` | src/platform.ts:227-232 | `onoff`, `dim`, `dali` map to the on/off switch, `motor` to cover, every other tag to no device type |
| `Mapping.Or` | src/platform.ts:249 | JavaScript or-fallback on strings: the first non-empty operand, empty only when both are |
| `Mapping.IsOnOffState` | src/platform.ts:33-37 | a state passes the guard exactly when it is not a motion state, i.e. it carries `bri` |
| `Mapping.NatToString` | src/platform.ts:252 | the decimal printing of the output index: a non-empty digit string that reads back (`DecValue`, most significant digit first) as the index, with a leading `0` only for index 0 and a single digit exactly below 10 |
| `Mapping.NatToStringInjective` | src/platform.ts:252 | distinct output indices print as distinct decimal strings, because each reads back as its index |
| `Mapping.SerialNumber` | src/platform.ts:252 | the serial starts with the device serial (`c` before `a`) and `_`, and ends with the output index |
| `Mapping.SerialNumberInjective` | src/platform.ts:241-252 | two outputs of one device share a serial exactly when they share an index |
| `Mapping.BuildInfo` | src/platform.ts:249-273 | name is the first non-empty of load name, `c` and `a` commercial name; product name is `c`'s commercial name, or `a`'s when `c`'s is empty; firmware, hardware ids and version string prefer `c`; vendor 0xfff1 "Feller AG"; no hardware version string |
| `Mapping.SeedAttributes` | src/platform.ts:287-347 | on/off exists iff the sub-kind is onoff/dim/dali and the state has `bri`, seeded to whether the load is lit; level iff dim/dali, colour iff dali, both with host defaults |
| `Mapping.BuildDevice` | src/platform.ts:243-273 | a built device's type is the table entry of its tag, its identity `BuildInfo`, its attributes `SeedAttributes` |
| `Mapping.MotorLoadHasNoCapability` | src/platform.ts:230-288 | a motor load with a motion state becomes a cover with no on/off, level or colour attribute |
| `Mapping.Discover` | src/platform.ts:241-362 | one pass over the first n outputs adds at most n devices |
| `Mapping.UnsupportedTags` | src/platform.ts:243-246 | every warned tag is one the table does not know |
| `Mapping.SupportedIndices` | src/platform.ts:241-247 | the supported outputs, strictly ascending, and every supported output is among them |
| `Mapping.DiscoverFollowsOutputOrder` | src/platform.ts:241-362 | the k-th device of a pass is the one built for the k-th supported output, so devices come in output-index order, one per supported output |
| `Mapping.EveryOutputDevicedOrWarned` | src/platform.ts:243-247 | every output yields exactly one device or exactly one warning |
| `Mapping.DiscoveredSerialsDistinct` | src/platform.ts:241-252 | the devices of one pass have pairwise distinct serials, all prefixed by the device serial and `_` |
| `Bridged.ConfirmedOnOff` | src/platform.ts:292-298 | after a successful reply with a `bri` state the attribute says whether the returned load is lit; otherwise it is unchanged |
| `Bridged.OffFeedback` | src/platform.ts:304-310 | as written, a successful `bri` reply sets the attribute to whether the returned load is NOT lit; otherwise unchanged |
| `Bridged.OffFeedbackInvertsConfirmedState` | src/platform.ts:304-310 | on every confirmed reply the `off` handler's value is the opposite of the confirmed state |
| `Bridged.OffFeedbackCounterexample` | src/platform.ts:308 | a reply confirming `bri` 0 turns the attribute on |
| `Bridged.BridgedDevice.constructor` | src/platform.ts:259-273 | a built device holds exactly the record it was built from |
| `Bridged.BridgedDevice.On` | src/platform.ts:289-300 | the on/off attribute becomes `ConfirmedOnOff` of the reply |
| `Bridged.BridgedDevice.Off` | src/platform.ts:301-312 | the on/off attribute becomes `OffFeedback` of the reply, unchanged on a failed or non-`bri` reply |
| `Bridged.BridgedDevice.MoveToLevel` | src/platform.ts:316-330 | the level becomes the returned `bri`, whatever level was requested |
| `Bridged.BridgedDevice.MoveToLevelWithOnOff` | src/platform.ts:331-345 | the level becomes the returned `bri`, whatever level was requested |
| `Discovery.Platform.CreateFellerDevice` | src/platform.ts:224-364 | the registry keeps its old devices and gains exactly the fresh devices of `Discover`, in order; the warnings gain `UnsupportedTags` |
| `Discovery.Platform.MoveToHueAndSaturation` | src/platform.ts:348-354 | the demo light's hue and saturation are written; the dali device is unchanged |
| `Discovery.Platform.MoveToColorTemperature` | src/platform.ts:355-358 | the demo light's colour temperature is written; the dali device is unchanged |
| `Covering.WindowCovering.StopMotion` | src/platform.ts:193-204 | current lift unchanged, target := current when current is known, all three axes stopped |
| `Covering.WindowCovering.GoToLiftPercentage` | src/platform.ts:206-221 | current and target lift both become the request, all three axes stopped |
| `Covering.NextDemoLift` | src/platform.ts:439 | from a non-negative position the next one is 0 or 10 % further and stays below 10000 |
| `Covering.DemoLiftReturnsToOpen` | src/platform.ts:437-441 | from any non-negative position the demo cycle reaches 0 within ten ticks |
| `Covering.WindowCovering.DemoTick` | src/platform.ts:436-446 | nothing while the position is null; otherwise current := next position, target := current, all stopped |
| `DemoTicks.LightTick` | src/platform.ts:395-408 | a null level is left alone; a level that stays within 254 after adding 10 is raised by 10 and the light turned on; otherwise the light is turned off and the level kept |
| `DemoTicks.LightTickStalls` | src/platform.ts:397-402 | past level 244 the tick switches the light off and leaves it at the same level on every later tick |
| `DemoTicks.LightTickWrappingKeepsRamp` | src/platform.ts:397-402 | the corrected tick keeps the level in 0..254, changes it on every tick, and keeps on/off equal to level != 0 |
| `DemoTicks.ThermoTick` | src/platform.ts:476-478 | null counts as 16 °C; below 23 °C the temperature rises by one degree, from 23 °C or above it returns to 16 °C; on the whole-degree grid 16..23 °C the tick stays on it |

## Left out

- The HTTP calls, URLs, headers and JSON decoding. The model takes a device's
  detail and the load fetched for each output (`loads[i]` for output `i`) as
  inputs, and each handler takes the vendor's reply as a parameter.
- The `identify` handler: it fires a ping request and changes no state.
- `Number(...)` on the firmware and hardware ids. `BasicInfo` keeps the chosen
  text; `NaN` and numeric conversion are not modelled.
- The host library internals: creating clusters, `registerDevice`,
  `addBridgedDevice`. Registration is appending to `Platform.bridged`. The
  identify, groups, scenes and wired power source clusters carry no modelled
  state. The device type definitions are the two tags of `DeviceType`.
- Concurrency: the un-awaited `createFellerDevice` calls, and the promise
  chains of the handlers. Discovery runs one device at a time, and a handler
  runs to completion with its reply.
- Bridged.BridgedDevice.MoveToLevel: reads the brightness of the reply at
  `data.bri` (src/platform.ts:325-328), while the on/off handlers read the reply
  to the same POST as a load, with the brightness at `data.state.bri`
  (src/platform.ts:291-296). If the reply is a load, `data.bri` is undefined and
  the handler writes `undefined` into the level. `LevelResponse` always carries
  an integer `bri`, so the model does not capture that case, nor a reply
  without `data`, which throws in the promise chain.
- Bridged.BridgedDevice.MoveToLevelWithOnOff: the same reading of `data.bri`
  (src/platform.ts:340-343), with the same gap as `MoveToLevel`.
- Discovery.Platform.CreateFellerDevice: assumes every load fetch and JSON
  decode succeeds. The loop at src/platform.ts:241-242 has no try/catch, so a
  failing fetch ends the pass and the device's remaining outputs get neither a
  device nor a warning. The model, and the lemmas
  `Mapping.EveryOutputDevicedOrWarned` and `Mapping.DiscoverFollowsOutputOrder`,
  describe a pass in which every fetch succeeds.
- JavaScript numbers: brightness, lift and temperatures are unbounded integers.
  There are no fractions and no `NaN`.
- Absent string fields: JavaScript prints an absent serial as `undefined`. The
  model treats absent and empty alike, as the empty string.
- The demo switch, outlet, lock and thermostat devices and their creation, and
  the on/off and lock toggling ticks. Only the cover handlers and the integer
  steps of the cover, light and thermostat ticks are modelled. Timers,
  `onShutdown`, the configuration checks and the logging are left out too.
  Warnings are kept as the list of unsupported tags.
- Covering.WindowCovering.GoToLiftPercentage: requires the request in
  0..10000, the range the host's command schema admits; the handler itself does
  not check it. The optional attribute accessors (`?.`) are assumed to be
  present.
- Repeated discovery: no idempotence is claimed, because the code appends
  every device again on each pass.

## Findings

| source | as written | input that shows it | evidently intended | confidence | as-written member | corrected member |
|---|---|---|---|---|---|---|
| src/platform.ts:308 | the `off` handler stores `bri === 0` into the on/off attribute | a successful reply whose load state is `{bri: 0}` (the load is off) sets the attribute to on | store `bri !== 0`, as the seeding at line 288 and the `on` handler at line 296 do; stated by the ensures of `Bridged.ConfirmedOnOff` (a confirmed reply gives whether the returned load is lit), which match the on/off seed of `Mapping.SeedAttributes` | medium, not executed | `Bridged.OffFeedbackCounterexample` | `Bridged.ConfirmedOnOff` |
| src/platform.ts:398-402 | past 254 the tick sets its local `level = 0` and returns before writing it | level 250: the light goes off at level 250 and every later tick leaves it there | restart the ramp at level 0; proved by `DemoTicks.LightTickWrappingKeepsRamp` | medium, not executed | `DemoTicks.LightTickStalls` | `DemoTicks.LightTickWrapping` |
