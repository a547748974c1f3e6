# Tuya web characteristics for HomeKit, modelled in Dafny

This project models the characteristic synchronisation code of the Homebridge
plugin for Tuya web devices. Four characteristics are modelled: Brightness,
Hue, RotationSpeed and MomentaryOn. Each one publishes a device attribute as a
HomeKit characteristic, with three operations:

- `getRemoteValue` answers a HomeKit read. It answers from the accessory's cache
  when the cached value is truthy. Otherwise it fetches the device state from
  the Tuya web API and reads it with `updateValue`.
- `updateValue` turns a device payload into a HomeKit value and publishes it.
  Brightness chooses between the colour-mode brightness (taken verbatim) and
  the top-level 0-255 brightness (scaled to a percentage), and rejects a
  result of 0 or NaN. Hue takes the colour hue under a recognised colour mode
  and the default 0 otherwise; it never rejects. RotationSpeed takes `speed`
  unchanged, and does nothing when it is absent.
- `setRemoteValue` converts a HomeKit write and sends it to the device. For
  Brightness, Hue and RotationSpeed the conversion is the brightness rescale,
  the colour call or the fan-speed clamp; on success the original HomeKit value
  is cached, and on failure the accessory's cache is invalidated.

MomentaryOn is a push button and differs. Its read answers 0 without a request
or a cache lookup, and its `updateValue` ignores the payload. An "off" write is
acknowledged with nothing sent. An "on" write sends one pulse; on success it
caches nothing and schedules the visible value back to 0, and on failure it
invalidates the cache.

Layout, one module per file:

- `js.dfy` (`Js`): the JavaScript semantics the code relies on. This covers
  `undefined`, numbers with NaN, truthiness, `Number(string)` and `Math.round`.
- `tuya_web_api.dfy` (`TuyaWebApi`): the device payload (all fields optional),
  the outcome of one request, and the requests sent. It also holds the colour
  mode test, where `COLOR_MODES` is the uninterpreted set parameter `colorModes`.
- `accessories.dfy` (`Accessories`): a class `Accessory` standing in for the
  accessory: a cache map, a map of platform-visible values, a log of remote
  requests, and the number of momentary resets still scheduled. The same state
  is also a value, `AccessoryState`, with pure transitions.
- `protocol.dfy` (`Protocol`): the read, update and write steps that Brightness,
  Hue and RotationSpeed share, written as pure functions over `AccessoryState`.
- `brightness.dfy`, `hue.dfy`, `rotation_speed.dfy`: one module per
  characteristic. Each has its applicability predicate, its value transforms,
  its protocol steps, and the imperative methods `GetRemoteValue`,
  `UpdateValue` and `SetRemoteValue`. Each method works on an `Accessory` and
  is proved equal to its pure step.
- `momentary_on.dfy`: the MomentaryOn characteristic. Its `GetRemoteValue` and
  `UpdateValue` change nothing, so they are pure functions returning a `Reply`.
  Its state-changing members are the methods `SetRemoteValue` and `Reset` (the
  timer body). They work on an `Accessory` and are proved equal to `SetStep`
  and `ResetStep`.
- `sync.dfy` (`Sync`): a sequence of events run on one accessory, dispatched by
  characteristic. It holds the properties that span several calls.

Each asynchronous request becomes one step. Its outcome (`Ok` or `Err`) is a
parameter of the method, so there are no callbacks and no concurrency. The
callback's observable effect becomes a `Reply`: answered with a value,
acknowledged, failed with an error, never called, or an exception raised by
`updateValue`.

Behaviour of the code that the model keeps:

- Truthiness decides a cache hit, so a cached 0 is a miss and triggers a fetch.
- Brightness treats a derived 0 or NaN as a parse failure. The callback is then
  never called, and nothing is published or cached. A top-level level of 0 or 1
  out of 255 rounds to 0, so it fails in this way (`TopLevelBrightnessScaled`).
- RotationSpeed and Brightness never call back when the payload has nothing
  usable. The cache is left as it was.
- `data.color.brightness` throws a TypeError when the colour mode is recognised
  but the payload has no `color` object. The request's `catch` handler catches
  it: the cache is invalidated and the callback receives the error.
- A hue reading uses the colour hue only when that hue is a non-empty string.
  In every other case it is the default 0.
- When the speed level is below 1, the rotation-speed clamp sends the speed
  level itself.
- `BaseAccessory` is not part of this model. Its
  `setCharacteristic(k, v, isNotification)` is taken to set both the visible
  and the cached value of `k`. Its flag (`!callback` at every call site) only
  tells the platform whether the update is a notification. So a read that
  fetches and resolves a value also caches it, and so does a refresh. A second
  read is then answered from the cache when the value is truthy
  (`Protocol.ReadThenReadIsCoherent`, `Sync.GetThenGetAnswersFromCache`).

## Model

| member | source | states |
|---|---|---|
| `Js.ToNumber` | src/accessories/characteristics/brightness.ts:65 | `Number(s)` gives a non-NaN number exactly when `s` is a decimal digit string; that number is a non-negative integer, and `""` gives 0 |
| `Js.DecimalRoundTrip` | src/accessories/characteristics/rotationSpeed.ts:81 | `Number` of a whole number's decimal rendering is that number again |
| `Js.MathRound` | src/accessories/characteristics/brightness.ts:67 | `Math.round(x)` is the integer within half a unit of `x`, with halves rounded up |
| `Accessories.Accessory.InvalidateCache` | src/accessories/characteristics/brightness.ts:39 | empties the cache and leaves the visible values, the request log and the pending resets as they were |
| `Accessories.Accessory.SetCharacteristic` | src/accessories/characteristics/brightness.ts:71 | `v` becomes both the visible and the cached value of `k`; the notification flag changes nothing else |
| `Protocol.Update` | src/accessories/characteristics/brightness.ts:70-76 | never sends a request; a resolved value becomes the visible and the cached value, and is answered exactly when a callback exists (no callback on a refresh); an unresolved reading changes nothing and never calls back; a throw is passed on and changes nothing |
| `Protocol.Read` | src/accessories/characteristics/brightness.ts:27-43 | a truthy cache hit answers the cached value with no request and no state change; a miss sends exactly one fetch; a resolved fetch is answered, published and cached; an unresolved one only logs the fetch and never calls back; a fetch error or a thrown reading empties the cache and fails with that error; an answered value is always the cached one |
| `Protocol.Write` | src/accessories/characteristics/brightness.ts:45-58 | sends exactly the given request; on success caches the original HomeKit value and acknowledges; on failure empties the cache and passes the error on; visible values are untouched |
| `Protocol.WriteThenReadIsCoherent` | src/accessories/characteristics/brightness.ts:29-51 | after a successful write of `v`, the next read answers `v` with no request and no change exactly when `v` is not 0 |
| `Protocol.ReadThenReadIsCoherent` | src/accessories/characteristics/brightness.ts:29-36 | after a miss whose fetch resolves to a truthy value, the next read answers that value with no request and no change |
| `BrightnessCharacteristic.Percent` | src/accessories/characteristics/brightness.ts:67 | the scaled top-level brightness is a whole non-negative number for decimal input and NaN otherwise |
| `BrightnessCharacteristic.IsSupportedByAccessory` | src/accessories/characteristics/brightness.ts:22-25 | a device has brightness when it reports a top-level brightness or a colour brightness |
| `BrightnessCharacteristic.UnsupportedNeverResolves` | src/accessories/characteristics/brightness.ts:22-25 | a device without either brightness field never yields a brightness reading, whatever colour modes are recognised |
| `BrightnessCharacteristic.StateValue` | src/accessories/characteristics/brightness.ts:63-76 | a resolved reading is truthy and comes from a payload the applicability predicate accepts; it throws TypeError exactly when the colour mode is recognised and `color` is missing |
| `BrightnessCharacteristic.ToRemote` | src/accessories/characteristics/brightness.ts:47 | a percentage in [0, 100] is sent as a level in [10, 100], with 0 sent as 10 and 100 as 100 |
| `BrightnessCharacteristic.ToRemoteStrictlyIncreasing` | src/accessories/characteristics/brightness.ts:47 | the sent level grows strictly with the HomeKit percentage |
| `BrightnessCharacteristic.PercentOfDecimal` | src/accessories/characteristics/brightness.ts:67 | any string of decimal digits, leading zeros included, scales to the integer `(200d + 255) / 510` of the value `d` it denotes |
| `BrightnessCharacteristic.PercentOfLevel` | src/accessories/characteristics/brightness.ts:66-67 | `round(n / 255 * 100)` equals the integer `(200n + 255) / 510`, lies in [0, 100] for n in [0, 255], and is 0 exactly for n ≤ 1 |
| `BrightnessCharacteristic.PercentMonotone` | src/accessories/characteristics/brightness.ts:67 | the scaled reading of a level never decreases as the level increases |
| `BrightnessCharacteristic.ColorBrightnessTakesPrecedence` | src/accessories/characteristics/brightness.ts:64-66 | under a recognised colour mode with a colour brightness `b`, the reading is `Number(b)` whatever the top-level brightness is, and fails when `Number(b)` is falsy |
| `BrightnessCharacteristic.ColorBrightnessVerbatim` | src/accessories/characteristics/brightness.ts:64-65 | a positive colour brightness reads back unscaled |
| `BrightnessCharacteristic.TopLevelBrightnessScaled` | src/accessories/characteristics/brightness.ts:66-70 | without a usable colour brightness, a top-level level `n` reads as its rounded percentage, and levels 0 and 1 fail |
| `BrightnessCharacteristic.TopLevelBrightnessTakesPercent` | src/accessories/characteristics/brightness.ts:66-70 | without a usable colour brightness, any non-empty top-level brightness `b` reads as its scaled percentage, and fails when that is 0 or NaN |
| `BrightnessCharacteristic.NoBrightnessFieldFails` | src/accessories/characteristics/brightness.ts:63-76 | with neither field usable, the reading fails |
| `BrightnessCharacteristic.UpdateValue` | src/accessories/characteristics/brightness.ts:60-77 | the imperative choice of `stateValue` and the conditional publish have the effect of `Protocol.Update` on `StateValue` |
| `BrightnessCharacteristic.GetRemoteValue` | src/accessories/characteristics/brightness.ts:27-43 | the cache check, fetch, read and catch-and-invalidate have the effect of `Protocol.Read` |
| `BrightnessCharacteristic.SetRemoteValue` | src/accessories/characteristics/brightness.ts:45-58 | sends `brightnessSet` with `ToRemote(v)` and caches `v` itself on success, as `Protocol.Write` |
| `RotationSpeedCharacteristic.MaxSpeedLevel` | src/accessories/characteristics/rotationSpeed.ts:37-40 | for a supported device, the maximum is the configured `speed_level` |
| `RotationSpeedCharacteristic.IsSupportedByAccessory` | src/accessories/characteristics/rotationSpeed.ts:32-35 | a fan has a rotation speed when it reports both `speed_level` and `speed` |
| `RotationSpeedCharacteristic.SupportedSpeedIsBounded` | src/accessories/characteristics/rotationSpeed.ts:32-40 | on a supported fan no value sent exceeds `speed_level`, and none is below 1 when `speed_level` is at least 1 |
| `RotationSpeedCharacteristic.DeclaredProps` | src/accessories/characteristics/rotationSpeed.ts:22-30 | the declared bounds are minimum 0, maximum the speed level, and step 1 |
| `RotationSpeedCharacteristic.Clamped` | src/accessories/characteristics/rotationSpeed.ts:62-66 | with a level of at least 1 the sent value lies in [1, level] and in-range values are unchanged; with a level below 1 it is the level; with no level it is `v` raised to 1, since a comparison with an undefined level is false |
| `RotationSpeedCharacteristic.ClampedIsNearest` | src/accessories/characteristics/rotationSpeed.ts:62-66 | the sent value is the admissible level nearest to the requested one |
| `RotationSpeedCharacteristic.ClampedWithinDeclaredProps` | src/accessories/characteristics/rotationSpeed.ts:22-66 | what is sent lies within the declared bounds, and a whole speed stays whole |
| `RotationSpeedCharacteristic.StateValue` | src/accessories/characteristics/rotationSpeed.ts:79-85 | resolves exactly when `speed` is present, to `Number(speed)` verbatim, and never throws |
| `RotationSpeedCharacteristic.SpeedVerbatim` | src/accessories/characteristics/rotationSpeed.ts:80-83 | a whole-number speed reads back as that number |
| `RotationSpeedCharacteristic.SetSendsClampedCachesOriginal` | src/accessories/characteristics/rotationSpeed.ts:68-71 | a successful write sends `windSpeedSet` with the clamped value and caches the unclamped one |
| `RotationSpeedCharacteristic.UpdateValue` | src/accessories/characteristics/rotationSpeed.ts:79-85 | has the effect of `Protocol.Update` on `StateValue` |
| `RotationSpeedCharacteristic.GetRemoteValue` | src/accessories/characteristics/rotationSpeed.ts:42-58 | has the effect of `Protocol.Read` |
| `RotationSpeedCharacteristic.SetRemoteValue` | src/accessories/characteristics/rotationSpeed.ts:60-77 | the two reassignments of `value` send `Clamped(v, speed_level)`, as `Protocol.Write` |
| `HueCharacteristic.StateValue` | src/accessories/characteristics/hue.ts:58-62 | always resolves; under a recognised colour mode a non-empty hue `h` reads as `Number(h)`; a value other than the default 0 needs a recognised colour mode, which makes the device supported |
| `HueCharacteristic.HueDefaultsWithoutMode` | src/accessories/characteristics/hue.ts:59-62 | without a recognised colour mode the reading is 0 |
| `HueCharacteristic.HueDefaultsWithoutHue` | src/accessories/characteristics/hue.ts:59-62 | with no `color`, no hue or an empty hue the reading is 0, even under a recognised colour mode |
| `HueCharacteristic.IsSupportedByAccessory` | src/accessories/characteristics/hue.ts:20-23 | a device has hue when it reports a colour mode |
| `HueCharacteristic.UnsupportedReadsDefault` | src/accessories/characteristics/hue.ts:20-23 | a device without a colour mode always reads as the default 0 |
| `HueCharacteristic.HueVerbatim` | src/accessories/characteristics/hue.ts:60-61 | under a recognised mode a whole-number hue reads back unscaled |
| `HueCharacteristic.HueReadNeverFailsAfterFetch` | src/accessories/characteristics/hue.ts:32-65 | after a successful fetch a hue read always answers, and on a miss it publishes the value it answers |
| `HueCharacteristic.UpdateValue` | src/accessories/characteristics/hue.ts:58-67 | has the effect of `Protocol.Update` on `StateValue` |
| `HueCharacteristic.GetRemoteValue` | src/accessories/characteristics/hue.ts:25-41 | has the effect of `Protocol.Read` |
| `HueCharacteristic.SetRemoteValue` | src/accessories/characteristics/hue.ts:43-56 | passes the HomeKit value unchanged to `setColor` and caches it on success, as `Protocol.Write` |
| `MomentaryOnCharacteristic.AlwaysSupported` | src/accessories/characteristics/momentaryOn.ts:16-18 | every device has the momentary switch |
| `MomentaryOnCharacteristic.UpdateValue` | src/accessories/characteristics/momentaryOn.ts:49-51 | ignores the payload; answers 0 exactly when a callback exists, and otherwise never calls back |
| `MomentaryOnCharacteristic.GetRemoteValue` | src/accessories/characteristics/momentaryOn.ts:20-24 | a read answers 0, which is falsy |
| `MomentaryOnCharacteristic.SetStep` | src/accessories/characteristics/momentaryOn.ts:26-47 | a falsy value acknowledges with no request and no change; a truthy one sends exactly one `turnOnOff` with 1; success acknowledges, schedules one reset and leaves the cache as it was; failure empties the cache, passes the error on and schedules nothing; visible values are untouched |
| `MomentaryOnCharacteristic.ResetStep` | src/accessories/characteristics/momentaryOn.ts:38-41 | the reset makes the visible `On` value 0 and touches neither the cache nor the request log |
| `MomentaryOnCharacteristic.SetRemoteValue` | src/accessories/characteristics/momentaryOn.ts:26-47 | the early return, push, reset scheduling and invalidation have the effect of `SetStep` |
| `MomentaryOnCharacteristic.Reset` | src/accessories/characteristics/momentaryOn.ts:38-41 | the timer body has the effect of `ResetStep` |
| `Sync.Step` | src/accessories/characteristics/brightness.ts:37-57 | whichever characteristic an event is for, a failed reply leaves the cache empty, and `On` never enters the cache |
| `Sync.RunSeesOnlyCache` | src/accessories/characteristics/brightness.ts:29-41 | from two states with equal caches, any sequence of events gets the same replies and leaves the same cache |
| `Sync.FailureForgetsHistory` | src/accessories/characteristics/brightness.ts:37-57 | after any failed step, however it was reached, the replies to all later events are the same, so no value from before the failure can be answered |
| `Sync.FailureForcesFetch` | src/accessories/characteristics/brightness.ts:29-41 | after a failure, the next read of a cached characteristic fetches the device state again |
| `Sync.SetThenGetAnswersFromCache` | src/accessories/characteristics/brightness.ts:29-51 | a successful non-zero write followed by a read answers the written value, and the write's request is the only one sent |
| `Sync.GetThenGetAnswersFromCache` | src/accessories/characteristics/brightness.ts:27-36 | a read that answers a truthy value from the device is followed by a read that gives the same answer with no further request and no change, whatever the device would report |
| `Sync.OnNeverCached` | src/accessories/characteristics/momentaryOn.ts:35-46 | no sequence of events puts the momentary switch into the cache |
| `Sync.MomentaryReadIsConstant` | src/accessories/characteristics/momentaryOn.ts:20-24 | reading the switch answers 0 and changes nothing, whatever is cached or fetched |
| `Sync.MomentaryPulse` | src/accessories/characteristics/momentaryOn.ts:35-41 | switching on sends exactly one pulse and acknowledges; whatever events arrive before the timer fires, further writes and presses included, the visible value is 0 once it fires |

## Left out

- `Js.ToNumber`: models `Number()` only on strings of decimal digits. Signs, fractions, exponents, whitespace, hexadecimal and `Infinity` convert to NaN here, unlike JavaScript.
- `Js.MathRound`: number arithmetic is exact (`real`). IEEE-754 rounding of `/`, `*` and `Math.round` is not modelled.
- The Tuya web API client (`getDeviceState`, `setDeviceState`), the device id, promises and callbacks. Each request is logged as a `RemoteCall`, and its outcome is a parameter.
- `BaseAccessory` is not part of this model. Its `setCharacteristic` is taken to set the visible and the cached value, and its notification flag is not modelled. `invalidateCache` clears every entry. There is no cache expiry.
- `ColorAccessory.setColor` is not part of this model. A hue write is logged as `SetColor(hue)` and has no other effect.
- The optional `service?.` is taken to be present.
- What homebridge does after a visible value changes is not modelled. This includes the set handler that `service.setCharacteristic` may trigger.
- The contents of `COLOR_MODES` (`./index` is not part of this model). It is the uninterpreted parameter `colorModes`. Note that JavaScript's `in` tests keys.
- Logging (`debug`, `error`, `inspect`): it has no behavioural effect.
- Timer timing. A successful pulse adds one pending reset, and a `ResetTimer` event runs one. The 100 ms delay is not modelled.
- Interleaving of overlapping requests. Each request completes within its own step.
- homebridge `Characteristic` objects and the mechanics of `setProps`. Only the declared bounds are kept, as data. The `Title` strings, the unused `DEFAULT_VALUE` of Brightness and logging have no effect on behaviour and are left out.
- A payload that is `undefined`. In every `updateValue` it behaves exactly like a payload with every field absent, so only the latter is modelled.
- Non-numeric HomeKit values for Brightness, Hue and RotationSpeed. These setters take a number. The momentary setter takes any value and tests its truthiness. In `Sync` it receives a number.
