/** The RotationSpeed characteristic of a fan: the device's speed read
    verbatim, and a write clamped into [1, speed_level] before it is sent. */
module RotationSpeedCharacteristic {
  import opened Js
  import opened TuyaWebApi
  import opened Accessories
  import opened Protocol

  const HomekitCharacteristic := Characteristic.RotationSpeed

  /** Rotation speed is offered when the device reports both a speed and a
      number of speed levels. */
  predicate IsSupportedByAccessory(config: DeviceData) {
    config.speedLevel.Some? && config.speed.Some?
  }

  /** `maxSpeedLevel`: the configured `speed_level` (undefined when absent). */
  function MaxSpeedLevel(config: DeviceData): (r: Option<int>)
    ensures IsSupportedByAccessory(config) ==> r.Some? && Some(r.value) == config.speedLevel
  {
    config.speedLevel
  }

  datatype Format = Int

  /** The constraint `setProps` declares: integers from 0 to the speed level, step 1. */
  datatype Props = Props(format: Format, minValue: int, maxValue: Option<int>, minStep: int)

  function DeclaredProps(config: DeviceData): (p: Props)
    ensures p.minValue == 0 && p.minStep == 1 && p.maxValue == MaxSpeedLevel(config)
  {
    Props(Int, 0, MaxSpeedLevel(config), 1)
  }

  /** The value sent for a HomeKit speed `v`: raised to 1 if smaller, then
      lowered to the speed level if larger (a comparison with an undefined
      level is false, so then nothing is lowered). */
  function Clamped(v: real, maxSpeedLevel: Option<int>): (r: real)
    ensures maxSpeedLevel.Some? && maxSpeedLevel.value >= 1 ==> 1.0 <= r <= maxSpeedLevel.value as real
    ensures maxSpeedLevel.Some? && 1.0 <= v <= maxSpeedLevel.value as real ==> r == v
    ensures maxSpeedLevel.Some? && maxSpeedLevel.value < 1 ==> r == maxSpeedLevel.value as real
    ensures maxSpeedLevel.None? ==> r == if v < 1.0 then 1.0 else v
  {
    var lifted := if v < 1.0 then 1.0 else v;
    if maxSpeedLevel.Some? && lifted > maxSpeedLevel.value as real then maxSpeedLevel.value as real else lifted
  }

  function Abs(x: real): real {
    if x < 0.0 then -x else x
  }

  /** Clamping picks the admissible level nearest to the requested one. */
  lemma ClampedIsNearest(v: real, maxSpeedLevel: int, w: real)
    requires 1 <= maxSpeedLevel
    requires 1.0 <= w <= maxSpeedLevel as real
    ensures Abs(Clamped(v, Some(maxSpeedLevel)) - v) <= Abs(w - v)
  {
  }

  /** For a supported device with at least one level, what is sent lies within
      the declared bounds, and a whole HomeKit speed stays whole. */
  lemma ClampedWithinDeclaredProps(config: DeviceData, v: real)
    requires IsSupportedByAccessory(config) && config.speedLevel.value >= 1
    ensures var p := DeclaredProps(config);
            p.minValue as real <= Clamped(v, MaxSpeedLevel(config)) <= p.maxValue.value as real
    ensures v == v.Floor as real ==> Clamped(v, MaxSpeedLevel(config)) == Clamped(v, MaxSpeedLevel(config)).Floor as real
  {
  }

  /** On a supported fan no value sent ever exceeds the configured
      `speed_level`, and every value sent is at least 1 when that level is. */
  lemma SupportedSpeedIsBounded(config: DeviceData, v: real)
    requires IsSupportedByAccessory(config)
    ensures Clamped(v, MaxSpeedLevel(config)) <= config.speedLevel.value as real
    ensures config.speedLevel.value >= 1 ==> 1.0 <= Clamped(v, MaxSpeedLevel(config))
  {
  }

  /** What `updateValue` makes of a payload: `Number(speed)` verbatim when the
      speed is present (even NaN or 0), nothing otherwise. */
  function StateValue(data: DeviceData): (r: Reading)
    ensures r.Resolved? <==> data.speed.Some?
    ensures !r.Threw?
    ensures r.Resolved? ==> r.value == ToNumber(data.speed.value)
  {
    if data.speed.Some? then Resolved(ToNumber(data.speed.value)) else Unresolved
  }

  /** A speed rendered from a whole number reads back as that number. */
  lemma SpeedVerbatim(data: DeviceData, n: nat)
    requires data.speed == Some(DecimalString(n))
    ensures StateValue(data) == Resolved(Num(n as real))
  {
    DecimalRoundTrip(n);
  }

  function Fetched(fetched: Outcome<DeviceData>): Outcome<Reading> {
    match fetched
    case Ok(data) => Ok(StateValue(data))
    case Err(message) => Err(message)
  }

  function GetStep(s: AccessoryState, fetched: Outcome<DeviceData>): (AccessoryState, Reply) {
    Read(s, HomekitCharacteristic, Fetched(fetched))
  }

  function UpdateStep(s: AccessoryState, data: DeviceData, hasCallback: bool): (AccessoryState, Reply) {
    Update(s, HomekitCharacteristic, StateValue(data), hasCallback)
  }

  function SetStep(s: AccessoryState, config: DeviceData, homekitValue: real, pushed: Outcome<()>): (AccessoryState, Reply) {
    Write(s, HomekitCharacteristic, Num(homekitValue),
          SetDeviceState("windSpeedSet", Clamped(homekitValue, MaxSpeedLevel(config))), pushed)
  }

  /** The write sends the clamped value but caches the unclamped one. */
  lemma SetSendsClampedCachesOriginal(s: AccessoryState, config: DeviceData, homekitValue: real)
    ensures var r := SetStep(s, config, homekitValue, Ok(()));
            && r.0.calls[|s.calls|] == SetDeviceState("windSpeedSet", Clamped(homekitValue, MaxSpeedLevel(config)))
            && r.0.cache[HomekitCharacteristic] == Num(homekitValue)
  {
  }

  method UpdateValue(acc: Accessory, data: DeviceData, hasCallback: bool) returns (reply: Reply)
    modifies acc
    ensures (acc.State(), reply) == UpdateStep(old(acc.State()), data, hasCallback)
  {
    reply := NoCallback;
    if data.speed.Some? {
      var speed := ToNumber(data.speed.value);
      acc.SetCharacteristic(HomekitCharacteristic, speed, !hasCallback);
      if hasCallback {
        reply := Answered(speed);
      }
    }
  }

  method GetRemoteValue(acc: Accessory, fetched: Outcome<DeviceData>) returns (reply: Reply)
    modifies acc
    ensures (acc.State(), reply) == GetStep(old(acc.State()), fetched)
  {
    var cachedState := acc.GetCachedState(HomekitCharacteristic);
    if cachedState.Some? && Truthy(cachedState.value) {
      return Answered(cachedState.value);
    }
    acc.Send(GetDeviceState);
    match fetched
    case Err(message) =>
      acc.InvalidateCache();
      reply := Failed(RemoteError(message));
    case Ok(data) =>
      reply := UpdateValue(acc, data, true);
  }

  method SetRemoteValue(acc: Accessory, homekitValue: real, pushed: Outcome<()>) returns (reply: Reply)
    modifies acc
    ensures (acc.State(), reply) == SetStep(old(acc.State()), acc.config, homekitValue, pushed)
  {
    var value := homekitValue;
    value := if value < 1.0 then 1.0 else value;
    var maxSpeedLevel := MaxSpeedLevel(acc.config);
    value := if maxSpeedLevel.Some? && value > maxSpeedLevel.value as real then maxSpeedLevel.value as real else value;

    acc.Send(SetDeviceState("windSpeedSet", value));
    match pushed
    case Ok(_) =>
      acc.SetCachedState(HomekitCharacteristic, Num(homekitValue));
      reply := Acknowledged;
    case Err(message) =>
      acc.InvalidateCache();
      reply := Failed(RemoteError(message));
  }
}
