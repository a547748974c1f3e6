/** The Brightness characteristic: a percentage read either verbatim from the
    colour-mode brightness or scaled from the 0-255 top-level brightness, and
    written with the device's own rescale. */
module BrightnessCharacteristic {
  import opened Js
  import opened TuyaWebApi
  import opened Accessories
  import opened Protocol

  const HomekitCharacteristic := Characteristic.Brightness

  /** Brightness is offered when the device reports a top-level brightness or
      a colour brightness. */
  predicate IsSupportedByAccessory(config: DeviceData) {
    config.brightness.Some? || (config.color.Some? && config.color.value.brightness.Some?)
  }

  /** A device without either brightness field never yields a brightness
      reading, whatever colour modes are recognised. */
  lemma UnsupportedNeverResolves(config: DeviceData, colorModes: set<string>)
    requires !IsSupportedByAccessory(config)
    ensures !StateValue(config, colorModes).Resolved?
  {
  }

  /** `Math.round(Number(b) / 255 * 100)`: a 0-255 level as a percentage. */
  function Percent(b: string): (r: Value)
    ensures r.Num? <==> IsDecimal(b)
    ensures r.Num? ==> r.x == r.x.Floor as real && 0.0 <= r.x
  {
    match ToNumber(b)
    case Num(x) => Num(MathRound(x / 255.0 * 100.0) as real)
    case _ => NaN
  }

  /** What `updateValue` makes of a payload. With a recognised colour mode the
      colour brightness is taken verbatim, and a missing `color` object throws
      (`data.color.brightness` on undefined); otherwise a non-empty top-level
      brightness is scaled. A derived 0 or NaN, or no usable field, is a parse
      failure. */
  function StateValue(data: DeviceData, colorModes: set<string>): (r: Reading)
    ensures r.Resolved? ==> Truthy(r.value)
    ensures r.Threw? <==> ColorModeRecognised(data, colorModes) && data.color.None?
    ensures r.Threw? ==> r.error == TypeError
    ensures r.Resolved? ==> IsSupportedByAccessory(data)
  {
    if ColorModeRecognised(data, colorModes) && data.color.None? then
      Threw(TypeError)
    else
      var stateValue: Option<Value> :=
        if ColorModeRecognised(data, colorModes) && data.color.value.brightness.Some? then
          Some(ToNumber(data.color.value.brightness.value))
        else if data.brightness.Some? && data.brightness.value != "" then
          Some(Percent(data.brightness.value))
        else
          None;
      if stateValue.Some? && Truthy(stateValue.value) then Resolved(stateValue.value) else Unresolved
  }

  /** `homekitValue / 10 * 9 + 10`: the percentage sent to the device. */
  function ToRemote(v: real): (r: real)
    ensures 0.0 <= v <= 100.0 ==> 10.0 <= r <= 100.0
    ensures v == 0.0 ==> r == 10.0
    ensures v == 100.0 ==> r == 100.0
  {
    v / 10.0 * 9.0 + 10.0
  }

  /** The device level grows strictly with the HomeKit percentage. */
  lemma ToRemoteStrictlyIncreasing(a: real, b: real)
    requires a < b
    ensures ToRemote(a) < ToRemote(b)
  {
  }

  /** Any string of decimal digits, leading zeros included, scales to the
      integer `round(d * 100 / 255)` of the value `d` it denotes, computed
      without reals. */
  lemma PercentOfDecimal(b: string)
    requires IsDecimal(b)
    ensures Percent(b) == Num(((200 * DigitsValue(b) + 255) / 510) as real)
  {
    var n := DigitsValue(b);
    var p := (200 * n + 255) / 510;
    var x := n as real / 255.0 * 100.0;
    assert 510 * p <= 200 * n + 255 < 510 * p + 510;
    assert p as real - 0.5 <= x < p as real + 0.5 by {
      assert (510 * p) as real <= (200 * n + 255) as real < (510 * p + 510) as real;
    }
    var q := MathRound(x);
    assert q == p;
  }

  /** The scaled reading of a level `n` is `(200n + 255) / 510`; it lies in
      [0, 100] for a level in [0, 255], and it is 0 (a parse failure) exactly
      for the levels 0 and 1. */
  lemma PercentOfLevel(n: nat)
    ensures Percent(DecimalString(n)) == Num(((200 * n + 255) / 510) as real)
    ensures n <= 255 ==> 0 <= (200 * n + 255) / 510 <= 100
    ensures (200 * n + 255) / 510 == 0 <==> n <= 1
  {
    DecimalRoundTrip(n);
    PercentOfDecimal(DecimalString(n));
  }

  /** The scaled reading never decreases as the level increases. */
  lemma PercentMonotone(n: nat, m: nat)
    requires n <= m
    ensures Percent(DecimalString(n)).x <= Percent(DecimalString(m)).x
  {
    PercentOfLevel(n);
    PercentOfLevel(m);
    assert (200 * n + 255) / 510 <= (200 * m + 255) / 510;
  }

  /** With a recognised colour mode and a colour brightness `b`, the reading is
      `Number(b)` verbatim whatever the top-level brightness says, and fails
      when `Number(b)` is 0 or NaN. */
  lemma ColorBrightnessTakesPrecedence(data: DeviceData, colorModes: set<string>, b: string, top: Option<string>)
    requires ColorModeRecognised(data, colorModes)
    requires data.color.Some? && data.color.value.brightness == Some(b)
    ensures StateValue(data.(brightness := top), colorModes)
         == if Truthy(ToNumber(b)) then Resolved(ToNumber(b)) else Unresolved
  {
  }

  /** A colour brightness rendered from a positive whole number reads back as
      that number, unscaled. */
  lemma ColorBrightnessVerbatim(data: DeviceData, colorModes: set<string>, n: nat)
    requires ColorModeRecognised(data, colorModes) && n > 0
    requires data.color.Some? && data.color.value.brightness == Some(DecimalString(n))
    ensures StateValue(data, colorModes) == Resolved(Num(n as real))
  {
    DecimalRoundTrip(n);
  }

  /** Without a usable colour brightness, a top-level level `n` reads as its
      rounded percentage, except that levels 0 and 1 round to 0 and fail. */
  lemma TopLevelBrightnessScaled(data: DeviceData, colorModes: set<string>, n: nat)
    requires !ColorModeRecognised(data, colorModes) || (data.color.Some? && data.color.value.brightness.None?)
    requires data.brightness == Some(DecimalString(n))
    ensures StateValue(data, colorModes)
         == if n <= 1 then Unresolved else Resolved(Num(((200 * n + 255) / 510) as real))
  {
    PercentOfLevel(n);
  }

  /** Without a usable colour brightness, a non-empty top-level brightness `b`
      reads as its scaled percentage, and fails when that is 0 or NaN. */
  lemma TopLevelBrightnessTakesPercent(data: DeviceData, colorModes: set<string>, b: string)
    requires !ColorModeRecognised(data, colorModes) || (data.color.Some? && data.color.value.brightness.None?)
    requires data.brightness == Some(b) && b != ""
    ensures StateValue(data, colorModes) == if Truthy(Percent(b)) then Resolved(Percent(b)) else Unresolved
  {
  }

  /** With neither field, the reading fails (no callback, nothing published). */
  lemma NoBrightnessFieldFails(data: DeviceData, colorModes: set<string>)
    requires data.brightness.None? || data.brightness == Some("")
    requires !ColorModeRecognised(data, colorModes) || (data.color.Some? && data.color.value.brightness.None?)
    ensures StateValue(data, colorModes) == Unresolved
  {
  }

  function Fetched(fetched: Outcome<DeviceData>, colorModes: set<string>): Outcome<Reading> {
    match fetched
    case Ok(data) => Ok(StateValue(data, colorModes))
    case Err(message) => Err(message)
  }

  /** The protocol steps of this characteristic. */
  function GetStep(s: AccessoryState, colorModes: set<string>, fetched: Outcome<DeviceData>): (AccessoryState, Reply) {
    Read(s, HomekitCharacteristic, Fetched(fetched, colorModes))
  }

  function UpdateStep(s: AccessoryState, colorModes: set<string>, data: DeviceData, hasCallback: bool): (AccessoryState, Reply) {
    Update(s, HomekitCharacteristic, StateValue(data, colorModes), hasCallback)
  }

  function SetStep(s: AccessoryState, homekitValue: real, pushed: Outcome<()>): (AccessoryState, Reply) {
    Write(s, HomekitCharacteristic, Num(homekitValue), SetDeviceState("brightnessSet", ToRemote(homekitValue)), pushed)
  }

  method UpdateValue(acc: Accessory, colorModes: set<string>, data: DeviceData, hasCallback: bool) returns (reply: Reply)
    modifies acc
    ensures (acc.State(), reply) == UpdateStep(old(acc.State()), colorModes, data, hasCallback)
  {
    var stateValue: Option<Value> := None;
    var recognised := data.colorMode.Some? && data.colorMode.value in colorModes;
    if recognised && data.color.None? {
      // `data.color.brightness` with no `color` object
      return Raised(TypeError);
    }
    if recognised && data.color.value.brightness.Some? {
      stateValue := Some(ToNumber(data.color.value.brightness.value));
    } else if data.brightness.Some? && data.brightness.value != "" {
      stateValue := Some(Percent(data.brightness.value));
    }

    if stateValue.Some? && Truthy(stateValue.value) {
      acc.SetCharacteristic(HomekitCharacteristic, stateValue.value, !hasCallback);
      reply := if hasCallback then Answered(stateValue.value) else NoCallback;
      return;
    }
    // "failed to parse data": logged, no callback
    reply := NoCallback;
  }

  method GetRemoteValue(acc: Accessory, colorModes: set<string>, fetched: Outcome<DeviceData>) returns (reply: Reply)
    modifies acc
    ensures (acc.State(), reply) == GetStep(old(acc.State()), colorModes, fetched)
  {
    var cachedState := acc.GetCachedState(HomekitCharacteristic);
    if cachedState.Some? && Truthy(cachedState.value) {
      return Answered(cachedState.value);
    }
    acc.Send(GetDeviceState);
    match fetched
    case Err(message) =>
      acc.InvalidateCache();
      reply := Failed(RemoteError(message));
    case Ok(data) =>
      reply := UpdateValue(acc, colorModes, data, true);
      if reply.Raised? {
        // an exception in the `then` handler reaches the `catch` handler
        acc.InvalidateCache();
        reply := Failed(reply.error);
      }
  }

  method SetRemoteValue(acc: Accessory, homekitValue: real, pushed: Outcome<()>) returns (reply: Reply)
    modifies acc
    ensures (acc.State(), reply) == SetStep(old(acc.State()), homekitValue, pushed)
  {
    var value := ToRemote(homekitValue);
    acc.Send(SetDeviceState("brightnessSet", value));
    match pushed
    case Ok(_) =>
      acc.SetCachedState(HomekitCharacteristic, Num(homekitValue));
      reply := Acknowledged;
    case Err(message) =>
      acc.InvalidateCache();
      reply := Failed(RemoteError(message));
  }
}
