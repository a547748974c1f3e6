/** The Hue characteristic of a colour light: the colour hue read verbatim
    under a recognised colour mode, 0 otherwise, and written through the colour
    accessory's `setColor`. */
module HueCharacteristic {
  import opened Js
  import opened TuyaWebApi
  import opened Accessories
  import opened Protocol

  const DefaultValue: real := 0.0
  const HomekitCharacteristic := Characteristic.Hue

  /** Hue is offered when the device reports a colour mode. */
  predicate IsSupportedByAccessory(config: DeviceData) {
    config.colorMode.Some?
  }

  /** What `updateValue` makes of a payload: `Number(color.hue)` when the
      colour mode is recognised and the hue is a non-empty string, the default
      0 otherwise; it never fails. */
  function StateValue(data: DeviceData, colorModes: set<string>): (r: Reading)
    ensures r.Resolved?
    ensures r.value != Num(DefaultValue) ==> ColorModeRecognised(data, colorModes) && IsSupportedByAccessory(data)
    ensures (ColorModeRecognised(data, colorModes) && data.color.Some? && data.color.value.hue.Some?
             && data.color.value.hue.value != "")
            ==> r == Resolved(ToNumber(data.color.value.hue.value))
  {
    var stateValue :=
      if ColorModeRecognised(data, colorModes) && data.color.Some? && data.color.value.hue.Some?
         && data.color.value.hue.value != ""
      then ToNumber(data.color.value.hue.value)
      else Num(DefaultValue);
    Resolved(stateValue)
  }

  /** Without a recognised colour mode the reading is the default 0, whatever
      hue the payload carries. */
  lemma HueDefaultsWithoutMode(data: DeviceData, colorModes: set<string>)
    requires !ColorModeRecognised(data, colorModes)
    ensures StateValue(data, colorModes) == Resolved(Num(0.0))
  {
  }

  /** Under a recognised colour mode the reading is still the default 0 when
      the payload has no `color`, no hue, or an empty hue. */
  lemma HueDefaultsWithoutHue(data: DeviceData, colorModes: set<string>)
    requires data.color.None? || data.color.value.hue.None? || data.color.value.hue.value == ""
    ensures StateValue(data, colorModes) == Resolved(Num(0.0))
  {
  }

  /** A device that reports no colour mode reads as the default 0 whatever its
      payload says. */
  lemma UnsupportedReadsDefault(data: DeviceData, colorModes: set<string>)
    requires !IsSupportedByAccessory(data)
    ensures StateValue(data, colorModes) == Resolved(Num(0.0))
  {
  }

  /** Under a recognised colour mode, a hue rendered from a whole number reads
      back as that number, unscaled. */
  lemma HueVerbatim(data: DeviceData, colorModes: set<string>, n: nat)
    requires ColorModeRecognised(data, colorModes)
    requires data.color.Some? && data.color.value.hue == Some(DecimalString(n))
    ensures StateValue(data, colorModes) == Resolved(Num(n as real))
  {
    DecimalRoundTrip(n);
  }

  function Fetched(fetched: Outcome<DeviceData>, colorModes: set<string>): Outcome<Reading> {
    match fetched
    case Ok(data) => Ok(StateValue(data, colorModes))
    case Err(message) => Err(message)
  }

  function GetStep(s: AccessoryState, colorModes: set<string>, fetched: Outcome<DeviceData>): (AccessoryState, Reply) {
    Read(s, HomekitCharacteristic, Fetched(fetched, colorModes))
  }

  function UpdateStep(s: AccessoryState, colorModes: set<string>, data: DeviceData, hasCallback: bool): (AccessoryState, Reply) {
    Update(s, HomekitCharacteristic, StateValue(data, colorModes), hasCallback)
  }

  function SetStep(s: AccessoryState, homekitValue: real, pushed: Outcome<()>): (AccessoryState, Reply) {
    Write(s, HomekitCharacteristic, Num(homekitValue), SetColor(homekitValue), pushed)
  }

  /** Once the device state has been fetched, a hue read always answers and
      publishes its value. */
  lemma HueReadNeverFailsAfterFetch(s: AccessoryState, colorModes: set<string>, data: DeviceData)
    ensures var r := GetStep(s, colorModes, Ok(data));
            r.1.Answered? && (!CacheHit(s, HomekitCharacteristic) ==> r.0.visible[HomekitCharacteristic] == r.1.value)
  {
  }

  method UpdateValue(acc: Accessory, colorModes: set<string>, data: DeviceData, hasCallback: bool) returns (reply: Reply)
    modifies acc
    ensures (acc.State(), reply) == UpdateStep(old(acc.State()), colorModes, data, hasCallback)
  {
    var stateValue := Num(DefaultValue);
    if data.colorMode.Some? && data.colorMode.value in colorModes && data.color.Some?
       && data.color.value.hue.Some? && data.color.value.hue.value != "" {
      stateValue := ToNumber(data.color.value.hue.value);
    }
    acc.SetCharacteristic(HomekitCharacteristic, stateValue, !hasCallback);
    reply := if hasCallback then Answered(stateValue) else NoCallback;
  }

  method GetRemoteValue(acc: Accessory, colorModes: set<string>, fetched: Outcome<DeviceData>) returns (reply: Reply)
    modifies acc
    ensures (acc.State(), reply) == GetStep(old(acc.State()), colorModes, fetched)
  {
    var cachedState := acc.GetCachedState(HomekitCharacteristic);
    if cachedState.Some? && Truthy(cachedState.value) {
      return Answered(cachedState.value);
    }
    acc.Send(GetDeviceState);
    match fetched
    case Err(message) =>
      acc.InvalidateCache();
      reply := Failed(RemoteError(message));
    case Ok(data) =>
      reply := UpdateValue(acc, colorModes, data, true);
  }

  method SetRemoteValue(acc: Accessory, homekitValue: real, pushed: Outcome<()>) returns (reply: Reply)
    modifies acc
    ensures (acc.State(), reply) == SetStep(old(acc.State()), homekitValue, pushed)
  {
    var value := homekitValue;
    acc.Send(SetColor(value));
    match pushed
    case Ok(_) =>
      acc.SetCachedState(HomekitCharacteristic, Num(homekitValue));
      reply := Acknowledged;
    case Err(message) =>
      acc.InvalidateCache();
      reply := Failed(RemoteError(message));
  }
}
