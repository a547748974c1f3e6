/** The MomentaryOn characteristic: a push button on the HomeKit `On`
    characteristic. It always reads as off; switching it on sends one pulse and
    schedules the visible value back to off 100 ms later. */
module MomentaryOnCharacteristic {
  import opened Js
  import opened TuyaWebApi
  import opened Accessories

  const HomekitCharacteristic := Characteristic.On

  predicate IsSupportedByAccessory(config: DeviceData) {
    true
  }

  /** Every device offers a momentary switch. */
  lemma AlwaysSupported(config: DeviceData)
    ensures IsSupportedByAccessory(config)
  {
  }

  /** `updateValue(data, callback?)`: the payload is ignored; the callback, if
      any, receives 0. Nothing is published and nothing is cached. */
  function UpdateValue(hasCallback: bool): (r: Reply)
    ensures r.Answered? <==> hasCallback
    ensures r.Answered? ==> r.value == Num(0.0)
    ensures !hasCallback ==> r == NoCallback
  {
    if hasCallback then Answered(Num(0.0)) else NoCallback
  }

  /** `getRemoteValue(callback)`: answers 0 without a request or cache lookup. */
  function GetRemoteValue(): (r: Reply)
    ensures r == Answered(Num(0.0)) && !Truthy(r.value)
  {
    UpdateValue(true)
  }

  /** `setRemoteValue(homekitValue, callback)`. */
  function SetStep(s: AccessoryState, homekitValue: Value, pushed: Outcome<()>): (r: (AccessoryState, Reply))
    ensures !Truthy(homekitValue) ==> r == (s, Acknowledged)
    ensures Truthy(homekitValue) ==> r.0.calls == s.calls + [SetDeviceState("turnOnOff", 1.0)]
    ensures r.0.visible == s.visible
    ensures r.0.cache == s.cache || r.0.cache == map[]
    ensures Truthy(homekitValue) && pushed.Ok? ==> r.0.cache == s.cache && r.1 == Acknowledged
    ensures r.0.pendingResets == s.pendingResets + (if Truthy(homekitValue) && pushed.Ok? then 1 else 0)
    ensures Truthy(homekitValue) && pushed.Err? ==> r == (Invalidated(Logged(s, r.0.calls[|s.calls|])), Failed(RemoteError(pushed.message)))
    ensures r.1 == Acknowledged || (Truthy(homekitValue) && pushed.Err?)
  {
    if !Truthy(homekitValue) then
      (s, Acknowledged)
    else
      var s1 := Logged(s, SetDeviceState("turnOnOff", 1.0));
      match pushed
      case Ok(_) => (s1.(pendingResets := s1.pendingResets + 1), Acknowledged)
      case Err(message) => (Invalidated(s1), Failed(RemoteError(message)))
  }

  /** The scheduled reset: the visible `On` value becomes 0, bypassing the
      cache and the write path, whatever happened in between. */
  function ResetStep(s: AccessoryState): (r: AccessoryState)
    requires s.pendingResets > 0
    ensures r.visible == s.visible[HomekitCharacteristic := Num(0.0)]
    ensures r.cache == s.cache && r.calls == s.calls && r.pendingResets == s.pendingResets - 1
  {
    s.(visible := s.visible[HomekitCharacteristic := Num(0.0)], pendingResets := s.pendingResets - 1)
  }

  method SetRemoteValue(acc: Accessory, homekitValue: Value, pushed: Outcome<()>) returns (reply: Reply)
    modifies acc
    ensures (acc.State(), reply) == SetStep(old(acc.State()), homekitValue, pushed)
  {
    var value := if Truthy(homekitValue) then 1 else 0;
    if value == 0 {
      return Acknowledged;
    }
    acc.Send(SetDeviceState("turnOnOff", value as real));
    match pushed
    case Ok(_) =>
      reply := Acknowledged;
      acc.ScheduleReset();
    case Err(message) =>
      acc.InvalidateCache();
      reply := Failed(RemoteError(message));
  }

  /** The body of the timer set up by a successful `SetRemoteValue`. */
  method Reset(acc: Accessory)
    requires acc.pendingResets > 0
    modifies acc
    ensures acc.State() == ResetStep(old(acc.State()))
  {
    acc.TakeReset();
    acc.SetServiceCharacteristic(HomekitCharacteristic, Num(0.0));
  }
}
