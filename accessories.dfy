/** The accessory a characteristic belongs to. `BaseAccessory` is not part of
    this model; what the characteristics use of it (`getCachedState`,
    `setCachedState`, `invalidateCache`, `setCharacteristic`, the service's
    `setCharacteristic`) is modelled as maps, plus a log of the remote requests
    issued and a count of the momentary resets that are scheduled. */
module Accessories {
  import opened Js
  import opened TuyaWebApi

  /** The HomeKit characteristic a value belongs to; the cache and the
      platform-visible values are keyed by it. MomentaryOn uses `On`. */
  datatype Characteristic = Brightness | Hue | RotationSpeed | On

  /** What a rejected operation passes to its callback. */
  datatype Error = RemoteError(message: string) | TypeError

  /** What the caller of a characteristic operation observes. */
  datatype Reply =
    | Answered(value: Value)   // callback(null, value)
    | Acknowledged             // callback()
    | Failed(error: Error)     // callback(error)
    | NoCallback               // the callback is never invoked
    | Raised(error: Error)     // updateValue threw instead of returning

  /** The observable state of one accessory. */
  datatype AccessoryState = AccessoryState(
    cache: map<Characteristic, Value>,
    visible: map<Characteristic, Value>,
    calls: seq<RemoteCall>,
    pendingResets: nat)

  /** `invalidateCache()`: every cached value of the accessory is dropped. */
  function Invalidated(s: AccessoryState): (r: AccessoryState)
    ensures r.cache == map[]
    ensures r.visible == s.visible && r.calls == s.calls && r.pendingResets == s.pendingResets
  {
    s.(cache := map[])
  }

  /** A remote request was issued. */
  function Logged(s: AccessoryState, call: RemoteCall): AccessoryState {
    s.(calls := s.calls + [call])
  }

  /** `setCachedState(k, v)`. */
  function WithCached(s: AccessoryState, k: Characteristic, v: Value): AccessoryState {
    s.(cache := s.cache[k := v])
  }

  /** `setCharacteristic(k, v, isNotification)`: `v` becomes both the
      platform-visible and the cached value of `k`. The flag only tells the
      platform whether the update answers a request or is a notification. */
  function WithCharacteristic(s: AccessoryState, k: Characteristic, v: Value): AccessoryState {
    s.(visible := s.visible[k := v], cache := s.cache[k := v])
  }

  class Accessory {
    /** `deviceConfig.data`: the device description the accessory was built from. */
    const config: DeviceData
    var cache: map<Characteristic, Value>
    var visible: map<Characteristic, Value>
    var calls: seq<RemoteCall>
    var pendingResets: nat

    function State(): AccessoryState
      reads this
    {
      AccessoryState(cache, visible, calls, pendingResets)
    }

    constructor (config: DeviceData)
      ensures this.config == config
      ensures State() == AccessoryState(map[], map[], [], 0)
    {
      this.config := config;
      cache, visible, calls, pendingResets := map[], map[], [], 0;
    }

    /** `getCachedState(k)`: the cached value, or `undefined`. */
    function GetCachedState(k: Characteristic): (r: Option<Value>)
      reads this
      ensures r.Some? <==> k in cache
      ensures r.Some? ==> r.value == cache[k]
    {
      if k in cache then Some(cache[k]) else None
    }

    method SetCachedState(k: Characteristic, v: Value)
      modifies this
      ensures State() == WithCached(old(State()), k, v)
    {
      cache := cache[k := v];
    }

    method InvalidateCache()
      modifies this
      ensures State() == Invalidated(old(State()))
    {
      cache := map[];
    }

    method SetCharacteristic(k: Characteristic, v: Value, isNotification: bool)
      modifies this
      ensures State() == WithCharacteristic(old(State()), k, v)
    {
      cache := cache[k := v];
      visible := visible[k := v];
    }

    /** `service.setCharacteristic(k, v)`: the platform-visible value only. */
    method SetServiceCharacteristic(k: Characteristic, v: Value)
      modifies this
      ensures State() == old(State()).(visible := old(visible)[k := v])
    {
      visible := visible[k := v];
    }

    /** Issue a remote request; its outcome is supplied to the caller separately. */
    method Send(call: RemoteCall)
      modifies this
      ensures State() == Logged(old(State()), call)
    {
      calls := calls + [call];
    }

    /** `setTimeout(reset, 100)`: one more reset is due. */
    method ScheduleReset()
      modifies this
      ensures State() == old(State()).(pendingResets := old(pendingResets) + 1)
    {
      pendingResets := pendingResets + 1;
    }

    /** One scheduled reset is taken off the timer queue to be run. */
    method TakeReset()
      requires pendingResets > 0
      modifies this
      ensures State() == old(State()).(pendingResets := old(pendingResets) - 1)
    {
      pendingResets := pendingResets - 1;
    }
  }
}
