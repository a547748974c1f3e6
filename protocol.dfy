/** The cache-and-request protocol the Brightness, Hue and RotationSpeed
    characteristics share: `getRemoteValue`, `updateValue` and
    `setRemoteValue` differ between them only in how a payload is read and
    which request a write issues, so those are parameters here. */
module Protocol {
  import opened Js
  import opened TuyaWebApi
  import opened Accessories

  /** What a characteristic's `updateValue` derives from a payload: a value to
      publish, nothing usable ("failed to parse data"), or an exception. */
  datatype Reading = Resolved(value: Value) | Unresolved | Threw(error: Error)

  /** `if (cachedState)`: a cached value is used only when it is truthy, so a
      cached 0 is a miss. */
  predicate CacheHit(s: AccessoryState, k: Characteristic) {
    k in s.cache && Truthy(s.cache[k])
  }

  /** `updateValue(data, callback?)` once `reading` has been derived from `data`:
      a resolved value is published, and thereby cached, with
      `setCharacteristic(k, v, !callback)` and handed to the callback if there
      is one. */
  function Update(s: AccessoryState, k: Characteristic, reading: Reading, hasCallback: bool): (r: (AccessoryState, Reply))
    ensures r.0.calls == s.calls && r.0.pendingResets == s.pendingResets
    ensures r.1.Answered? <==> reading.Resolved? && hasCallback
    ensures r.1.Answered? ==> r.1.value == reading.value
    ensures reading.Resolved? ==> r.0.visible == s.visible[k := reading.value] && r.0.cache == s.cache[k := reading.value]
    ensures reading.Resolved? && !hasCallback ==> r.1 == NoCallback
    ensures !reading.Resolved? ==> r.0 == s
    ensures reading.Unresolved? ==> r.1 == NoCallback
    ensures reading.Threw? ==> r.1 == Raised(reading.error)
  {
    match reading
    case Resolved(v) =>
      (WithCharacteristic(s, k, v), if hasCallback then Answered(v) else NoCallback)
    case Unresolved => (s, NoCallback)
    case Threw(e) => (s, Raised(e))
  }

  /** `getRemoteValue(callback)`: a truthy cached value answers at once;
      otherwise the device state is fetched and read, and an error, whether
      the fetch's or one thrown while reading, invalidates the cache. */
  function Read(s: AccessoryState, k: Characteristic, fetched: Outcome<Reading>): (r: (AccessoryState, Reply))
    ensures CacheHit(s, k) ==> r == (s, Answered(s.cache[k]))
    ensures !CacheHit(s, k) ==> r.0.calls == s.calls + [GetDeviceState]
    ensures r.0.pendingResets == s.pendingResets
    ensures !CacheHit(s, k) && fetched.Ok? && fetched.value.Resolved? ==>
              && r.1 == Answered(fetched.value.value)
              && r.0.visible == s.visible[k := fetched.value.value]
              && r.0.cache == s.cache[k := fetched.value.value]
    ensures !CacheHit(s, k) && fetched.Ok? && fetched.value.Unresolved? ==> r == (Logged(s, GetDeviceState), NoCallback)
    ensures !CacheHit(s, k) && fetched.Ok? && fetched.value.Threw? ==>
              r == (Invalidated(Logged(s, GetDeviceState)), Failed(fetched.value.error))
    ensures !CacheHit(s, k) && fetched.Err? ==>
              r == (Invalidated(Logged(s, GetDeviceState)), Failed(RemoteError(fetched.message)))
    ensures r.1.Failed? <==> !CacheHit(s, k) && (fetched.Err? || fetched.value.Threw?)
    ensures r.1.Failed? ==> r.0.cache == map[]
    ensures r.1.Answered? ==> k in r.0.cache && r.0.cache[k] == r.1.value
    ensures !r.1.Raised? && !r.1.Acknowledged?
  {
    if CacheHit(s, k) then
      (s, Answered(s.cache[k]))
    else
      var s1 := Logged(s, GetDeviceState);
      match fetched
      case Err(message) => (Invalidated(s1), Failed(RemoteError(message)))
      case Ok(reading) =>
        var (s2, reply) := Update(s1, k, reading, true);
        if reply.Raised? then (Invalidated(s2), Failed(reply.error)) else (s2, reply)
  }

  /** `setRemoteValue(homekitValue, callback)` once the request `call` carrying
      the converted value has been chosen: the request goes out, and on success
      the ORIGINAL HomeKit value is cached; on failure the cache is invalidated. */
  function Write(s: AccessoryState, k: Characteristic, homekitValue: Value, call: RemoteCall, pushed: Outcome<()>): (r: (AccessoryState, Reply))
    ensures r.0.calls == s.calls + [call]
    ensures r.0.visible == s.visible && r.0.pendingResets == s.pendingResets
    ensures r.1 == if pushed.Ok? then Acknowledged else Failed(RemoteError(pushed.message))
    ensures r.0.cache == if pushed.Ok? then s.cache[k := homekitValue] else map[]
  {
    var s1 := Logged(s, call);
    match pushed
    case Ok(_) => (WithCached(s1, k, homekitValue), Acknowledged)
    case Err(message) => (Invalidated(s1), Failed(RemoteError(message)))
  }

  /** After a successful write of `v`, the next read answers `v` without a
      request and without changing anything, exactly when `v` is not 0 (a
      cached 0 is falsy and forces a fetch). */
  lemma WriteThenReadIsCoherent(s: AccessoryState, k: Characteristic, v: real, call: RemoteCall, fetched: Outcome<Reading>)
    ensures var written := Write(s, k, Num(v), call, Ok(())).0;
            v != 0.0 <==> Read(written, k, fetched) == (written, Answered(Num(v)))
  {
  }

  /** A read that fetched a truthy value seeds the cache: the next read answers
      the same value without a request and without changing anything. */
  lemma ReadThenReadIsCoherent(s: AccessoryState, k: Characteristic, v: Value, again: Outcome<Reading>)
    requires !CacheHit(s, k) && Truthy(v)
    ensures var first := Read(s, k, Ok(Resolved(v)));
            first.1 == Answered(v) && Read(first.0, k, again) == (first.0, Answered(v))
  {
    var first := Read(s, k, Ok(Resolved(v)));
    assert CacheHit(first.0, k);
  }
}
