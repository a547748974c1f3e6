/** The characteristics of one accessory driven by a sequence of events: each
    HomeKit request, each refresh and each timer firing is one step, and each
    remote request's outcome is part of the event that triggers it. */
module Sync {
  import opened Js
  import opened TuyaWebApi
  import opened Accessories
  import opened Protocol
  import BrightnessCharacteristic
  import HueCharacteristic
  import RotationSpeedCharacteristic
  import MomentaryOnCharacteristic

  datatype Event =
    | Get(characteristic: Characteristic, fetched: Outcome<DeviceData>)   // getRemoteValue
    | Set(characteristic: Characteristic, value: real, pushed: Outcome<()>) // setRemoteValue
    | Refresh(characteristic: Characteristic, data: DeviceData)           // updateValue with no callback
    | ResetTimer                                                          // the oldest pending reset fires

  /** One event on an accessory built from `config`, dispatched by characteristic. */
  function Step(s: AccessoryState, config: DeviceData, colorModes: set<string>, e: Event): (r: (AccessoryState, Reply))
    ensures r.1.Failed? ==> r.0.cache == map[]
    ensures On !in s.cache ==> On !in r.0.cache
    ensures !e.ResetTimer? ==> r.0.pendingResets >= s.pendingResets
  {
    match e
    case Get(Brightness, fetched) => BrightnessCharacteristic.GetStep(s, colorModes, fetched)
    case Get(Hue, fetched) => HueCharacteristic.GetStep(s, colorModes, fetched)
    case Get(RotationSpeed, fetched) => RotationSpeedCharacteristic.GetStep(s, fetched)
    case Get(On, _) => (s, MomentaryOnCharacteristic.GetRemoteValue())
    case Set(Brightness, v, pushed) => BrightnessCharacteristic.SetStep(s, v, pushed)
    case Set(Hue, v, pushed) => HueCharacteristic.SetStep(s, v, pushed)
    case Set(RotationSpeed, v, pushed) => RotationSpeedCharacteristic.SetStep(s, config, v, pushed)
    case Set(On, v, pushed) => MomentaryOnCharacteristic.SetStep(s, Num(v), pushed)
    case Refresh(Brightness, data) => BrightnessCharacteristic.UpdateStep(s, colorModes, data, false)
    case Refresh(Hue, data) => HueCharacteristic.UpdateStep(s, colorModes, data, false)
    case Refresh(RotationSpeed, data) => RotationSpeedCharacteristic.UpdateStep(s, data, false)
    case Refresh(On, _) => (s, MomentaryOnCharacteristic.UpdateValue(false))
    case ResetTimer =>
      if s.pendingResets > 0 then (MomentaryOnCharacteristic.ResetStep(s), NoCallback) else (s, NoCallback)
  }

  /** The events in order; the replies, one per event. */
  function Run(s: AccessoryState, config: DeviceData, colorModes: set<string>, events: seq<Event>): (r: (AccessoryState, seq<Reply>))
    ensures |r.1| == |events|
    ensures |r.0.calls| >= |s.calls| && r.0.calls[..|s.calls|] == s.calls
    decreases |events|
  {
    if events == [] then
      (s, [])
    else
      var (s1, reply) := Step(s, config, colorModes, events[0]);
      var (s2, replies) := Run(s1, config, colorModes, events[1..]);
      (s2, [reply] + replies)
  }

  /** What a step answers and caches depends on the accessory's state only
      through its cache. */
  lemma StepSeesOnlyCache(s: AccessoryState, t: AccessoryState, config: DeviceData, colorModes: set<string>, e: Event)
    requires s.cache == t.cache
    ensures Step(s, config, colorModes, e).1 == Step(t, config, colorModes, e).1
    ensures Step(s, config, colorModes, e).0.cache == Step(t, config, colorModes, e).0.cache
  {
    match e
    case Get(k, fetched) => GetSeesOnlyCache(s, t, config, colorModes, k, fetched);
    case Set(k, v, pushed) =>
    case Refresh(k, data) =>
    case ResetTimer =>
  }

  lemma GetSeesOnlyCache(s: AccessoryState, t: AccessoryState, config: DeviceData, colorModes: set<string>,
                         k: Characteristic, fetched: Outcome<DeviceData>)
    requires s.cache == t.cache
    ensures Step(s, config, colorModes, Get(k, fetched)).1 == Step(t, config, colorModes, Get(k, fetched)).1
    ensures Step(s, config, colorModes, Get(k, fetched)).0.cache == Step(t, config, colorModes, Get(k, fetched)).0.cache
  {
    match k
    case Brightness =>
    case Hue =>
    case RotationSpeed =>
    case On =>
  }

  /** The same holds of any sequence of events. */
  lemma {:induction false} RunSeesOnlyCache(s: AccessoryState, t: AccessoryState, config: DeviceData, colorModes: set<string>, events: seq<Event>)
    requires s.cache == t.cache
    ensures Run(s, config, colorModes, events).1 == Run(t, config, colorModes, events).1
    ensures Run(s, config, colorModes, events).0.cache == Run(t, config, colorModes, events).0.cache
    decreases |events|
  {
    if events != [] {
      StepSeesOnlyCache(s, t, config, colorModes, events[0]);
      RunSeesOnlyCache(Step(s, config, colorModes, events[0]).0, Step(t, config, colorModes, events[0]).0,
                       config, colorModes, events[1..]);
    }
  }

  /** After any failure, nothing that happened before it can show: from two
      arbitrary histories, the same events that follow a failed step get the
      same replies and leave the same cache. */
  lemma FailureForgetsHistory(s: AccessoryState, t: AccessoryState, config: DeviceData, colorModes: set<string>,
                              e: Event, f: Event, later: seq<Event>)
    requires Step(s, config, colorModes, e).1.Failed? && Step(t, config, colorModes, f).1.Failed?
    ensures Run(Step(s, config, colorModes, e).0, config, colorModes, later).1
         == Run(Step(t, config, colorModes, f).0, config, colorModes, later).1
  {
    RunSeesOnlyCache(Step(s, config, colorModes, e).0, Step(t, config, colorModes, f).0, config, colorModes, later);
  }

  /** After a failure, the next read of a cached characteristic fetches the
      device state again. */
  lemma FailureForcesFetch(s: AccessoryState, config: DeviceData, colorModes: set<string>, e: Event,
                           k: Characteristic, fetched: Outcome<DeviceData>)
    requires Step(s, config, colorModes, e).1.Failed? && k != On
    ensures var failed := Step(s, config, colorModes, e).0;
            Step(failed, config, colorModes, Get(k, fetched)).0.calls == failed.calls + [GetDeviceState]
  {
  }

  /** A successful write of a non-zero value is read back at once, with the
      write's request as the only one issued. */
  lemma SetThenGetAnswersFromCache(s: AccessoryState, config: DeviceData, colorModes: set<string>,
                                   k: Characteristic, v: real, fetched: Outcome<DeviceData>)
    requires k != On && v != 0.0
    ensures var r := Run(s, config, colorModes, [Set(k, v, Ok(())), Get(k, fetched)]);
            r.1 == [Acknowledged, Answered(Num(v))] && |r.0.calls| == |s.calls| + 1
  {
    RunTwo(s, config, colorModes, Set(k, v, Ok(())), Get(k, fetched));
    var s1 := Step(s, config, colorModes, Set(k, v, Ok(()))).0;
    assert CacheHit(s1, k);
  }

  /** Two events in a row. */
  lemma RunTwo(s: AccessoryState, config: DeviceData, colorModes: set<string>, a: Event, b: Event)
    ensures var first := Step(s, config, colorModes, a);
            var second := Step(first.0, config, colorModes, b);
            Run(s, config, colorModes, [a, b]) == (second.0, [first.1, second.1])
  {
    var first := Step(s, config, colorModes, a);
    var second := Step(first.0, config, colorModes, b);
    assert [a, b][1..] == [b] && [b][1..] == [] && [b][0] == b && [a, b][0] == a;
    assert Run(second.0, config, colorModes, []) == (second.0, []);
    assert Run(first.0, config, colorModes, [b]).0 == second.0;
    assert [second.1] + [] == [second.1];
    assert Run(first.0, config, colorModes, [b]) == (second.0, [second.1]);
    assert [first.1] + [second.1] == [first.1, second.1];
  }

  /** The momentary switch never occupies the cache. */
  lemma {:induction false} OnNeverCached(s: AccessoryState, config: DeviceData, colorModes: set<string>, events: seq<Event>)
    requires On !in s.cache
    ensures On !in Run(s, config, colorModes, events).0.cache
    decreases |events|
  {
    if events != [] {
      OnNeverCached(Step(s, config, colorModes, events[0]).0, config, colorModes, events[1..]);
    }
  }

  /** Reading the momentary switch answers 0 and changes nothing, whatever
      is cached and whatever the device would report. */
  lemma MomentaryReadIsConstant(s: AccessoryState, config: DeviceData, colorModes: set<string>, fetched: Outcome<DeviceData>)
    ensures Step(s, config, colorModes, Get(On, fetched)) == (s, Answered(Num(0.0)))
  {
  }

  /** Running two sequences one after the other. */
  lemma {:induction false} RunAppend(s: AccessoryState, config: DeviceData, colorModes: set<string>, a: seq<Event>, b: seq<Event>)
    ensures var first := Run(s, config, colorModes, a);
            var second := Run(first.0, config, colorModes, b);
            Run(s, config, colorModes, a + b) == (second.0, first.1 + second.1)
    decreases |a|
  {
    if a == [] {
      assert a + b == b;
      assert Run(s, config, colorModes, a) == (s, []);
      assert [] + Run(s, config, colorModes, b).1 == Run(s, config, colorModes, b).1;
    } else {
      assert (a + b)[0] == a[0] && (a + b)[1..] == a[1..] + b;
      var (s1, reply) := Step(s, config, colorModes, a[0]);
      RunAppend(s1, config, colorModes, a[1..], b);
      var rest := Run(s1, config, colorModes, a[1..]);
      var second := Run(rest.0, config, colorModes, b);
      assert Run(s, config, colorModes, a) == (rest.0, [reply] + rest.1);
      assert [reply] + (rest.1 + second.1) == ([reply] + rest.1) + second.1;
    }
  }

  /** Events other than a timer firing never cancel a scheduled reset. */
  lemma {:induction false} ResetsStayPending(s: AccessoryState, config: DeviceData, colorModes: set<string>, events: seq<Event>)
    requires ResetTimer !in events
    ensures Run(s, config, colorModes, events).0.pendingResets >= s.pendingResets
    decreases |events|
  {
    if events != [] {
      assert events[0] in events;
      assert forall e | e in events[1..] :: e in events;
      ResetsStayPending(Step(s, config, colorModes, events[0]).0, config, colorModes, events[1..]);
    }
  }

  /** Switching on sends exactly one pulse, acknowledges, and leaves a reset
      pending; whatever events come in before the timer fires, including
      further writes and presses, the visible value is off once it does. */
  lemma MomentaryPulse(s: AccessoryState, config: DeviceData, colorModes: set<string>, v: real, between: seq<Event>)
    requires v != 0.0 && ResetTimer !in between
    ensures var pushed := Step(s, config, colorModes, Set(On, v, Ok(())));
            var r := Run(pushed.0, config, colorModes, between + [ResetTimer]);
            && pushed.1 == Acknowledged
            && pushed.0.calls == s.calls + [SetDeviceState("turnOnOff", 1.0)]
            && On in r.0.visible && r.0.visible[On] == Num(0.0)
  {
    var pushed := Step(s, config, colorModes, Set(On, v, Ok(())));
    assert pushed.0.pendingResets == s.pendingResets + 1;
    RunAppend(pushed.0, config, colorModes, between, [ResetTimer]);
    ResetsStayPending(pushed.0, config, colorModes, between);
    var mid := Run(pushed.0, config, colorModes, between).0;
    assert [ResetTimer][0] == ResetTimer && [ResetTimer][1..] == [];
    assert Run(mid, config, colorModes, [ResetTimer]).0 == MomentaryOnCharacteristic.ResetStep(mid);
  }

  /** A read that answers a truthy value from the device seeds the cache: a
      second read of the same characteristic answers the same value with no
      further request, whatever the device would report. */
  lemma GetThenGetAnswersFromCache(s: AccessoryState, config: DeviceData, colorModes: set<string>,
                                   k: Characteristic, fetched: Outcome<DeviceData>, again: Outcome<DeviceData>)
    requires k != On
    requires var first := Step(s, config, colorModes, Get(k, fetched)); first.1.Answered? && Truthy(first.1.value)
    ensures var r := Run(s, config, colorModes, [Get(k, fetched), Get(k, again)]);
            r.1[1] == r.1[0] && r.0 == Step(s, config, colorModes, Get(k, fetched)).0
  {
    RunTwo(s, config, colorModes, Get(k, fetched), Get(k, again));
    var first := Step(s, config, colorModes, Get(k, fetched));
    assert CacheHit(first.0, k);
    match k
    case Brightness =>
    case Hue =>
    case RotationSpeed =>
  }
}
