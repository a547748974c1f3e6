/** The Tuya web API as the characteristic code consumes it: the `data`
    payload of a device, the outcome of one request, and the requests sent.
    The client itself (HTTP, authentication, timeouts) is not part of this model:
    each request becomes a step whose outcome is supplied by the caller. */
module TuyaWebApi {
  import opened Js

  /** The `color` object of a device payload. */
  datatype Color = Color(brightness: Option<string>, hue: Option<string>)

  /** The `data` object of a Tuya device (the configuration an accessory was
      built from, or a freshly fetched state); every field may be absent. */
  datatype DeviceData = DeviceData(
    brightness: Option<string>,
    colorMode: Option<string>,
    color: Option<Color>,
    speed: Option<string>,
    speedLevel: Option<int>)

  /** How one asynchronous request settles: resolved with a value, or rejected
      with an error carrying a message. */
  datatype Outcome<T> = Ok(value: T) | Err(message: string)

  /** A request issued on behalf of a characteristic. `SetColor` is a call of
      `ColorAccessory.setColor({hue})`, whose own requests are not modelled. */
  datatype RemoteCall =
    | GetDeviceState
    | SetDeviceState(command: string, value: real)
    | SetColor(hue: real)

  /** `data.color_mode !== undefined && data.color_mode in COLOR_MODES`; the
      contents of `COLOR_MODES` are the uninterpreted parameter `colorModes`. */
  predicate ColorModeRecognised(data: DeviceData, colorModes: set<string>) {
    data.colorMode.Some? && data.colorMode.value in colorModes
  }
}
