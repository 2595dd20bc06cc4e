/**
 * The values the device service passes around: device configuration snapshots,
 * system settings, the per-device realtime status record, and the parts of a
 * JSON document that the service ever reads.
 */
module Types {

  datatype Option<+T> = None | Some(value: T)

  /** Wall-clock instants, in whole seconds. */
  type Time = int

  type DeviceId = int

  datatype DeviceType = SwitchableAppliance | PowerMonitor | GridMonitor

  datatype Provider = Shelly | Tasmota

  datatype ControlState = Enabled | DisabledByUser | DisabledByBalancer

  /** Tasmota's "ENERGY" object. */
  datatype Energy = Energy(power: Option<real>, voltage: Option<real>, current: Option<real>)

  /**
   * A parsed JSON payload, seen through the keys the service reads. A key that
   * is absent is `None`; a present key holds what Jackson's `asBoolean`,
   * `asDouble` or `asText` yields for it.
   *   output       "output"
   *   apower       "apower"
   *   power        "power"
   *   aenergyTotal "aenergy"."total"
   *   voltage      "voltage"
   *   current      "current"
   *   rpcMethod    "method"
   *   switch0      "params"."switch:0" (a status document of its own)
   *   energy       "ENERGY"
   *   powerState   "POWER"
   */
  datatype Json = Json(
    output: Option<bool>,
    apower: Option<real>,
    power: Option<real>,
    aenergyTotal: Option<real>,
    voltage: Option<real>,
    current: Option<real>,
    rpcMethod: Option<string>,
    switch0: Option<Json>,
    energy: Option<Energy>,
    powerState: Option<string>)

  /** A JSON object with none of the keys above. */
  const EmptyJson := Json(None, None, None, None, None, None, None, None, None, None)

  /** A device as the inventory service describes it. */
  datatype Device = Device(
    id: DeviceId,
    name: string,
    mqttPrefix: string,
    deviceType: DeviceType,
    provider: Option<Provider>,
    priority: int,
    wattage: Option<int>,
    preventDowntime: bool,
    nonEssential: bool,
    maxDowntimeMinutes: Option<int>,
    username: Option<string>)

  datatype Settings = Settings(
    powerLimitWatts: Option<int>,
    powerSaveLimitWatts: Option<int>,
    powerOnMarginWatts: Option<int>,
    overloadCooldownSeconds: Option<int>,
    vacationModeEnabled: bool)

  /** The cached view of one scope: settings, roster and grid flag. */
  datatype SystemState = SystemState(
    settings: Option<Settings>,
    devices: seq<Device>,
    gridPowerAvailable: bool)

  /** The realtime status record kept per device. */
  datatype DeviceStatus = DeviceStatus(
    deviceId: DeviceId,
    mqttPrefix: Option<string>,
    lastStatusJson: Option<Json>,
    lastOnline: Option<bool>,
    lastEventJson: Option<Json>,
    controlState: Option<ControlState>,
    balancerDisabledAt: Option<Time>)

  /** An outbound MQTT message: topic and payload text. */
  datatype MqttMessage = MqttMessage(topic: string, payload: string)

  /**
   * What a protocol adapter's handler does with one message: the boolean it
   * returns, and the call it makes back into the gateway, if any (the online
   * flag, or the status or event document it hands over).
   */
  datatype Handled<T> = Handled(accepted: bool, call: Option<T>)

  /** Configured wattage, with a missing value read as 0. */
  function WattageOrZero(d: Device): int
  {
    match d.wattage
    case Some(w) => w
    case None => 0
  }
}
