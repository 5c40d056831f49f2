/** relay/models.go: event types and the payload handed to the relay client. */
module Models {
  import opened GoValues

  datatype EventType =
    | VehicleFallingAsleep | VehicleAsleep | VehicleWoke
    | DriveStarted | DriveEnded
    | ChargingStarted | ChargingCompleted | ChargingInterrupted
    | BatteryLow | BatteryFull
    | ChargerConnected | ChargerDisconnected
    | SoftwareUpdate | GeofenceEntered | GeofenceExited | SentryRecording
    | LiveActivityUpdate | LiveActivityDrivingUpdate

  function EventName(e: EventType): string {
    match e
    case VehicleFallingAsleep => "vehicle_falling_asleep"
    case VehicleAsleep => "vehicle_asleep"
    case VehicleWoke => "vehicle_woke"
    case DriveStarted => "drive_started"
    case DriveEnded => "drive_ended"
    case ChargingStarted => "charging_started"
    case ChargingCompleted => "charging_completed"
    case ChargingInterrupted => "charging_interrupted"
    case BatteryLow => "battery_low"
    case BatteryFull => "battery_full"
    case ChargerConnected => "charger_connected"
    case ChargerDisconnected => "charger_disconnected"
    case SoftwareUpdate => "software_update"
    case GeofenceEntered => "geofence_entered"
    case GeofenceExited => "geofence_exited"
    case SentryRecording => "sentry_recording"
    case LiveActivityUpdate => "live_activity_update"
    case LiveActivityDrivingUpdate => "live_activity_driving_update"
  }

  /** The active route, as its topic's JSON gives it. */
  datatype Route = Route(
    destination: string, milesToArrival: real, minutesToArrival: real, energyAtArrival: int, trafficDelay: real)

  const NO_ROUTE := Route("", 0.0, 0.0, 0, 0.0)

  datatype Location = Location(latitude: real, longitude: real)

  const NOWHERE := Location(0.0, 0.0)

  /** The two kinds of JSON on the active_route topic: no route, or one that may say where it ends. */
  datatype RouteMessage = RouteError | RouteUpdate(route: Route, location: Option<Location>)

  /** Measurements that only ever travel from MQTT into payloads. */
  datatype Telemetry = Telemetry(
    chargeEnergyAdded: real, timeToFullCharge: real, ratedRangeKm: real,
    usableBattery: int, chargeLimitSoc: int, outsideTemp: real, route: Route, location: Location)

  const NO_TELEMETRY := Telemetry(0.0, 0.0, 0.0, 0, 0, 0.0, NO_ROUTE, NOWHERE)

  /** A message without a location keeps the last one. */
  function Routed(t: Telemetry, m: RouteMessage): Telemetry {
    match m
    case RouteError => t.(route := NO_ROUTE, location := NOWHERE)
    case RouteUpdate(route, location) =>
      t.(route := route, location := if location.Some? then location.value else t.location)
  }

  /** What payloads carry: everything but the location of the destination. */
  function Reported(t: Telemetry): Telemetry {
    t.(location := NOWHERE)
  }

  datatype EventData = EventData(
    batteryLevel: int, chargerPower: real, geofence: string, previousGeofence: string,
    state: string, chargingState: string, pluggedIn: bool, updateVersion: string, speed: int,
    telemetry: Telemetry, distance: real, duration: int, raw: Option<map<string, string>>)

  datatype EventPayload = EventPayload(
    eventType: EventType, carID: string, carName: string, timestamp: nat, data: EventData)

  /** The debounce key: carID + ":" + eventType. */
  function Key(carID: string, e: EventType): string {
    carID + ":" + EventName(e)
  }

  /** The events of a car's own state, as opposed to those of its battery and surroundings. */
  predicate AboutState(e: EventType) {
    e.VehicleFallingAsleep? || e.VehicleAsleep? || e.VehicleWoke? || e.DriveStarted? || e.DriveEnded? ||
    e.ChargingStarted? || e.ChargingCompleted? || e.ChargingInterrupted?
  }

  lemma {:induction false} StateNameHasNoColon(e: EventType)
    requires AboutState(e)
    ensures ':' !in EventName(e)
  {
  }

  /** Those of its battery and charger. */
  predicate AboutPower(e: EventType) {
    e.BatteryLow? || e.BatteryFull? || e.ChargerConnected? || e.ChargerDisconnected?
  }

  lemma {:induction false} PowerNameHasNoColon(e: EventType)
    requires AboutPower(e)
    ensures ':' !in EventName(e)
  {
  }

  lemma {:induction false} OtherNameHasNoColon(e: EventType)
    requires !AboutState(e) && !AboutPower(e)
    ensures ':' !in EventName(e)
  {
  }

  lemma {:induction false} EventNameHasNoColon(e: EventType)
    ensures ':' !in EventName(e)
  {
    if AboutState(e) {
      StateNameHasNoColon(e);
    } else if AboutPower(e) {
      PowerNameHasNoColon(e);
    } else {
      OtherNameHasNoColon(e);
    }
  }

  lemma {:induction false} EventNameInjective(e: EventType, f: EventType)
    requires EventName(e) == EventName(f)
    ensures e == f
  {
  }

  /** The last colon of a key is the separator, so a key determines its car and its event type,
      whatever characters the car ID contains. */
  lemma {:induction false} KeyInjective(carID: string, e: EventType, otherID: string, f: EventType)
    requires Key(carID, e) == Key(otherID, f)
    ensures carID == otherID && e == f
  {
    EventNameHasNoColon(e);
    EventNameHasNoColon(f);
    LastColon(carID, EventName(e), otherID, EventName(f));
    EventNameInjective(e, f);
  }

  lemma {:induction false} LastColon(a: string, x: string, b: string, y: string)
    requires ':' !in x && ':' !in y
    requires a + ":" + x == b + ":" + y
    ensures a == b && x == y
  {
    ColonNotBefore(a, x, b, y);
    ColonNotBefore(b, y, a, x);
    assert (a + ":" + x)[..|a|] == a && (b + ":" + y)[..|b|] == b;
    assert (a + ":" + x)[|a| + 1..] == x && (b + ":" + y)[|b| + 1..] == y;
  }

  lemma {:induction false} ColonNotBefore(a: string, x: string, b: string, y: string)
    requires ':' !in x
    requires a + ":" + x == b + ":" + y
    ensures |b| <= |a|
  {
    assert (b + ":" + y)[|b|] == ':';
    assert forall i | |a| < i < |a| + 1 + |x| :: (a + ":" + x)[i] == x[i - |a| - 1];
  }
}
