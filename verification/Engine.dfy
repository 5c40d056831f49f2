/** state/machine.go on values: what one car's state machine does with one input.
    The Manager class is proved against these functions, and the properties are proved about them. */
module Engine {
  import opened GoValues
  import opened Models
  import opened Tuning
  import T = Topics

  const DEFER_DELAY := 30 * SECOND
  const START_GRACE := 90 * SECOND
  const REARM_MARGIN := 3
  const MAX_RAW_FIELDS := 64
  const MAX_RAW_VALUE_LEN := 256

  const DRIVING := "driving"
  const SUSPENDED := "suspended"
  const ASLEEP := "asleep"
  const OFFLINE := "offline"
  const CHARGING := "Charging"
  const COMPLETE := "Complete"

  /** Fixed at construction: the battery thresholds, and strconv.ParseFloat and the JSON decoding of
      active routes as oracles. */
  datatype Params = Params(batteryLow: int, batteryHigh: int, parseFloat: string -> Option<real>,
                           parseRoute: string -> Option<RouteMessage>)

  /** What an input meets besides the car: the clock, the last (re)connect, the relay's knobs. */
  datatype Env = Env(now: nat, connectedAt: Option<nat>, knobs: Knobs)

  datatype Kind = Charge | Drive

  /** A running ticker with the stop channel that goes with it. */
  datatype Ticker = Ticker(chan: nat, period: int, next: int)

  /** A deferred event. Only `event` is stored by the program; `due` is when the goroutine started
      for this entry wakes up. */
  datatype Pending = Pending(event: EventType, due: nat)

  datatype Car = Car(
    state: string, chargingState: string, batteryLevel: int, pluggedIn: bool,
    geofence: string, previousGeofence: string, updateAvailable: string, updateVersion: string,
    displayName: string, model: string, centerDisplayState: int,
    chargerPower: real, speed: int, odometer: real, telemetry: Telemetry,
    lowFired: bool, highFired: bool,
    charge: Option<Ticker>, drive: Option<Ticker>, chargeOpens: nat, driveOpens: nat,
    driveStart: Option<nat>, driveStartOdometer: real,
    initialized: set<T.Field>, pending: seq<Pending>, raw: Option<map<string, string>>)

  const NEW_CAR := Car("", "", 0, false, "", "", "", "", "", "", 0, 0.0, 0, 0.0, NO_TELEMETRY,
                       false, false, None, None, 0, 0, None, 0.0, {}, [], None)

  /** What an input makes visible, in order. */
  datatype Effect =
    | Raised(event: EventType, geofence: string)
    | Deferred(event: EventType, due: nat)
    | Handed(payload: EventPayload)
    | Opened(kind: Kind, chan: nat, at: nat, period: int)
    | Closed(kind: Kind, chan: nat, at: nat)
    | Update(kind: Kind, at: nat, payload: EventPayload)
    | Panicked

  datatype Res = Res(car: Car, out: seq<Effect>)

  /** The constants of one input, bundled. */
  datatype Ctx = Ctx(p: Params, env: Env, id: string)

  // ----- Names, payloads -----

  function DisplayNameForCar(id: string, displayName: string, model: string): string {
    if displayName != "" then displayName
    else if model != "" then (if model in {"S", "3", "X", "Y"} then "Model " + model else model)
    else "Car " + id
  }

  function RawSnapshot(c: Car): Option<map<string, string>> {
    if c.raw.None? || |c.raw.value| == 0 then None else c.raw
  }

  function BuildPayload(x: Ctx, c: Car, e: EventType): EventPayload {
    var driving := c.driveStart.Some?;
    var distance := if driving && c.driveStartOdometer > 0.0 && c.odometer > c.driveStartOdometer
                    then c.odometer - c.driveStartOdometer else 0.0;
    var duration := if driving then x.env.now - c.driveStart.value else 0;
    EventPayload(e, x.id, DisplayNameForCar(x.id, c.displayName, c.model), x.env.now,
      EventData(c.batteryLevel, c.chargerPower, c.geofence, c.previousGeofence, c.state, c.chargingState,
                c.pluggedIn, c.updateVersion, c.speed, Reported(c.telemetry), distance, duration, RawSnapshot(c)))
  }

  // ----- Readiness and flushing -----

  predicate Enriched(c: Car) {
    (c.displayName != "" || c.model != "") && T.BatteryLevel in c.initialized
  }

  predicate Ready(e: EventType, c: Car) {
    Enriched(c) && (e == SoftwareUpdate ==> c.updateVersion != "")
  }

  function StillPending(c: Car, ps: seq<Pending>): seq<Pending> {
    if ps == [] then []
    else
      var rest := StillPending(c, ps[..|ps| - 1]);
      if Ready(ps[|ps| - 1].event, c) then rest else rest + [ps[|ps| - 1]]
  }

  function FlushOut(x: Ctx, c: Car, ps: seq<Pending>): seq<Effect> {
    if ps == [] then []
    else
      var rest := FlushOut(x, c, ps[..|ps| - 1]);
      if Ready(ps[|ps| - 1].event, c) then rest + [Handed(BuildPayload(x, c, ps[|ps| - 1].event))] else rest
  }

  /** The first pending entry of a type, or the length of the list. */
  function FirstPending(ps: seq<Pending>, e: EventType): (i: nat)
    ensures i <= |ps|
    ensures i < |ps| ==> ps[i].event == e
    ensures forall k | 0 <= k < i :: ps[k].event != e
  {
    if ps == [] || ps[0].event == e then 0 else 1 + FirstPending(ps[1..], e)
  }

  /** deferredEmit, once its sleep is over. */
  function Timeout(x: Ctx, c: Car, e: EventType): Res {
    var i := FirstPending(c.pending, e);
    if i == |c.pending| then Res(c, [])
    else
      var c' := c.(pending := c.pending[..i] + c.pending[i + 1..]);
      Res(c', [Handed(BuildPayload(x, c', e))])
  }

  // ----- Live Activity tickers -----

  function DrivingInterval(x: Ctx, c: Car): int {
    Period(x.env.knobs.drive, c.speed as real)
  }

  function ChargingInterval(x: Ctx, c: Car): int {
    Period(x.env.knobs.charge, c.chargerPower)
  }

  // ----- The operations a message may perform, one after the other -----

  datatype Op = Raise(event: EventType) | StartCharge | StopCharge | StartDrive | StopDrive | Flush

  predicate Immediate(e: EventType, c: Car) {
    e == LiveActivityUpdate || Ready(e, c)
  }

  /** emit: hand the event over, or defer it with a goroutine that wakes up in 30 seconds. */
  function Emit(x: Ctx, r: Res, e: EventType): Res {
    if Immediate(e, r.car) then
      Res(r.car, r.out + [Raised(e, r.car.geofence), Handed(BuildPayload(x, r.car, e))])
    else
      var due := x.env.now + DEFER_DELAY;
      Res(r.car.(pending := r.car.pending + [Pending(e, due)]),
          r.out + [Raised(e, r.car.geofence), Deferred(e, due)])
  }

  /** What starting or stopping a ticker makes of the car: a start always stops first. */
  function Switched(x: Ctx, c: Car, op: Op): Car {
    match op
    case StopCharge => c.(charge := None)
    case StartCharge =>
      var period := ChargingInterval(x, c);
      c.(charge := Some(Ticker(c.chargeOpens, period, x.env.now + period)), chargeOpens := c.chargeOpens + 1)
    case StopDrive => c.(drive := None, driveStart := None, driveStartOdometer := 0.0)
    case StartDrive =>
      var period := DrivingInterval(x, c);
      c.(drive := Some(Ticker(c.driveOpens, period, x.env.now + period)), driveOpens := c.driveOpens + 1,
         driveStart := Some(x.env.now), driveStartOdometer := c.odometer)
    case _ => c
  }

  function StopOut(kind: Kind, ticker: Option<Ticker>, now: nat): seq<Effect> {
    if ticker.None? then [] else [Closed(kind, ticker.value.chan, now)]
  }

  function SwitchOut(x: Ctx, c: Car, op: Op): seq<Effect> {
    match op
    case StopCharge => StopOut(Charge, c.charge, x.env.now)
    case StartCharge =>
      StopOut(Charge, c.charge, x.env.now) + [Opened(Charge, c.chargeOpens, x.env.now, ChargingInterval(x, c))]
    case StopDrive => StopOut(Drive, c.drive, x.env.now)
    case StartDrive =>
      StopOut(Drive, c.drive, x.env.now) + [Opened(Drive, c.driveOpens, x.env.now, DrivingInterval(x, c))]
    case _ => []
  }

  function FlushPending(x: Ctx, r: Res): Res {
    Res(r.car.(pending := StillPending(r.car, r.car.pending)), r.out + FlushOut(x, r.car, r.car.pending))
  }

  function Perform(x: Ctx, r: Res, op: Op): Res {
    match op
    case Raise(e) => Emit(x, r, e)
    case Flush => FlushPending(x, r)
    case _ => Res(Switched(x, r.car, op), r.out + SwitchOut(x, r.car, op))
  }

  function PerformAll(x: Ctx, r: Res, ops: seq<Op>): Res {
    if ops == [] then r else Perform(x, PerformAll(x, r, ops[..|ops| - 1]), ops[|ops| - 1])
  }

  /** A ticker that has just fired, after its goroutine re-resolved the period. */
  function Ticked(t: Ticker, period: int, now: nat): Ticker {
    if period != t.period then Ticker(t.chan, period, now + period) else t.(next := t.next + t.period)
  }

  /** The locked region of a ticker goroutine. There is one only if a ticker was ever started, and
      using a nil ticker would panic. */
  function Tick(x: Ctx, c: Car, kind: Kind): Res {
    match kind
    case Charge =>
      if c.chargeOpens == 0 || c.chargingState != CHARGING then Res(c, [])
      else if c.charge.None? then Res(c, [Panicked])
      else
        Res(c.(charge := Some(Ticked(c.charge.value, ChargingInterval(x, c), x.env.now))),
            [Update(Charge, x.env.now, BuildPayload(x, c, LiveActivityUpdate))])
    case Drive =>
      if c.driveOpens == 0 || c.state != DRIVING then Res(c, [])
      else if c.drive.None? then Res(c, [Panicked])
      else
        Res(c.(drive := Some(Ticked(c.drive.value, DrivingInterval(x, c), x.env.now))),
            [Update(Drive, x.env.now, BuildPayload(x, c, LiveActivityDrivingUpdate))])
  }

  // ----- Transitions -----

  predicate Sleeping(state: string) {
    state == ASLEEP || state == SUSPENDED || state == OFFLINE
  }

  function StateOps(prev: string, next: string): seq<Op> {
    (if next == DRIVING then [Raise(DriveStarted), StartDrive] else []) +
    (if prev == DRIVING then [StopDrive, Raise(DriveEnded)] else []) +
    (if next == SUSPENDED then [Raise(VehicleFallingAsleep)] else []) +
    (if next == ASLEEP || next == OFFLINE then [Raise(VehicleAsleep)] else []) +
    (if Sleeping(prev) && !Sleeping(next) then [Raise(VehicleWoke)] else [])
  }

  function ChargingOps(prev: string, next: string): seq<Op> {
    (if next == CHARGING then [Raise(ChargingStarted), StartCharge] else []) +
    (if next == COMPLETE then [StopCharge, Raise(ChargingCompleted)] else []) +
    (if prev == CHARGING && next != COMPLETE && next != CHARGING then [StopCharge, Raise(ChargingInterrupted)] else [])
  }

  datatype FirstAction = NoAction | TickerOnly | FullStart

  function SinceConnected(env: Env): int {
    if env.connectedAt.None? then 3600 * SECOND else env.now - env.connectedAt.value
  }

  function FirstChargingAction(value: string, sinceConnect: int): FirstAction {
    if value != CHARGING then NoAction
    else if sinceConnect < START_GRACE then TickerOnly
    else FullStart
  }

  /** The battery latches after a reading, and the alerts it fires. */
  datatype Alerts = Alerts(low: bool, high: bool, events: seq<EventType>)

  function BatteryThresholds(p: Params, level: int, low: bool, high: bool): Alerts {
    var low' := if level <= p.batteryLow then true else if level >= p.batteryLow + REARM_MARGIN then false else low;
    var high' := if level >= p.batteryHigh then true else if level <= p.batteryHigh - REARM_MARGIN then false else high;
    Alerts(low', high', (if low' && !low then [BatteryLow] else []) + (if high' && !high then [BatteryFull] else []))
  }

  // ----- Messages -----

  function Truncated(value: string): string {
    if |value| > MAX_RAW_VALUE_LEN then value[..MAX_RAW_VALUE_LEN] else value
  }

  /** The raw map after a field: dropped while the flag is off, and never grown beyond its cap. */
  function RawAfter(enabled: bool, raw: Option<map<string, string>>, name: string, value: string): Option<map<string,
                    string>> {
    if !enabled then None
    else
      var m := if raw.Some? then raw.value else map[];
      Some(if name !in m && |m| >= MAX_RAW_FIELDS then m else m[name := Truncated(value)])
  }

  function RecordRaw(x: Ctx, c: Car, name: string, value: string): Car {
    c.(raw := RawAfter(x.env.knobs.rawEnabled, c.raw, name, value))
  }

  /** The fields a message overwrites before anything else happens. */
  function Assign(p: Params, c: Car, f: T.Field, value: string, first: bool): Car {
    var x := p.parseFloat(value);
    var i := Atoi(value);
    match f
    case State => c.(state := value)
    case ChargingState => c.(chargingState := value)
    case BatteryLevel =>
      if i.None? then c
      else if first then c.(batteryLevel := i.value)
      else
        var a := BatteryThresholds(p, i.value, c.lowFired, c.highFired);
        c.(batteryLevel := i.value, lowFired := a.low, highFired := a.high)
    case PluggedIn => c.(pluggedIn := value == "true")
    case UpdateAvailable => c.(updateAvailable := value)
    case Geofence => c.(previousGeofence := c.geofence, geofence := value)
    case ChargerPower => if x.Some? then c.(chargerPower := x.value) else c
    case ChargeEnergyAdded => if x.Some? then c.(telemetry := c.telemetry.(chargeEnergyAdded := x.value)) else c
    case TimeToFullCharge => if x.Some? then c.(telemetry := c.telemetry.(timeToFullCharge := x.value)) else c
    case RatedRangeKm => if x.Some? then c.(telemetry := c.telemetry.(ratedRangeKm := x.value)) else c
    case UsableBattery => if i.Some? then c.(telemetry := c.telemetry.(usableBattery := i.value)) else c
    case DisplayName => c.(displayName := value)
    case Model => c.(model := value)
    case ChargeLimitSoc => if i.Some? then c.(telemetry := c.telemetry.(chargeLimitSoc := i.value)) else c
    case UpdateVersion => c.(updateVersion := value)
    case Speed => if i.Some? then c.(speed := i.value) else c
    case OutsideTemp => if x.Some? then c.(telemetry := c.telemetry.(outsideTemp := x.value)) else c
    case Odometer => if x.Some? then c.(odometer := x.value) else c
    case ActiveRoute =>
      var m := p.parseRoute(value);
      if m.Some? then c.(telemetry := Routed(c.telemetry, m.value)) else c
    case CenterDisplayState => if i.Some? then c.(centerDisplayState := i.value) else c
  }

  function RaiseAll(events: seq<EventType>): seq<Op> {
    if events == [] then [] else RaiseAll(events[..|events| - 1]) + [Raise(events[|events| - 1])]
  }

  function GeofenceOps(prev: string, next: string): seq<Op> {
    if prev == next then []
    else if prev == "" then [Raise(GeofenceEntered)]
    else if next == "" then [Raise(GeofenceExited)]
    else [Raise(GeofenceExited), Raise(GeofenceEntered)]
  }

  /** What a message then does, decided on the car as it was before. */
  function Plan(x: Ctx, c: Car, f: T.Field, value: string, first: bool): seq<Op> {
    match f
    case State => if !first && c.state != value then StateOps(c.state, value) else []
    case ChargingState =>
      if first then
        match FirstChargingAction(value, SinceConnected(x.env))
        case FullStart => ChargingOps("", CHARGING)
        case TickerOnly => [StartCharge]
        case NoAction => []
      else if c.chargingState != value then ChargingOps(c.chargingState, value)
      else []
    case BatteryLevel =>
      if Atoi(value).None? then []
      else if first then [Flush]
      else RaiseAll(BatteryThresholds(x.p, Atoi(value).value, c.lowFired, c.highFired).events) + [Flush]
    case PluggedIn =>
      if !first && c.pluggedIn != (value == "true")
      then [Raise(if value == "true" then ChargerConnected else ChargerDisconnected)] else []
    case UpdateAvailable =>
      if !first && c.updateAvailable != "true" && value == "true" then [Raise(SoftwareUpdate)] else []
    case Geofence => if first then [] else GeofenceOps(c.geofence, value)
    case DisplayName => [Flush]
    case Model => [Flush]
    case UpdateVersion => [Flush]
    case CenterDisplayState =>
      if Atoi(value).Some? && !first && c.centerDisplayState != 7 && Atoi(value).value == 7
      then [Raise(SentryRecording)] else []
    case _ => []
  }

  function Received(x: Ctx, c: Car, f: T.Field, value: string): Car {
    var c1 := RecordRaw(x, c, T.FieldName(f), value);
    c1.(initialized := c1.initialized + {f})
  }

  function HandleMessage(x: Ctx, c: Car, f: T.Field, value: string): Res {
    var c1 := Received(x, c, f, value);
    var first := f !in c.initialized;
    PerformAll(x, Res(Assign(x.p, c1, f, value, first), []), Plan(x, c1, f, value, first))
  }

  // ----- Inputs and histories -----

  datatype Input =
    | Msg(field: T.Field, value: string)
    | Unknown(name: string, value: string)
    | Wake(event: EventType)
    | Fire(kind: Kind)

  function Apply(x: Ctx, c: Car, i: Input): Res {
    match i
    case Msg(f, value) => HandleMessage(x, c, f, value)
    case Unknown(name, value) => Res(if x.env.knobs.rawEnabled then RecordRaw(x, c, name, value) else c, [])
    case Wake(e) => Timeout(x, c, e)
    case Fire(kind) => Tick(x, c, kind)
  }

  /** One input together with what it met. */
  datatype Event = Event(env: Env, input: Input)

  /** A car's whole life: its history of inputs, from a car as NewManager or getOrCreate makes it. */
  function Life(p: Params, id: string, c0: Car, history: seq<Event>): Res {
    if history == [] then Res(c0, [])
    else
      var r := Life(p, id, c0, history[..|history| - 1]);
      var e := history[|history| - 1];
      var s := Apply(Ctx(p, e.env, id), r.car, e.input);
      Res(s.car, r.out + s.out)
  }

  lemma {:induction false} LifeSnoc(p: Params, id: string, c0: Car, history: seq<Event>, e: Event)
    ensures var r := Life(p, id, c0, history);
            var s := Apply(Ctx(p, e.env, id), r.car, e.input);
            Life(p, id, c0, history + [e]) == Res(s.car, r.out + s.out)
  {
    assert (history + [e])[..|history|] == history;
  }

  /** A car nothing has been received for; its name may come from the cache. */
  function RestoredCar(displayName: string, model: string): Car {
    NEW_CAR.(displayName := displayName, model := model,
             initialized := (if displayName != "" then {T.DisplayName} else {}) + (if model != "" then {T.Model} else {}))
  }
}
