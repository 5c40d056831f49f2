/** What a car's record holds: for every field the last value received, as far as it could be read. */
module Memory {
  import opened GoValues
  import opened Models
  import opened Engine
  import D = Deferral
  import K = Tickers
  import R = Replay
  import T = Topics

  // ----- What a history says, read off its messages alone -----

  /** For every field the last value received and the one before it, the last value that is an integer
      and the last one that is a number; the last route that was not withdrawn, and the last location
      given since the last withdrawal. */
  datatype Known = Known(
    values: map<T.Field, string>, before: map<T.Field, string>, ints: map<T.Field, int>, reals: map<T.Field, real>,
    route: Route, location: Location)

  const NOTHING := Known(map[], map[], map[], map[], Route("", 0.0, 0.0, 0, 0.0), Location(0.0, 0.0))

  predicate Is(e: Event, f: T.Field) {
    e.input.Msg? && e.input.field == f
  }

  function Learned(p: Params, k: Known, e: Event): Known {
    if !e.input.Msg? then k
    else
      var f, value := e.input.field, e.input.value;
      var i, r := Atoi(value), p.parseFloat(value);
      var route := if f == T.ActiveRoute then p.parseRoute(value) else None;
      Known(k.values[f := value],
            k.before[f := Of(k.values, f, "")],
            if i.Some? then k.ints[f := i.value] else k.ints,
            if r.Some? then k.reals[f := r.value] else k.reals,
            if route.None? then k.route else if route.value.RouteError? then Route("", 0.0, 0.0, 0, 0.0) else route.value.route,
            if route.None? then k.location
            else if route.value.RouteError? then Location(0.0, 0.0)
            else if route.value.location.Some? then route.value.location.value else k.location)
  }

  function Knowledge(p: Params, history: seq<Event>): Known {
    if history == [] then NOTHING
    else Learned(p, Knowledge(p, history[..|history| - 1]), history[|history| - 1])
  }

  /** The value a map has for a field, or a default. */
  function Of<A>(m: map<T.Field, A>, f: T.Field, def: A): A {
    if f in m then m[f] else def
  }

  // ----- The record -----

  /** What the car does and where it is. */
  ghost predicate Doings(c: Car, k: Known) {
    && c.state == Of(k.values, T.State, "")
    && c.chargingState == Of(k.values, T.ChargingState, "")
    && c.pluggedIn == (Of(k.values, T.PluggedIn, "") == "true")
    && c.geofence == Of(k.values, T.Geofence, "")
    && c.previousGeofence == Of(k.before, T.Geofence, "")
  }

  /** What it is called, possibly in the cache only, and what it could be updated to. */
  ghost predicate Names(c: Car, c0: Car, k: Known) {
    && c.displayName == Of(k.values, T.DisplayName, c0.displayName)
    && c.model == Of(k.values, T.Model, c0.model)
    && c.updateAvailable == Of(k.values, T.UpdateAvailable, "")
    && c.updateVersion == Of(k.values, T.UpdateVersion, "")
  }

  /** The numbers it acts upon. */
  ghost predicate Numbers(c: Car, k: Known) {
    && c.batteryLevel == Of(k.ints, T.BatteryLevel, 0)
    && c.centerDisplayState == Of(k.ints, T.CenterDisplayState, 0)
    && c.speed == Of(k.ints, T.Speed, 0)
    && c.chargerPower == Of(k.reals, T.ChargerPower, 0.0)
    && c.odometer == Of(k.reals, T.Odometer, 0.0)
  }

  /** The measurements it only passes on. */
  ghost predicate Measured(t: Telemetry, k: Known) {
    && t.chargeEnergyAdded == Of(k.reals, T.ChargeEnergyAdded, 0.0)
    && t.timeToFullCharge == Of(k.reals, T.TimeToFullCharge, 0.0)
    && t.ratedRangeKm == Of(k.reals, T.RatedRangeKm, 0.0)
    && t.outsideTemp == Of(k.reals, T.OutsideTemp, 0.0)
    && t.usableBattery == Of(k.ints, T.UsableBattery, 0)
    && t.chargeLimitSoc == Of(k.ints, T.ChargeLimitSoc, 0)
    && t.route == k.route && t.location == k.location
  }

  /** The fields, but for cached names, that have been received. */
  ghost predicate Seen(c: Car, k: Known) {
    forall f: T.Field | f != T.DisplayName && f != T.Model :: f in c.initialized <==> f in k.values
  }

  ghost predicate Remembers(c: Car, c0: Car, k: Known) {
    Doings(c, k) && Names(c, c0, k) && Numbers(c, k) && Measured(c.telemetry, k) && Seen(c, k)
  }

  // ----- One message -----

  lemma {:induction false} AssignPlaces(p: Params, c: Car, f: T.Field, value: string, first: bool)
    ensures var d := Assign(p, c, f, value, first);
            && d.previousGeofence == (if f == T.Geofence then c.geofence else c.previousGeofence)
            && d.updateAvailable == (if f == T.UpdateAvailable then value else c.updateAvailable)
  {
  }

  lemma {:induction false} AssignLevel(p: Params, c: Car, f: T.Field, value: string, first: bool)
    ensures Assign(p, c, f, value, first).batteryLevel == (if f == T.BatteryLevel && Atoi(value).Some? then Atoi(value).value else c.batteryLevel)
  {
  }

  lemma {:induction false} AssignInts(p: Params, c: Car, f: T.Field, value: string, first: bool)
    ensures var d := Assign(p, c, f, value, first);
            && d.centerDisplayState == (if f == T.CenterDisplayState && Atoi(value).Some? then Atoi(value).value else c.centerDisplayState)
            && d.speed == (if f == T.Speed && Atoi(value).Some? then Atoi(value).value else c.speed)
  {
  }

  lemma {:induction false} AssignReals(p: Params, c: Car, f: T.Field, value: string, first: bool)
    ensures var d := Assign(p, c, f, value, first);
            && d.chargerPower == (if f == T.ChargerPower && p.parseFloat(value).Some? then p.parseFloat(value).value else c.chargerPower)
            && d.odometer == (if f == T.Odometer && p.parseFloat(value).Some? then p.parseFloat(value).value else c.odometer)
  {
  }

  lemma {:induction false} AssignCharge(p: Params, c: Car, f: T.Field, value: string, first: bool)
    ensures var t, u := c.telemetry, Assign(p, c, f, value, first).telemetry;
            && u.chargeEnergyAdded == (if f == T.ChargeEnergyAdded && p.parseFloat(value).Some? then p.parseFloat(value).value else t.chargeEnergyAdded)
            && u.timeToFullCharge == (if f == T.TimeToFullCharge && p.parseFloat(value).Some? then p.parseFloat(value).value else t.timeToFullCharge)
  {
  }

  lemma {:induction false} AssignRange(p: Params, c: Car, f: T.Field, value: string, first: bool)
    ensures var t, u := c.telemetry, Assign(p, c, f, value, first).telemetry;
            && u.ratedRangeKm == (if f == T.RatedRangeKm && p.parseFloat(value).Some? then p.parseFloat(value).value else t.ratedRangeKm)
            && u.outsideTemp == (if f == T.OutsideTemp && p.parseFloat(value).Some? then p.parseFloat(value).value else t.outsideTemp)
  {
  }

  lemma {:induction false} AssignPercents(p: Params, c: Car, f: T.Field, value: string, first: bool)
    ensures var t, u := c.telemetry, Assign(p, c, f, value, first).telemetry;
            && u.usableBattery == (if f == T.UsableBattery && Atoi(value).Some? then Atoi(value).value else t.usableBattery)
            && u.chargeLimitSoc == (if f == T.ChargeLimitSoc && Atoi(value).Some? then Atoi(value).value else t.chargeLimitSoc)
  {
  }

  lemma {:induction false} AssignRoute(p: Params, c: Car, f: T.Field, value: string, first: bool)
    ensures var t, u := c.telemetry, Assign(p, c, f, value, first).telemetry;
            var m := if f == T.ActiveRoute then p.parseRoute(value) else None;
            && u.route == (if m.None? then t.route else if m.value.RouteError? then Route("", 0.0, 0.0, 0, 0.0) else m.value.route)
            && u.location == (if m.None? then t.location
                              else if m.value.RouteError? then Location(0.0, 0.0)
                              else if m.value.location.Some? then m.value.location.value else t.location)
  {
  }

  lemma {:induction false} AssignDoings(p: Params, c: Car, k: Known, e: Event, first: bool)
    requires Doings(c, k) && e.input.Msg?
    ensures Doings(Assign(p, c, e.input.field, e.input.value, first), Learned(p, k, e))
  {
    R.AssignShown(p, c, e.input.field, e.input.value, first);
    AssignPlaces(p, c, e.input.field, e.input.value, first);
    var s, t := R.Show(c), R.Show(Assign(p, c, e.input.field, e.input.value, first));
    assert s.state == c.state;
  }

  lemma {:induction false} AssignNamed(p: Params, c: Car, c0: Car, k: Known, e: Event, first: bool)
    requires Names(c, c0, k) && e.input.Msg?
    ensures Names(Assign(p, c, e.input.field, e.input.value, first), c0, Learned(p, k, e))
  {
    D.AssignNames(p, c, e.input.field, e.input.value, first);
    AssignPlaces(p, c, e.input.field, e.input.value, first);
  }

  lemma {:induction false} AssignNumbers(p: Params, c: Car, k: Known, e: Event, first: bool)
    requires Numbers(c, k) && e.input.Msg?
    ensures Numbers(Assign(p, c, e.input.field, e.input.value, first), Learned(p, k, e))
  {
    AssignLevel(p, c, e.input.field, e.input.value, first);
    AssignInts(p, c, e.input.field, e.input.value, first);
    AssignReals(p, c, e.input.field, e.input.value, first);
  }

  lemma {:induction false} AssignMeasured(p: Params, c: Car, k: Known, e: Event, first: bool)
    requires Measured(c.telemetry, k) && e.input.Msg?
    ensures Measured(Assign(p, c, e.input.field, e.input.value, first).telemetry, Learned(p, k, e))
  {
    AssignCharge(p, c, e.input.field, e.input.value, first);
    AssignRange(p, c, e.input.field, e.input.value, first);
    AssignPercents(p, c, e.input.field, e.input.value, first);
    AssignRoute(p, c, e.input.field, e.input.value, first);
  }

  /** The two cars hold the same values. */
  ghost predicate SameValues(c: Car, d: Car) {
    && R.Show(c) == R.Show(d) && D.SameNaming(c, d)
    && c.batteryLevel == d.batteryLevel && c.previousGeofence == d.previousGeofence && c.updateAvailable == d.updateAvailable
    && c.centerDisplayState == d.centerDisplayState && c.chargerPower == d.chargerPower && c.speed == d.speed
    && c.odometer == d.odometer && c.telemetry == d.telemetry
  }

  lemma {:induction false} OpsKeepValues(x: Ctx, r: Res, ops: seq<Op>)
    ensures SameValues(r.car, PerformAll(x, r, ops).car) && PerformAll(x, r, ops).car.raw == r.car.raw
  {
    if ops != [] {
      OpsKeepValues(x, r, ops[..|ops| - 1]);
      OpKeepsValues(x, PerformAll(x, r, ops[..|ops| - 1]), ops[|ops| - 1]);
    }
  }

  lemma {:induction false} OpKeepsValues(x: Ctx, r: Res, op: Op)
    ensures SameValues(r.car, Perform(x, r, op).car) && Perform(x, r, op).car.raw == r.car.raw
  {
  }

  lemma {:induction false} OtherKeepsValues(x: Ctx, c: Car, i: Input)
    requires !i.Msg?
    ensures SameValues(c, Apply(x, c, i).car)
    ensures !i.Unknown? ==> Apply(x, c, i).car.raw == c.raw
  {
    match i
    case Unknown(name, value) => RecordKeeps(x, c, name, value);
    case Wake(e) => WakeKeeps(x, c, e);
    case Fire(kind) => TickKeeps(x, c, kind);
  }

  lemma {:induction false} RecordKeeps(x: Ctx, c: Car, name: string, value: string)
    ensures RecordRaw(x, c, name, value) == c.(raw := RecordRaw(x, c, name, value).raw)
  {
  }

  lemma {:induction false} WakeKeeps(x: Ctx, c: Car, e: EventType)
    ensures Timeout(x, c, e).car == c.(pending := Timeout(x, c, e).car.pending)
  {
  }

  lemma {:induction false} TickKeeps(x: Ctx, c: Car, kind: Kind)
    ensures Tick(x, c, kind).car == c.(charge := Tick(x, c, kind).car.charge, drive := Tick(x, c, kind).car.drive)
  {
  }

  lemma {:induction false} SameRemembers(c: Car, d: Car, c0: Car, k: Known)
    requires Remembers(c, c0, k) && SameValues(c, d)
    ensures Remembers(d, c0, k)
  {
  }

  /** What a message assigns, before anything else happens. */
  function Assigned(x: Ctx, c: Car, f: T.Field, value: string): Car {
    Assign(x.p, Received(x, c, f, value), f, value, f !in c.initialized)
  }

  lemma {:induction false} AssignedRemembers(x: Ctx, c: Car, c0: Car, k: Known, e: Event)
    requires Remembers(c, c0, k) && e.input.Msg?
    ensures Remembers(Assigned(x, c, e.input.field, e.input.value), c0, Learned(x.p, k, e))
  {
    var f, value := e.input.field, e.input.value;
    var c1 := Received(x, c, f, value);
    var first := f !in c.initialized;
    ReceivedKeeps(x, c, f, value);
    AssignDoings(x.p, c1, k, e, first);
    AssignNamed(x.p, c1, c0, k, e, first);
    AssignNumbers(x.p, c1, k, e, first);
    AssignMeasured(x.p, c1, k, e, first);
    D.AssignKeepsPending(x.p, c1, f, value, first);
  }

  lemma {:induction false} ReceivedKeeps(x: Ctx, c: Car, f: T.Field, value: string)
    ensures Received(x, c, f, value) == c.(initialized := c.initialized + {f}, raw := Received(x, c, f, value).raw)
  {
  }

  /** One input, on top of what the car remembers. */
  lemma {:induction false} InputRemembers(x: Ctx, c: Car, c0: Car, k: Known, e: Event)
    requires Remembers(c, c0, k)
    ensures Remembers(Apply(x, c, e.input).car, c0, Learned(x.p, k, e))
  {
    if e.input.Msg? {
      var f, value := e.input.field, e.input.value;
      AssignedRemembers(x, c, c0, k, e);
      var r0 := Res(Assigned(x, c, f, value), []);
      var ops := Plan(x, Received(x, c, f, value), f, value, f !in c.initialized);
      OpsKeepValues(x, r0, ops);
      SameRemembers(r0.car, PerformAll(x, r0, ops).car, c0, Learned(x.p, k, e));
    } else {
      OtherKeepsValues(x, c, e.input);
      SameRemembers(c, Apply(x, c, e.input).car, c0, k);
    }
  }

  lemma {:induction false} NothingRemembered(c0: Car)
    requires K.Fresh(c0)
    ensures Remembers(c0, c0, NOTHING)
  {
    var name, model :| c0 == RestoredCar(name, model);
    FreshValues(name, model);
    BlankDoings(c0);
    BlankNumbers(c0);
  }

  lemma {:induction false} BlankDoings(c: Car)
    requires c.state == c.chargingState == c.geofence == c.previousGeofence == c.updateAvailable == c.updateVersion == ""
    requires !c.pluggedIn && c.initialized <= {T.DisplayName, T.Model}
    ensures Doings(c, NOTHING) && Names(c, c, NOTHING) && Seen(c, NOTHING)
  {
    assert "true" != "" by { assert |"true"| == 4; }
  }

  lemma {:induction false} BlankNumbers(c: Car)
    requires c.batteryLevel == c.centerDisplayState == c.speed == 0 && c.chargerPower == c.odometer == 0.0
    requires c.telemetry == NO_TELEMETRY
    ensures Numbers(c, NOTHING) && Measured(c.telemetry, NOTHING)
  {
  }

  /** A car that nothing was received for yet. */
  lemma {:induction false} FreshValues(name: string, model: string)
    ensures var c := RestoredCar(name, model);
            && c.state == c.chargingState == c.geofence == c.previousGeofence == c.updateAvailable == c.updateVersion == ""
            && !c.pluggedIn && c.initialized <= {T.DisplayName, T.Model}
            && c.batteryLevel == c.centerDisplayState == c.speed == 0 && c.chargerPower == c.odometer == 0.0
            && c.telemetry == NO_TELEMETRY
  {
  }

  /** The effects of the last input of a life. */
  function LastOut(p: Params, id: string, c0: Car, init: seq<Event>, e: Event): seq<Effect> {
    Apply(Ctx(p, e.env, id), Life(p, id, c0, init).car, e.input).out
  }

  /** After every history the record holds, field by field, the last value received that could be
      read; the place before is the one received before the last. */
  lemma {:induction false} CarRemembers(p: Params, id: string, c0: Car, history: seq<Event>)
    requires K.Fresh(c0)
    ensures Remembers(Life(p, id, c0, history).car, c0, Knowledge(p, history))
  {
    if history == [] {
      NothingRemembered(c0);
    } else {
      var init, e := history[..|history| - 1], history[|history| - 1];
      CarRemembers(p, id, c0, init);
      InputRemembers(Ctx(p, e.env, id), Life(p, id, c0, init).car, c0, Knowledge(p, init), e);
    }
  }
}
