/** What the payloads of a life say: the last values received before them, field by field. */
module Payloads {
  import opened GoValues
  import opened Models
  import opened Engine
  import opened Memory
  import K = Tickers
  import R = Replay
  import T = Topics
  import W = RawFields

  // ----- The drive under way, read off the messages -----

  /** When a drive was entered, and the odometer then. */
  datatype Trip = Trip(since: nat, odometer: real)

  /** A drive is entered when the state changes to driving; a car first seen driving has none. */
  function TripOf(p: Params, history: seq<Event>): Option<Trip> {
    if history == [] then None
    else
      var init, e := history[..|history| - 1], history[|history| - 1];
      if !Is(e, T.State) then TripOf(p, init)
      else
        var k := Knowledge(p, init);
        if e.input.value != "driving" || T.State !in k.values then None
        else if k.values[T.State] == "driving" then TripOf(p, init)
        else Some(Trip(e.env.now, Of(k.reals, T.Odometer, 0.0)))
  }

  // ----- What a payload must say -----

  /** Everything a payload of this moment depends on. */
  datatype Moment = Moment(id: string, now: nat, c0: Car, k: Known, trip: Option<Trip>, entries: seq<W.Entry>)

  /** The moment of the last input of a history. */
  function MomentOf(p: Params, id: string, c0: Car, init: seq<Event>, e: Event): Moment {
    Moment(id, e.env.now, c0, Knowledge(p, init + [e]), TripOf(p, init + [e]), W.Accepted(init + [e]))
  }

  function Called(id: string, displayName: string, model: string): string {
    if displayName != "" then displayName
    else if model == "" then "Car " + id
    else if model == "S" then "Model S"
    else if model == "3" then "Model 3"
    else if model == "X" then "Model X"
    else if model == "Y" then "Model Y"
    else model
  }

  /** Name and time. */
  ghost predicate Signed(payload: EventPayload, m: Moment) {
    && payload.carID == m.id && payload.timestamp == m.now
    && payload.carName == Called(m.id, Of(m.k.values, T.DisplayName, m.c0.displayName), Of(m.k.values, T.Model, m.c0.model))
  }

  /** What the car does and where it is. */
  ghost predicate Described(d: EventData, k: Known) {
    && d.state == Of(k.values, T.State, "")
    && d.chargingState == Of(k.values, T.ChargingState, "")
    && d.pluggedIn == (Of(k.values, T.PluggedIn, "") == "true")
    && d.geofence == Of(k.values, T.Geofence, "")
    && d.previousGeofence == Of(k.before, T.Geofence, "")
    && d.updateVersion == Of(k.values, T.UpdateVersion, "")
  }

  /** What it measures; the location of the destination stays at home. */
  ghost predicate Weighed(d: EventData, k: Known) {
    && d.batteryLevel == Of(k.ints, T.BatteryLevel, 0)
    && d.speed == Of(k.ints, T.Speed, 0)
    && d.chargerPower == Of(k.reals, T.ChargerPower, 0.0)
    && Measured(d.telemetry.(location := k.location), k)
    && d.telemetry.location == Location(0.0, 0.0)
  }

  /** The drive under way: the way by the odometer, where that is known and grows, and the time. */
  ghost predicate Driven(d: EventData, now: nat, k: Known, trip: Option<Trip>) {
    var odometer := Of(k.reals, T.Odometer, 0.0);
    && d.duration == (if trip.Some? then now - trip.value.since else 0)
    && d.distance == (if trip.Some? && 0.0 < trip.value.odometer < odometer then odometer - trip.value.odometer else 0.0)
  }

  ghost predicate Tells(payload: EventPayload, m: Moment) {
    && Signed(payload, m) && Described(payload.data, m.k) && Weighed(payload.data, m.k)
    && Driven(payload.data, m.now, m.k, m.trip)
    && W.Reflects(payload.data.raw, m.entries)
  }

  // ----- All payloads of an input are those of one car -----

  /** The car's drive, if timed, begins at this very moment. */
  predicate Still(x: Ctx, c: Car) {
    c.driveStart.Some? ==> c.driveStart.value == x.env.now && c.driveStartOdometer == c.odometer
  }

  /** The two cars make the same payloads now. */
  ghost predicate Alike(x: Ctx, b: Car, d: Car) {
    && SameValues(b, d) && b.raw == d.raw
    && (if b.driveStart.None? then Still(x, d)
        else d.driveStart == b.driveStart && d.driveStartOdometer == b.driveStartOdometer)
  }

  lemma {:induction false} AlikePayload(x: Ctx, b: Car, d: Car, e: EventType)
    requires Alike(x, b, d)
    ensures BuildPayload(x, d, e) == BuildPayload(x, b, e)
  {
  }

  /** Every payload among the effects is one of this car's; an update is of its kind's type. */
  ghost predicate Built(x: Ctx, b: Car, out: seq<Effect>) {
    forall i | 0 <= i < |out| ::
      && (out[i].Handed? ==> out[i].payload == BuildPayload(x, b, out[i].payload.eventType))
      && (out[i].Update? ==>
            out[i].at == x.env.now &&
            out[i].payload == BuildPayload(x, b, if out[i].kind == Charge then LiveActivityUpdate else LiveActivityDrivingUpdate))
  }

  lemma {:induction false} FlushBuilt(x: Ctx, b: Car, d: Car, ps: seq<Pending>)
    requires Alike(x, b, d)
    ensures Built(x, b, FlushOut(x, d, ps))
  {
    if ps != [] {
      FlushBuilt(x, b, d, ps[..|ps| - 1]);
      AlikePayload(x, b, d, ps[|ps| - 1].event);
    }
  }

  /** A drive is started or stopped only where payloads say nothing of it. */
  predicate Apart(b: Car, op: Op) {
    op == StartDrive || op == StopDrive ==> b.driveStart.None?
  }

  lemma {:induction false} OpAlike(x: Ctx, b: Car, r: Res, op: Op)
    requires Alike(x, b, r.car) && Apart(b, op)
    ensures Alike(x, b, Perform(x, r, op).car)
  {
    OpKeepsValues(x, r, op);
  }

  lemma {:induction false} OpBuilt(x: Ctx, b: Car, r: Res, op: Op)
    requires Alike(x, b, r.car) && Built(x, b, r.out)
    ensures Built(x, b, Perform(x, r, op).out)
  {
    match op
    case Raise(e) => AlikePayload(x, b, r.car, e);
    case Flush => FlushBuilt(x, b, r.car, r.car.pending);
    case _ =>
  }

  lemma {:induction false} OpsBuilt(x: Ctx, b: Car, r: Res, ops: seq<Op>)
    requires Alike(x, b, r.car) && Built(x, b, r.out)
    requires forall op | op in ops :: Apart(b, op)
    ensures Alike(x, b, PerformAll(x, r, ops).car) && Built(x, b, PerformAll(x, r, ops).out)
  {
    if ops != [] {
      var init, op := ops[..|ops| - 1], ops[|ops| - 1];
      OpsBuilt(x, b, r, init);
      assert op in ops;
      OpAlike(x, b, PerformAll(x, r, init), op);
      OpBuilt(x, b, PerformAll(x, r, init), op);
    }
  }

  function Parked(c: Car): Car {
    c.(driveStart := None, driveStartOdometer := 0.0)
  }

  /** A car that stops driving stops the clock before anything is said. */
  lemma {:induction false} StoppedBuilt(x: Ctx, r: Res, ops: seq<Op>)
    requires r.out == [] && ops != [] && ops[0] == StopDrive
    ensures Built(x, Parked(r.car), PerformAll(x, r, ops).out)
    ensures Alike(x, Parked(r.car), PerformAll(x, r, ops).car)
  {
    var r1 := Perform(x, r, StopDrive);
    PerformCons(x, r, ops);
    OpKeepsValues(x, r, StopDrive);
    OpsBuilt(x, Parked(r.car), r1, ops[1..]);
  }

  lemma {:induction false} PerformCons(x: Ctx, r: Res, ops: seq<Op>)
    requires ops != []
    ensures PerformAll(x, r, ops) == PerformAll(x, Perform(x, r, ops[0]), ops[1..])
  {
    if |ops| == 1 {
      assert ops[..0] == [];
    } else {
      PerformCons(x, r, ops[..|ops| - 1]);
      assert ops[..|ops| - 1][1..] == ops[1..][..|ops| - 2];
    }
  }

  /** The car whose payloads an input makes: after a message, the car as assigned, but for a drive that
      ends with it. */
  function Speaker(x: Ctx, c: Car, i: Input): Car {
    if !i.Msg? then c
    else
      var d := Assigned(x, c, i.field, i.value);
      if i.field == T.State && T.State in c.initialized && c.state == DRIVING && i.value != DRIVING then Parked(d) else d
  }

  lemma {:induction false} NoDriveOps(x: Ctx, c: Car, f: T.Field, value: string, first: bool)
    requires f != T.State
    ensures StartDrive !in Plan(x, c, f, value, first) && StopDrive !in Plan(x, c, f, value, first)
  {
    if f == T.ChargingState {
      NoDriveInCharging(c.chargingState, value);
      NoDriveInCharging("", CHARGING);
    } else {
      K.OtherPlansSwitchNothing(x, c, f, value, first);
    }
  }

  lemma {:induction false} NoDriveInCharging(prev: string, next: string)
    ensures StartDrive !in ChargingOps(prev, next) && StopDrive !in ChargingOps(prev, next)
  {
  }

  lemma {:induction false} StateBuilt(x: Ctx, c: Car, value: string)
    requires T.State in c.initialized && c.state != value
    requires c.state != DRIVING ==> c.driveStart.None?
    ensures var s := HandleMessage(x, c, T.State, value);
            Built(x, Speaker(x, c, Msg(T.State, value)), s.out) && Alike(x, Speaker(x, c, Msg(T.State, value)), s.car)
  {
    var r0 := Res(Assigned(x, c, T.State, value), []);
    var ops := StateOps(c.state, value);
    ReceivedKeeps(x, c, T.State, value);
    assert Plan(x, Received(x, c, T.State, value), T.State, value, false) == ops;
    if c.state == DRIVING {
      assert ops[0] == StopDrive;
      StoppedBuilt(x, r0, ops);
    } else {
      assert r0.car.driveStart == c.driveStart;
      OpsBuilt(x, r0.car, r0, ops);
    }
  }

  lemma {:induction false} MessageBuilt(x: Ctx, c: Car, f: T.Field, value: string)
    requires f == T.State && f in c.initialized && c.state != DRIVING ==> c.driveStart.None?
    ensures var s := HandleMessage(x, c, f, value);
            Built(x, Speaker(x, c, Msg(f, value)), s.out) && Alike(x, Speaker(x, c, Msg(f, value)), s.car)
  {
    if f == T.State && f in c.initialized && c.state != value {
      StateBuilt(x, c, value);
    } else {
      var r0 := Res(Assigned(x, c, f, value), []);
      var ops := Plan(x, Received(x, c, f, value), f, value, f !in c.initialized);
      if f == T.State {
        ReceivedKeeps(x, c, f, value);
        assert ops == [];
      } else {
        NoDriveOps(x, Received(x, c, f, value), f, value, f !in c.initialized);
      }
      OpsBuilt(x, r0.car, r0, ops);
    }
  }

  lemma {:induction false} WakeBuilt(x: Ctx, c: Car, e: EventType)
    ensures Built(x, c, Timeout(x, c, e).out) && Alike(x, c, Timeout(x, c, e).car)
  {
    WakeKeeps(x, c, e);
    var i := FirstPending(c.pending, e);
    if i < |c.pending| {
      AlikePayload(x, c, c.(pending := c.pending[..i] + c.pending[i + 1..]), e);
    }
  }

  lemma {:induction false} FireBuilt(x: Ctx, c: Car, kind: Kind)
    ensures Built(x, c, Tick(x, c, kind).out) && Alike(x, c, Tick(x, c, kind).car)
  {
    TickKeeps(x, c, kind);
  }

  // ----- That car is as the moment says -----

  /** The drive is timed as the trip says. */
  ghost predicate TripFits(c: Car, trip: Option<Trip>) {
    match trip
    case None => c.driveStart.None?
    case Some(t) => c.driveStart == Some(t.since) && c.driveStartOdometer == t.odometer
  }

  /** Or it is about to be, at this very moment. */
  ghost predicate Timed(c: Car, trip: Option<Trip>, now: nat) {
    TripFits(c, trip) || (c.driveStart.None? && trip == Some(Trip(now, c.odometer)))
  }

  function NextTrip(trip: Option<Trip>, k: Known, e: Event): Option<Trip> {
    if !Is(e, T.State) then trip
    else if e.input.value != "driving" || T.State !in k.values then None
    else if k.values[T.State] == "driving" then trip
    else Some(Trip(e.env.now, Of(k.reals, T.Odometer, 0.0)))
  }

  lemma {:induction false} TripSnoc(p: Params, init: seq<Event>, e: Event)
    ensures TripOf(p, init + [e]) == NextTrip(TripOf(p, init), Knowledge(p, init), e)
  {
    assert (init + [e])[..|init|] == init;
  }

  /** The state and the odometer are as known. */
  predicate KnowsDrive(c: Car, k: Known) {
    && c.state == Of(k.values, T.State, "") && c.odometer == Of(k.reals, T.Odometer, 0.0)
    && (T.State in c.initialized <==> T.State in k.values)
  }

  /** What is timed, and when. */
  lemma {:induction false} SpeakerTimed(x: Ctx, c: Car, k: Known, trip: Option<Trip>, saw: bool, e: Event)
    requires x.env == e.env && KnowsDrive(c, k) && TripFits(c, trip) && K.Cycle(K.ViewOf(c), c.initialized, saw)
    ensures Timed(Speaker(x, c, e.input), NextTrip(trip, k, e), e.env.now)
  {
    if e.input.Msg? {
      SpeakerDrive(x, c, e.input.field, e.input.value);
    }
  }

  lemma {:induction false} SpeakerDrive(x: Ctx, c: Car, f: T.Field, value: string)
    ensures var d := Assigned(x, c, f, value);
            d.driveStart == c.driveStart && d.driveStartOdometer == c.driveStartOdometer &&
            (f == T.State ==> d.odometer == c.odometer)
  {
    ReceivedKeeps(x, c, f, value);
    AssignDrive(x.p, Received(x, c, f, value), f, value, f !in c.initialized);
  }

  lemma {:induction false} AssignDrive(p: Params, c: Car, f: T.Field, value: string, first: bool)
    ensures var d := Assign(p, c, f, value, first);
            d.driveStart == c.driveStart && d.driveStartOdometer == c.driveStartOdometer &&
            (f == T.State ==> d.odometer == c.odometer)
  {
  }

  lemma {:induction false} TripStep(x: Ctx, c: Car, d: Car, k: Known, trip: Option<Trip>, saw: bool, e: Event)
    requires x.env == e.env && KnowsDrive(c, k) && TripFits(c, trip) && K.Cycle(K.ViewOf(c), c.initialized, saw)
    requires K.Cycle(K.ViewOf(d), d.initialized, saw || (Is(e, T.State) && e.input.value != "driving"))
    requires e.input.Msg? && Alike(x, Speaker(x, c, e.input), d)
    requires d.state == Of(Learned(x.p, k, e).values, T.State, "")
    ensures TripFits(d, NextTrip(trip, k, e))
  {
    SpeakerDrive(x, c, e.input.field, e.input.value);
    SpeakerTimed(x, c, k, trip, saw, e);
  }

  lemma {:induction false} OtherKeepsDrive(x: Ctx, c: Car, i: Input)
    requires !i.Msg?
    ensures var d := Apply(x, c, i).car; d.driveStart == c.driveStart && d.driveStartOdometer == c.driveStartOdometer
  {
    match i
    case Unknown(name, value) => RecordKeeps(x, c, name, value);
    case Wake(e) => WakeKeeps(x, c, e);
    case Fire(kind) => TickKeeps(x, c, kind);
  }

  lemma {:induction false} InputBuilt(x: Ctx, c: Car, c0: Car, k: Known, saw: bool, i: Input)
    requires Remembers(c, c0, k) && K.Cycle(K.ViewOf(c), c.initialized, saw)
    ensures Built(x, Speaker(x, c, i), Apply(x, c, i).out)
    ensures !i.Unknown? ==> Alike(x, Speaker(x, c, i), Apply(x, c, i).car)
  {
    match i
    case Msg(f, value) => MessageBuilt(x, c, f, value);
    case Unknown(_, _) =>
    case Wake(e) => WakeBuilt(x, c, e);
    case Fire(kind) => FireBuilt(x, c, kind);
  }

  /** In every life the drive is timed as the messages say. */
  lemma {:induction false} TripsAreTimed(p: Params, id: string, c0: Car, history: seq<Event>)
    requires K.Fresh(c0)
    ensures TripFits(Life(p, id, c0, history).car, TripOf(p, history))
  {
    if history == [] {
      K.FreshFacts(c0);
    } else {
      var init, e := history[..|history| - 1], history[|history| - 1];
      var c, x, saw := Life(p, id, c0, init).car, Ctx(p, e.env, id), K.SawOtherState(init);
      TripsAreTimed(p, id, c0, init);
      CarRemembers(p, id, c0, init);
      CarRemembers(p, id, c0, history);
      K.LifeCycle(p, id, c0, init);
      K.LifeCycle(p, id, c0, history);
      if e.input.Msg? {
        InputBuilt(x, c, c0, Knowledge(p, init), saw, e.input);
        assert K.SawOtherState(history) == (saw || (Is(e, T.State) && e.input.value != "driving"));
        TripStep(x, c, Life(p, id, c0, history).car, Knowledge(p, init), TripOf(p, init), saw, e);
      } else {
        OtherKeepsDrive(x, c, e.input);
      }
    }
  }

  // ----- Its payloads tell the truth -----

  lemma {:induction false} BuiltSigned(x: Ctx, c: Car, e: EventType, m: Moment)
    requires x.id == m.id && x.env.now == m.now && Names(c, m.c0, m.k)
    ensures Signed(BuildPayload(x, c, e), m)
  {
    assert "Model " + "S" == "Model S" && "Model " + "3" == "Model 3" && "Model " + "X" == "Model X" && "Model " + "Y" == "Model Y";
  }

  lemma {:induction false} BuiltDescribed(x: Ctx, c: Car, c0: Car, e: EventType, k: Known)
    requires Doings(c, k) && Names(c, c0, k)
    ensures Described(BuildPayload(x, c, e).data, k)
  {
  }

  lemma {:induction false} BuiltWeighed(x: Ctx, c: Car, e: EventType, k: Known)
    requires Numbers(c, k) && Measured(c.telemetry, k)
    ensures Weighed(BuildPayload(x, c, e).data, k)
  {
    assert Reported(c.telemetry).(location := k.location) == c.telemetry;
  }

  lemma {:induction false} BuiltDriven(x: Ctx, c: Car, e: EventType, k: Known, trip: Option<Trip>)
    requires Numbers(c, k) && Timed(c, trip, x.env.now)
    ensures Driven(BuildPayload(x, c, e).data, x.env.now, k, trip)
  {
  }

  lemma {:induction false} BuiltRaw(x: Ctx, c: Car, e: EventType, entries: seq<W.Entry>)
    requires W.Reflects(c.raw, entries)
    ensures W.Reflects(BuildPayload(x, c, e).data.raw, entries)
  {
    if entries != [] {
      assert W.Names(entries) != [];
      assert W.FirstNames(entries)[0] in W.FirstNames(entries);
      assert W.FirstNames(entries)[0] in c.raw.value;
      assert |c.raw.value| != 0;
    }
  }

  lemma {:induction false} BuiltTells(x: Ctx, c: Car, e: EventType, m: Moment)
    requires x.id == m.id && x.env.now == m.now
    requires Remembers(c, m.c0, m.k) && Timed(c, m.trip, m.now) && W.Reflects(c.raw, m.entries)
    ensures Tells(BuildPayload(x, c, e), m)
  {
    BuiltSigned(x, c, e, m);
    BuiltDescribed(x, c, m.c0, e, m.k);
    BuiltWeighed(x, c, e, m.k);
    BuiltDriven(x, c, e, m.k, m.trip);
    BuiltRaw(x, c, e, m.entries);
  }

  lemma {:induction false} SpeakerRemembers(x: Ctx, c: Car, c0: Car, k: Known, e: Event)
    requires Remembers(c, c0, k)
    ensures Remembers(Speaker(x, c, e.input), c0, Learned(x.p, k, e))
  {
    if e.input.Msg? {
      AssignedRemembers(x, c, c0, k, e);
      SpeakerSame(x, c, e.input);
      SameRemembers(Assigned(x, c, e.input.field, e.input.value), Speaker(x, c, e.input), c0, Learned(x.p, k, e));
    }
  }

  lemma {:induction false} SpeakerSame(x: Ctx, c: Car, i: Input)
    requires i.Msg?
    ensures SameValues(Assigned(x, c, i.field, i.value), Speaker(x, c, i))
  {
  }

  /** The car whose payloads the last input of a life makes is as its moment says. */
  lemma {:induction false} SpeakerFits(p: Params, id: string, c0: Car, init: seq<Event>, e: Event)
    requires K.Fresh(c0) && !e.input.Unknown?
    ensures var x, c, m := Ctx(p, e.env, id), Life(p, id, c0, init).car, MomentOf(p, id, c0, init, e);
            var b := Speaker(x, c, e.input);
            && Built(x, b, LastOut(p, id, c0, init, e))
            && Remembers(b, c0, m.k) && Timed(b, m.trip, m.now) && W.Reflects(b.raw, m.entries)
  {
    var x, c, k, saw := Ctx(p, e.env, id), Life(p, id, c0, init).car, Knowledge(p, init), K.SawOtherState(init);
    CarRemembers(p, id, c0, init);
    K.LifeCycle(p, id, c0, init);
    TripsAreTimed(p, id, c0, init);
    W.RawAgreesWithHistory(p, id, c0, init);
    W.RawStep(p, id, c, e, W.Accepted(init));
    InputBuilt(x, c, c0, k, saw, e.input);
    SpeakerRemembers(x, c, c0, k, e);
    SpeakerTimed(x, c, k, TripOf(p, init), saw, e);
    MomentParts(p, id, c0, init, e);
  }

  lemma {:induction false} MomentParts(p: Params, id: string, c0: Car, init: seq<Event>, e: Event)
    ensures MomentOf(p, id, c0, init, e) ==
            Moment(id, e.env.now, c0, Learned(p, Knowledge(p, init), e),
                   NextTrip(TripOf(p, init), Knowledge(p, init), e), W.Accept(W.Accepted(init), e))
  {
    assert (init + [e])[..|init|] == init;
  }

  /** Every payload that an input makes, handed over or sent as an update, tells what the messages up to
      and including that input say; an update is of its kind's type. */
  lemma {:induction false} InputPayloadsAreTrue(p: Params, id: string, c0: Car, init: seq<Event>, e: Event, i: nat)
    requires K.Fresh(c0) && i < |LastOut(p, id, c0, init, e)|
    ensures var a := LastOut(p, id, c0, init, e)[i];
            && (a.Handed? || a.Update? ==> Tells(a.payload, MomentOf(p, id, c0, init, e)))
            && (a.Update? ==>
                  a.at == e.env.now &&
                  a.payload.eventType == if a.kind == Charge then LiveActivityUpdate else LiveActivityDrivingUpdate)
  {
    if !e.input.Unknown? {
      var x, c := Ctx(p, e.env, id), Life(p, id, c0, init).car;
      var a := LastOut(p, id, c0, init, e)[i];
      SpeakerFits(p, id, c0, init, e);
      if a.Handed? || a.Update? {
        BuiltTells(x, Speaker(x, c, e.input), a.payload.eventType, MomentOf(p, id, c0, init, e));
      }
    }
  }

  /** Every effect of a life is one of one of its inputs. */
  lemma {:induction false} MadeAt(p: Params, id: string, c0: Car, history: seq<Event>, i: nat) returns (n: nat)
    requires i < |Life(p, id, c0, history).out|
    ensures n < |history|
    ensures var before, out := |Life(p, id, c0, history[..n]).out|, LastOut(p, id, c0, history[..n], history[n]);
            before <= i < before + |out| && Life(p, id, c0, history).out[i] == out[i - before]
  {
    var init := history[..|history| - 1];
    if i < |Life(p, id, c0, init).out| {
      n := MadeAt(p, id, c0, init, i);
      assert init[..n] == history[..n];
    } else {
      n := |history| - 1;
      LastEffects(p, id, c0, init, history[|history| - 1]);
      assert history == init + [history[|history| - 1]] && history[..n] == init;
    }
  }

  lemma {:induction false} LastEffects(p: Params, id: string, c0: Car, init: seq<Event>, e: Event)
    ensures Life(p, id, c0, init + [e]).out == Life(p, id, c0, init).out + LastOut(p, id, c0, init, e)
  {
    LifeSnoc(p, id, c0, init, e);
  }

  /** So every payload of a life was true at one moment of it, that of the input that made it. */
  lemma {:induction false} PayloadsAreTrue(p: Params, id: string, c0: Car, history: seq<Event>, i: nat) returns (n: nat)
    requires K.Fresh(c0) && i < |Life(p, id, c0, history).out|
    requires var a := Life(p, id, c0, history).out[i]; a.Handed? || a.Update?
    ensures n < |history|
    ensures var before, out := |Life(p, id, c0, history[..n]).out|, LastOut(p, id, c0, history[..n], history[n]);
            before <= i < before + |out|
    ensures Tells(Life(p, id, c0, history).out[i].payload, MomentOf(p, id, c0, history[..n], history[n]))
  {
    n := MadeAt(p, id, c0, history, i);
    InputPayloadsAreTrue(p, id, c0, history[..n], history[n], i - |Life(p, id, c0, history[..n]).out|);
  }

  // ----- Raised, and handed over at once or deferred -----

  /** Every event raised is at once handed over, as it was noted, or deferred for 30 seconds. */
  ghost predicate Paired(out: seq<Effect>) {
    forall i | 0 <= i < |out| && out[i].Raised? ::
      i + 1 < |out| && Answers(out[i], out[i + 1])
  }

  ghost predicate Answers(raised: Effect, next: Effect)
    requires raised.Raised?
  {
    if next.Handed? then next.payload.eventType == raised.event && next.payload.data.geofence == raised.geofence
    else next.Deferred? && next.event == raised.event
  }

  lemma {:induction false} PairedConcat(a: seq<Effect>, b: seq<Effect>)
    requires Paired(a) && Paired(b)
    ensures Paired(a + b)
  {
    forall i | 0 <= i < |a + b| && (a + b)[i].Raised?
      ensures i + 1 < |a + b| && Answers((a + b)[i], (a + b)[i + 1])
    {
      if i < |a| {
        assert Answers(a[i], a[i + 1]);
      } else {
        assert Answers(b[i - |a|], b[i - |a| + 1]);
      }
    }
  }

  lemma {:induction false} NothingRaisedPaired(out: seq<Effect>)
    requires forall i | 0 <= i < |out| :: !out[i].Raised?
    ensures Paired(out)
  {
  }

  lemma {:induction false} OpPaired(x: Ctx, r: Res, op: Op)
    requires Paired(r.out)
    ensures Paired(Perform(x, r, op).out)
  {
    match op
    case Raise(e) => EmitPaired(x, r, e);
    case Flush =>
      R.FlushSilent(x, r.car, r.car.pending);
      NothingRaisedPaired(FlushOut(x, r.car, r.car.pending));
      PairedConcat(r.out, FlushOut(x, r.car, r.car.pending));
    case _ =>
      NothingRaisedPaired(SwitchOut(x, r.car, op));
      PairedConcat(r.out, SwitchOut(x, r.car, op));
  }

  lemma {:induction false} EmitPaired(x: Ctx, r: Res, e: EventType)
    requires Paired(r.out)
    ensures Paired(Emit(x, r, e).out)
  {
    var raised := Raised(e, r.car.geofence);
    var second := if Immediate(e, r.car) then Handed(BuildPayload(x, r.car, e)) else Deferred(e, x.env.now + DEFER_DELAY);
    assert Answers(raised, second);
    PairedConcat(r.out, [raised, second]);
  }

  lemma {:induction false} OpsPaired(x: Ctx, r: Res, ops: seq<Op>)
    requires Paired(r.out)
    ensures Paired(PerformAll(x, r, ops).out)
  {
    if ops != [] {
      OpsPaired(x, r, ops[..|ops| - 1]);
      OpPaired(x, PerformAll(x, r, ops[..|ops| - 1]), ops[|ops| - 1]);
    }
  }

  /** In every life every event raised is at once handed over, with the place it was noted at, or
      deferred. */
  lemma {:induction false} RaisedIsAnswered(p: Params, id: string, c0: Car, history: seq<Event>)
    ensures Paired(Life(p, id, c0, history).out)
  {
    if history != [] {
      var init, e := history[..|history| - 1], history[|history| - 1];
      var r, x := Life(p, id, c0, init), Ctx(p, e.env, id);
      RaisedIsAnswered(p, id, c0, init);
      InputPaired(x, r.car, e.input);
      PairedConcat(r.out, Apply(x, r.car, e.input).out);
    }
  }

  lemma {:induction false} InputPaired(x: Ctx, c: Car, i: Input)
    ensures Paired(Apply(x, c, i).out)
  {
    if i.Msg? {
      OpsPaired(x, Res(Assigned(x, c, i.field, i.value), []),
                Plan(x, Received(x, c, i.field, i.value), i.field, i.value, i.field !in c.initialized));
    } else {
      R.InputBelief(x, c, i);
      SilentPaired(Apply(x, c, i).out);
    }
  }

  lemma {:induction false} SilentPaired(out: seq<Effect>)
    requires R.Notes(out) == []
    ensures Paired(out)
  {
    if out != [] {
      SilentPaired(out[..|out| - 1]);
    }
  }

  /** The payloads handed over right after their events were raised, by type and place. */
  function HandedNotes(out: seq<Effect>): seq<R.Note> {
    if |out| < 2 then []
    else
      var init, last := out[..|out| - 1], out[|out| - 1];
      HandedNotes(init) +
      (if last.Handed? && out[|out| - 2].Raised? then [R.Note(last.payload.eventType, last.payload.data.geofence)] else [])
  }

  /** What was noted but is not answered yet. */
  function Unanswered(out: seq<Effect>): seq<R.Note> {
    if out != [] && out[|out| - 1].Raised? then [R.Note(out[|out| - 1].event, out[|out| - 1].geofence)] else []
  }

  /** Every event raised is answered but for the last effect. */
  ghost predicate AlmostPaired(out: seq<Effect>) {
    forall i | 0 <= i < |out| - 1 && out[i].Raised? :: Answers(out[i], out[i + 1])
  }

  lemma {:induction false} HandedAsNoted(out: seq<Effect>)
    requires AlmostPaired(out) && forall i | 0 <= i < |out| :: !out[i].Deferred?
    ensures R.Notes(out) == HandedNotes(out) + Unanswered(out)
  {
    if out != [] {
      var init, last := out[..|out| - 1], out[|out| - 1];
      forall i | 0 <= i < |init| - 1 && init[i].Raised?
        ensures Answers(init[i], init[i + 1])
      {
        assert Answers(out[i], out[i + 1]);
      }
      HandedAsNoted(init);
      if init != [] && init[|init| - 1].Raised? {
        assert Answers(out[|out| - 2], out[|out| - 1]);
      }
      HandedStep(init, last);
    }
  }

  lemma {:induction false} HandedStep(init: seq<Effect>, last: Effect)
    requires R.Notes(init) == HandedNotes(init) + Unanswered(init) && !last.Deferred?
    requires init != [] && init[|init| - 1].Raised? ==> Answers(init[|init| - 1], last)
    ensures R.Notes(init + [last]) == HandedNotes(init + [last]) + Unanswered(init + [last])
  {
    R.NotesSnoc(init, last);
    assert (init + [last])[..|init|] == init;
    assert HandedNotes(init) + [] == HandedNotes(init) && R.Notes(init) + [] == R.Notes(init);
  }

  /** So when nothing had to be deferred, replaying the payloads that were handed over tells what the car
      does and where it is, as replaying the events raised does. */
  lemma {:induction false} HandedStreamIsFaithful(p: Params, id: string, c0: Car, history: seq<Event>, a: R.Aspect)
    requires R.Unheard(c0)
    requires forall i | 0 <= i < |Life(p, id, c0, history).out| :: !Life(p, id, c0, history).out[i].Deferred?
    ensures var r := Life(p, id, c0, history);
            R.Belief(R.Baseline(history, a), HandedNotes(r.out), a) == R.Truth(R.Show(r.car), a)
  {
    var out := Life(p, id, c0, history).out;
    R.EventStreamIsFaithful(p, id, c0, history, a);
    RaisedIsAnswered(p, id, c0, history);
    PairedAlmost(out);
    HandedAsNoted(out);
    assert HandedNotes(out) + [] == HandedNotes(out);
  }

  lemma {:induction false} PairedAlmost(out: seq<Effect>)
    requires Paired(out)
    ensures AlmostPaired(out) && Unanswered(out) == []
  {
  }
}
