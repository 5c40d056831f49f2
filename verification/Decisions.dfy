/** Which events a message calls for, decided on the messages before it alone, and what a first
    charging_state does. */
module Decisions {
  import opened GoValues
  import opened Models
  import opened Engine
  import opened Memory
  import B = Battery
  import D = Deferral
  import K = Tickers
  import R = Replay
  import T = Topics

  // ----- The table -----

  predicate AtRest(state: string) {
    state == "asleep" || state == "suspended" || state == "offline"
  }

  function StateEvents(prev: string, next: string): seq<EventType> {
    (if next == "driving" then [DriveStarted] else if prev == "driving" then [DriveEnded] else []) +
    (if next == "suspended" then [VehicleFallingAsleep]
     else if AtRest(next) then [VehicleAsleep]
     else if AtRest(prev) then [VehicleWoke] else [])
  }

  function ChargingEvents(prev: string, next: string): seq<EventType> {
    if next == "Charging" then [ChargingStarted]
    else if next == "Complete" then [ChargingCompleted]
    else if prev == "Charging" then [ChargingInterrupted] else []
  }

  /** A charge that began well after the connection was made, or without one, is a new one. */
  predicate NewCharge(env: Env) {
    env.connectedAt.None? || env.now - env.connectedAt.value >= 90_000_000_000
  }

  function PlaceEvents(prev: string, next: string): seq<EventType> {
    if prev == next then []
    else (if prev != "" then [GeofenceExited] else []) + (if next != "" then [GeofenceEntered] else [])
  }

  /** `readings` are the battery levels checked so far. */
  function BatteryEvents(p: Params, readings: seq<int>, level: int): seq<EventType> {
    (if B.Low(p.batteryLow, readings + [level]) && !B.Low(p.batteryLow, readings) then [BatteryLow] else []) +
    (if B.Full(p.batteryHigh, readings + [level]) && !B.Full(p.batteryHigh, readings) then [BatteryFull] else [])
  }

  /** The events a message calls for, in order, given what was known before it. The first value of a
      field is no change, but for a charge that starts. */
  function CalledFor(p: Params, k: Known, readings: seq<int>, e: Event): seq<EventType> {
    if !e.input.Msg? then []
    else
      var f, value := e.input.field, e.input.value;
      if f == T.ChargingState && f !in k.values then
        if value == "Charging" && NewCharge(e.env) then [ChargingStarted] else []
      else if f !in k.values then []
      else
        match f
        case State => if k.values[f] == value then [] else StateEvents(k.values[f], value)
        case ChargingState => if k.values[f] == value then [] else ChargingEvents(k.values[f], value)
        case Geofence => PlaceEvents(k.values[f], value)
        case PluggedIn =>
          if (k.values[f] == "true") == (value == "true") then []
          else [if value == "true" then ChargerConnected else ChargerDisconnected]
        case UpdateAvailable => if value == "true" && k.values[f] != "true" then [SoftwareUpdate] else []
        case CenterDisplayState =>
          if Atoi(value) == Some(7) && Of(k.ints, f, 0) != 7 then [SentryRecording] else []
        case BatteryLevel => if Atoi(value).None? then [] else BatteryEvents(p, readings, Atoi(value).value)
        case _ => []
  }

  /** Events as they are noted at one place. */
  function Told(events: seq<EventType>, geofence: string): seq<R.Note> {
    seq(|events|, i requires 0 <= i < |events| => R.Note(events[i], geofence))
  }

  lemma {:induction false} ToldConcat(a: seq<EventType>, b: seq<EventType>, g: string)
    ensures Told(a + b, g) == Told(a, g) + Told(b, g)
  {
  }

  // ----- Field by field -----

  lemma {:induction false} StateTold(prev: string, next: string, g: string)
    requires prev != next
    ensures R.OpNotes(StateOps(prev, next), g) == Told(StateEvents(prev, next), g)
  {
    R.StateNotes(prev, next, g);
    var drive := if next == "driving" then [DriveStarted] else if prev == "driving" then [DriveEnded] else [];
    var sleep := if next == "suspended" then [VehicleFallingAsleep]
                 else if AtRest(next) then [VehicleAsleep]
                 else if AtRest(prev) then [VehicleWoke] else [];
    assert R.DriveNotes(prev, next, g) == Told(drive, g);
    assert R.SleepNotes(prev, next, g) == Told(sleep, g);
    ToldConcat(drive, sleep, g);
  }

  lemma {:induction false} ChargingTold(prev: string, next: string, g: string)
    requires prev != next
    ensures R.OpNotes(ChargingOps(prev, next), g) == Told(ChargingEvents(prev, next), g)
  {
    R.ChargingNotes(prev, next, g);
  }

  lemma {:induction false} FirstChargingTold(x: Ctx, c: Car, value: string, g: string)
    ensures R.OpNotes(Plan(x, c, T.ChargingState, value, true), g) ==
            Told(if value == "Charging" && NewCharge(x.env) then [ChargingStarted] else [], g)
  {
    assert CHARGING != "" by { assert |CHARGING| == 8; }
    R.ChargingNotes("", CHARGING, g);
    assert [StartCharge][..0] == [] && R.OpNotes([StartCharge], g) == [];
  }

  lemma {:induction false} PlaceTold(prev: string, next: string, g: string)
    ensures R.OpNotes(GeofenceOps(prev, next), g) == Told(PlaceEvents(prev, next), g)
  {
    RaiseTold(GeofenceExited, g);
    RaiseTold(GeofenceEntered, g);
    TwoTold(GeofenceExited, GeofenceEntered, g);
  }

  lemma {:induction false} TwoTold(a: EventType, b: EventType, g: string)
    ensures R.OpNotes([Raise(a), Raise(b)], g) == Told([a, b], g) == Told([a] + [b], g)
  {
    RaiseTold(a, g);
    assert [Raise(a), Raise(b)][..1] == [Raise(a)];
    assert [a] + [b] == [a, b];
    ToldConcat([a], [b], g);
  }

  lemma {:induction false} RaiseAllTold(events: seq<EventType>, g: string)
    ensures R.OpNotes(RaiseAll(events), g) == Told(events, g)
  {
    if events != [] {
      var init, last := events[..|events| - 1], events[|events| - 1];
      RaiseAllTold(init, g);
      ToldConcat(init, [last], g);
      assert events == init + [last];
    }
  }

  lemma {:induction false} BatteryTold(x: Ctx, c: Car, readings: seq<int>, value: string, g: string)
    requires c.lowFired == B.Low(x.p.batteryLow, readings) && c.highFired == B.Full(x.p.batteryHigh, readings)
    ensures R.OpNotes(Plan(x, c, T.BatteryLevel, value, false), g) ==
            Told(if Atoi(value).None? then [] else BatteryEvents(x.p, readings, Atoi(value).value), g)
  {
    if Atoi(value).Some? {
      var level := Atoi(value).value;
      var events := BatteryThresholds(x.p, level, c.lowFired, c.highFired).events;
      B.ThresholdStep(x.p, level, readings);
      assert events == BatteryEvents(x.p, readings, level);
      RaiseAllTold(events, g);
      FlushTold(RaiseAll(events), g);
    }
  }

  lemma {:induction false} FlushTold(ops: seq<Op>, g: string)
    ensures R.OpNotes(ops + [Flush], g) == R.OpNotes(ops, g)
  {
    assert (ops + [Flush])[..|ops|] == ops;
    assert R.OpNotes(ops, g) + [] == R.OpNotes(ops, g);
  }

  lemma {:induction false} RaiseTold(e: EventType, g: string)
    ensures R.OpNotes([Raise(e)], g) == Told([e], g) && R.OpNotes([], g) == Told([], g)
  {
    R.SmallOpNotes(g);
  }

  /** What a plan must tell of a message, given what was known before it. */
  ghost predicate Answers(x: Ctx, c: Car, k: Known, readings: seq<int>, e: Event, first: bool, g: string)
    requires e.input.Msg?
  {
    R.OpNotes(Plan(x, c, e.input.field, e.input.value, first), g) == Told(CalledFor(x.p, k, readings, e), g)
  }

  lemma {:induction false} PluggedInAnswers(x: Ctx, c: Car, k: Known, readings: seq<int>, e: Event, g: string)
    requires Is(e, T.PluggedIn) && T.PluggedIn in k.values && c.pluggedIn == (k.values[T.PluggedIn] == "true")
    ensures Answers(x, c, k, readings, e, false, g)
  {
    RaiseTold(ChargerConnected, g);
    RaiseTold(ChargerDisconnected, g);
  }

  lemma {:induction false} UpdateAnswers(x: Ctx, c: Car, k: Known, readings: seq<int>, e: Event, g: string)
    requires Is(e, T.UpdateAvailable) && T.UpdateAvailable in k.values && c.updateAvailable == k.values[T.UpdateAvailable]
    ensures Answers(x, c, k, readings, e, false, g)
  {
    RaiseTold(SoftwareUpdate, g);
  }

  lemma {:induction false} SentryAnswers(x: Ctx, c: Car, k: Known, readings: seq<int>, e: Event, g: string)
    requires Is(e, T.CenterDisplayState) && T.CenterDisplayState in k.values
    requires c.centerDisplayState == Of(k.ints, T.CenterDisplayState, 0)
    ensures Answers(x, c, k, readings, e, false, g)
  {
    RaiseTold(SentryRecording, g);
  }

  lemma {:induction false} StateAnswers(x: Ctx, c: Car, k: Known, readings: seq<int>, e: Event, g: string)
    requires Is(e, T.State) && T.State in k.values && c.state == k.values[T.State]
    ensures Answers(x, c, k, readings, e, false, g)
  {
    if c.state != e.input.value {
      StateTold(c.state, e.input.value, g);
    }
  }

  lemma {:induction false} ChargingAnswers(x: Ctx, c: Car, k: Known, readings: seq<int>, e: Event, first: bool,
                                           g: string)
    requires x.env == e.env && Is(e, T.ChargingState) && (first <==> T.ChargingState !in k.values)
    requires !first ==> c.chargingState == k.values[T.ChargingState]
    ensures Answers(x, c, k, readings, e, first, g)
  {
    if first {
      FirstChargingTold(x, c, e.input.value, g);
    } else if c.chargingState != e.input.value {
      ChargingTold(c.chargingState, e.input.value, g);
    }
  }

  lemma {:induction false} PlaceAnswers(x: Ctx, c: Car, k: Known, readings: seq<int>, e: Event, g: string)
    requires Is(e, T.Geofence) && T.Geofence in k.values && c.geofence == k.values[T.Geofence]
    ensures Answers(x, c, k, readings, e, false, g)
  {
    PlaceTold(c.geofence, e.input.value, g);
  }

  lemma {:induction false} BatteryAnswers(x: Ctx, c: Car, k: Known, readings: seq<int>, e: Event, g: string)
    requires Is(e, T.BatteryLevel) && T.BatteryLevel in k.values
    requires c.lowFired == B.Low(x.p.batteryLow, readings) && c.highFired == B.Full(x.p.batteryHigh, readings)
    ensures Answers(x, c, k, readings, e, false, g)
  {
    BatteryTold(x, c, readings, e.input.value, g);
  }

  /** The fields that can raise something. */
  predicate Speaks(f: T.Field) {
    f.State? || f.ChargingState? || f.Geofence? || f.PluggedIn? || f.UpdateAvailable? || f.CenterDisplayState? || f.BatteryLevel?
  }

  lemma {:induction false} SilentAnswers(x: Ctx, c: Car, k: Known, readings: seq<int>, e: Event, first: bool, g: string)
    requires e.input.Msg? && !e.input.field.ChargingState?
    requires Speaks(e.input.field) ==> first && e.input.field !in k.values
    ensures Answers(x, c, k, readings, e, first, g)
  {
    assert [Flush][..0] == [];
  }

  lemma {:induction false} SpokenAnswers(x: Ctx, c: Car, c0: Car, k: Known, readings: seq<int>, e: Event, g: string)
    requires e.input.Msg? && Speaks(e.input.field) && !e.input.field.ChargingState? && e.input.field in k.values
    requires Doings(c, k) && Names(c, c0, k) && Numbers(c, k)
    requires c.lowFired == B.Low(x.p.batteryLow, readings) && c.highFired == B.Full(x.p.batteryHigh, readings)
    ensures Answers(x, c, k, readings, e, false, g)
  {
    match e.input.field
    case State => StateAnswers(x, c, k, readings, e, g);
    case Geofence => PlaceAnswers(x, c, k, readings, e, g);
    case BatteryLevel => BatteryAnswers(x, c, k, readings, e, g);
    case PluggedIn => PluggedInAnswers(x, c, k, readings, e, g);
    case UpdateAvailable => UpdateAnswers(x, c, k, readings, e, g);
    case CenterDisplayState => SentryAnswers(x, c, k, readings, e, g);
  }

  lemma {:induction false} PlanAnswers(x: Ctx, c: Car, c0: Car, k: Known, readings: seq<int>, e: Event, g: string)
    requires x.env == e.env && e.input.Msg? && Remembers(c, c0, k)
    requires c.lowFired == B.Low(x.p.batteryLow, readings) && c.highFired == B.Full(x.p.batteryHigh, readings)
    ensures Answers(x, c, k, readings, e, e.input.field !in c.initialized, g)
  {
    var f, first := e.input.field, e.input.field !in c.initialized;
    assert f != T.DisplayName && f != T.Model ==> (first <==> f !in k.values);
    if f.ChargingState? {
      ChargingAnswers(x, c, k, readings, e, first, g);
    } else if !Speaks(f) || first {
      SilentAnswers(x, c, k, readings, e, first, g);
    } else {
      SpokenAnswers(x, c, c0, k, readings, e, g);
    }
  }

  lemma {:induction false} MessageTold(x: Ctx, c: Car, c0: Car, k: Known, readings: seq<int>, e: Event)
    requires x.env == e.env && e.input.Msg? && Remembers(c, c0, k)
    requires c.lowFired == B.Low(x.p.batteryLow, readings) && c.highFired == B.Full(x.p.batteryHigh, readings)
    ensures var r := HandleMessage(x, c, e.input.field, e.input.value);
            R.Notes(r.out) == Told(CalledFor(x.p, k, readings, e), r.car.geofence)
  {
    var f, value := e.input.field, e.input.value;
    R.MessageNotes(x, c, f, value);
    SamePlan(x, c, f, value);
    PlanAnswers(x, c, c0, k, readings, e, HandleMessage(x, c, f, value).car.geofence);
  }

  lemma {:induction false} InputTold(x: Ctx, c: Car, c0: Car, k: Known, readings: seq<int>, e: Event)
    requires x.env == e.env && Remembers(c, c0, k)
    requires c.lowFired == B.Low(x.p.batteryLow, readings) && c.highFired == B.Full(x.p.batteryHigh, readings)
    ensures var r := Apply(x, c, e.input); R.Notes(r.out) == Told(CalledFor(x.p, k, readings, e), r.car.geofence)
  {
    if e.input.Msg? {
      MessageTold(x, c, c0, k, readings, e);
    } else {
      R.InputBelief(x, c, e.input);
      NothingTold(x.p, k, readings, e, Apply(x, c, e.input).car.geofence);
    }
  }

  lemma {:induction false} NothingTold(p: Params, k: Known, readings: seq<int>, e: Event, g: string)
    requires !e.input.Msg?
    ensures Told(CalledFor(p, k, readings, e), g) == []
  {
  }

  /** What is planned does not depend on the raw map and the set of initialized fields. */
  lemma {:induction false} SamePlan(x: Ctx, c: Car, f: T.Field, value: string)
    ensures Plan(x, Received(x, c, f, value), f, value, f !in c.initialized) == Plan(x, c, f, value, f !in c.initialized)
  {
    ReceivedKeeps(x, c, f, value);
    PlanOfSame(x, c, Received(x, c, f, value), f, value, f !in c.initialized);
  }

  lemma {:induction false} PlanOfSame(x: Ctx, c: Car, d: Car, f: T.Field, value: string, first: bool)
    requires d == c.(initialized := d.initialized, raw := d.raw)
    ensures Plan(x, d, f, value, first) == Plan(x, c, f, value, first)
  {
  }

  /** In every life every input raises exactly the events the table calls for on the messages before
      it, in order, each noted at the place the car is at. */
  lemma {:induction false} EveryEventIsCalledFor(p: Params, id: string, c0: Car, init: seq<Event>, e: Event)
    requires K.Fresh(c0)
    ensures var k := Knowledge(p, init);
            R.Notes(LastOut(p, id, c0, init, e)) ==
            Told(CalledFor(p, k, B.Checked(init), e), Of(Learned(p, k, e).values, T.Geofence, ""))
    ensures Life(p, id, c0, init + [e]).out == Life(p, id, c0, init).out + LastOut(p, id, c0, init, e)
  {
    var c, k := Life(p, id, c0, init).car, Knowledge(p, init);
    CarRemembers(p, id, c0, init);
    B.BatteryHysteresis(p, id, c0, init);
    InputTold(Ctx(p, e.env, id), c, c0, k, B.Checked(init), e);
    InputRemembers(Ctx(p, e.env, id), c, c0, k, e);
    LifeSnoc(p, id, c0, init, e);
  }

  // ----- A first charging_state -----

  /** Nothing but a charging ticker is switched, and if so started. */
  ghost predicate StartsChargeOnly(out: seq<Effect>, started: bool) {
    && (started <==> exists i :: 0 <= i < |out| && out[i].Opened?)
    && (forall i | 0 <= i < |out| :: !out[i].Closed? && !out[i].Update? && (out[i].Opened? ==> out[i].kind == Charge))
  }

  lemma {:induction false} StartedOut(x: Ctx, r: Res)
    requires r.car.charge.None? && StartsChargeOnly(r.out, false)
    ensures StartsChargeOnly(Perform(x, r, StartCharge).out, true)
  {
    var s := Perform(x, r, StartCharge);
    assert s.out[..|r.out|] == r.out && s.out[|s.out| - 1].Opened?;
  }

  lemma {:induction false} FirstChargingOut(x: Ctx, c: Car, value: string)
    requires T.ChargingState !in c.initialized && c.charge.None?
    ensures StartsChargeOnly(HandleMessage(x, c, T.ChargingState, value).out, value == "Charging")
  {
    var c1 := Received(x, c, T.ChargingState, value);
    var r0 := Res(Assign(x.p, c1, T.ChargingState, value, true), []);
    var raised := Emit(x, r0, ChargingStarted);
    FirstChargingPlan(x, c1, value);
    if value == "Charging" {
      StartedOut(x, r0);
      StartedOut(x, raised);
    }
    assert [Raise(ChargingStarted), StartCharge] == [Raise(ChargingStarted)] + [StartCharge] && [StartCharge] == [] + [StartCharge];
    D.PerformSnoc(x, r0, [Raise(ChargingStarted)], StartCharge);
    D.PerformSnoc(x, r0, [], StartCharge);
    assert [Raise(ChargingStarted)] == [] + [Raise(ChargingStarted)];
    D.PerformSnoc(x, r0, [], Raise(ChargingStarted));
  }

  lemma {:induction false} FirstChargingPlan(x: Ctx, c: Car, value: string)
    ensures Plan(x, c, T.ChargingState, value, true) ==
            if value != "Charging" then [] else if NewCharge(x.env) then [Raise(ChargingStarted), StartCharge] else [StartCharge]
  {
    R.CompleteIsNotCharging();
    assert CHARGING != "" by { assert |CHARGING| == 8; }
  }

  /** The first charging_state of a life starts Live Activity updates exactly if it is "Charging". It
      raises charging_started exactly if, moreover, there was no connection or the last one was made at
      least 90 seconds ago, and raises nothing else in any case. */
  lemma {:induction false} FirstChargingState(p: Params, id: string, c0: Car, init: seq<Event>, e: Event)
    requires K.Fresh(c0) && Is(e, T.ChargingState) && forall d | d in init :: !Is(d, T.ChargingState)
    ensures var out := LastOut(p, id, c0, init, e);
            var charging := e.input.value == "Charging";
            var anew := e.env.connectedAt.None? || e.env.now - e.env.connectedAt.value >= 90_000_000_000;
            && (charging <==> exists i :: 0 <= i < |out| && out[i].Opened?)
            && (forall i | 0 <= i < |out| :: !out[i].Closed? && !out[i].Update? && (out[i].Opened? ==> out[i].kind == Charge))
            && D.Raises(out, ChargingStarted) == (if charging && anew then 1 else 0)
            && (forall t: EventType | t != ChargingStarted :: D.Raises(out, t) == 0)
  {
    FirstChargingSwitch(p, id, c0, init, e);
    forall t: EventType
      ensures D.Raises(LastOut(p, id, c0, init, e), t) == multiset(CalledFor(p, Knowledge(p, init), B.Checked(init), e))[t]
    {
      RaisesWhatIsCalledFor(p, id, c0, init, e, t);
    }
    NotYet(p, init, T.ChargingState);
    FirstCall(p, Knowledge(p, init), B.Checked(init), e);
  }

  lemma {:induction false} FirstCall(p: Params, k: Known, readings: seq<int>, e: Event)
    requires Is(e, T.ChargingState) && T.ChargingState !in k.values
    ensures CalledFor(p, k, readings, e) == if e.input.value == "Charging" && NewCharge(e.env) then [ChargingStarted] else []
  {
  }

  /** So every input raises every event as often as the table lists it. */
  lemma {:induction false} RaisesWhatIsCalledFor(p: Params, id: string, c0: Car, init: seq<Event>, e: Event,
                                                 t: EventType)
    requires K.Fresh(c0)
    ensures D.Raises(LastOut(p, id, c0, init, e), t) == multiset(CalledFor(p, Knowledge(p, init), B.Checked(init), e))[t]
  {
    EveryEventIsCalledFor(p, id, c0, init, e);
    RaisesTally(LastOut(p, id, c0, init, e), t);
    ToldTally(CalledFor(p, Knowledge(p, init), B.Checked(init), e),
              Of(Learned(p, Knowledge(p, init), e).values, T.Geofence, ""), t);
  }

  lemma {:induction false} ToldTally(events: seq<EventType>, g: string, t: EventType)
    ensures Tally(Told(events, g), t) == multiset(events)[t]
  {
    if events != [] {
      var init, last := events[..|events| - 1], events[|events| - 1];
      ToldTally(init, g, t);
      assert events == init + [last];
      assert Told(events, g)[..|init|] == Told(init, g);
    }
  }

  lemma {:induction false} FirstChargingSwitch(p: Params, id: string, c0: Car, init: seq<Event>, e: Event)
    requires K.Fresh(c0) && Is(e, T.ChargingState) && forall d | d in init :: !Is(d, T.ChargingState)
    ensures StartsChargeOnly(LastOut(p, id, c0, init, e), e.input.value == "Charging")
  {
    NotYet(p, init, T.ChargingState);
    CarRemembers(p, id, c0, init);
    K.LifeCycle(p, id, c0, init);
    assert "Charging" != "" by { assert |"Charging"| == 8; }
    FirstChargingOut(Ctx(p, e.env, id), Life(p, id, c0, init).car, e.input.value);
  }

  lemma {:induction false} NotYet(p: Params, history: seq<Event>, f: T.Field)
    requires forall e | e in history :: !Is(e, f)
    ensures f !in Knowledge(p, history).values
  {
    if history != [] {
      NotYet(p, history[..|history| - 1], f);
      assert history[|history| - 1] in history;
    }
  }

  function Tally(notes: seq<R.Note>, t: EventType): nat {
    if notes == [] then 0 else Tally(notes[..|notes| - 1], t) + (if notes[|notes| - 1].event == t then 1 else 0)
  }

  lemma {:induction false} RaisesTally(out: seq<Effect>, t: EventType)
    ensures D.Raises(out, t) == Tally(R.Notes(out), t)
  {
    if out != [] {
      var init, last := out[..|out| - 1], out[|out| - 1];
      RaisesTally(init, t);
      if last.Raised? {
        TallySnoc(R.Notes(init), R.Note(last.event, last.geofence), t);
      } else {
        assert R.Notes(init) + [] == R.Notes(init);
      }
    }
  }

  lemma {:induction false} TallySnoc(notes: seq<R.Note>, n: R.Note, t: EventType)
    ensures Tally(notes + [n], t) == Tally(notes, t) + (if n.event == t then 1 else 0)
  {
    assert (notes + [n])[..|notes|] == notes;
  }
}
