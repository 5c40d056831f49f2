/** Re-delivery of retained messages after a reconnect. */
module Redelivery {
  import opened GoValues
  import opened Models
  import opened Tuning
  import opened Engine
  import B = Battery
  import D = Deferral
  import K = Tickers
  import R = Replay
  import T = Topics

  /** The message repeats what the car already holds. Measurements are not restricted. */
  predicate Repeats(c: Car, f: T.Field, value: string) {
    f in c.initialized &&
    match f
    case State => value == c.state
    case ChargingState => value == c.chargingState
    case BatteryLevel => Atoi(value) == Some(c.batteryLevel)
    case PluggedIn => (value == "true") == c.pluggedIn
    case UpdateAvailable => value == c.updateAvailable
    case UpdateVersion => value == c.updateVersion
    case Geofence => value == c.geofence
    case DisplayName => value == c.displayName
    case Model => value == c.model
    case CenterDisplayState => Atoi(value) == Some(c.centerDisplayState)
    case _ => true
  }

  /** The current level has been through the threshold check: its alerts, if any, are latched. */
  predicate LevelChecked(p: Params, c: Car) {
    (c.batteryLevel <= p.batteryLow ==> c.lowFired) && (c.batteryLevel >= p.batteryHigh ==> c.highFired)
  }

  /** A latch is only set while the level has not recovered past the dead band. */
  predicate LatchesPlausible(p: Params, c: Car) {
    (c.lowFired ==> c.batteryLevel < p.batteryLow + REARM_MARGIN) && (c.highFired ==> c.batteryLevel > p.batteryHigh - REARM_MARGIN)
  }

  /** The two cars differ in measurements, the raw map, the previous geofence, what is pending and the
      battery latches at most. */
  ghost predicate SameButLatches(c: Car, d: Car) {
    c == d.(previousGeofence := c.previousGeofence, chargerPower := c.chargerPower, speed := c.speed,
            odometer := c.odometer, telemetry := c.telemetry, raw := c.raw, pending := c.pending,
            lowFired := c.lowFired, highFired := c.highFired)
  }

  /** Neither do the latches differ. */
  ghost predicate SameFacts(c: Car, d: Car) {
    SameButLatches(c, d) && c.lowFired == d.lowFired && c.highFired == d.highFired
  }

  lemma {:induction false} SameFactsTrans(a: Car, b: Car, c: Car)
    requires SameFacts(a, b) && SameFacts(b, c)
    ensures SameFacts(a, c)
  {
  }

  lemma {:induction false} SameButLatchesTrans(a: Car, b: Car, c: Car)
    requires SameButLatches(a, b) && SameButLatches(b, c)
    ensures SameButLatches(a, c)
  {
  }

  lemma {:induction false} RepeatsTransfer(c: Car, d: Car, f: T.Field, value: string)
    requires SameButLatches(c, d) && Repeats(c, f, value)
    ensures Repeats(d, f, value)
  {
  }

  lemma {:induction false} AssignRepeated(p: Params, c: Car, f: T.Field, value: string)
    requires Repeats(c, f, value)
    ensures SameButLatches(c, Assign(p, c, f, value, false))
  {
  }

  lemma {:induction false} AssignCheckedLatches(p: Params, c: Car, f: T.Field, value: string)
    requires Repeats(c, f, value)
    requires f == T.BatteryLevel ==> LevelChecked(p, c) && LatchesPlausible(p, c)
    ensures var d := Assign(p, c, f, value, false); d.lowFired == c.lowFired && d.highFired == c.highFired
  {
    B.AssignLatches(p, c, f, value, false);
  }

  /** What a repeated message assigns. */
  lemma {:induction false} RepeatAssigns(x: Ctx, c: Car, f: T.Field, value: string)
    requires Repeats(c, f, value)
    requires f == T.BatteryLevel ==> LevelChecked(x.p, c) && LatchesPlausible(x.p, c)
    ensures var d := Assign(x.p, Received(x, c, f, value), f, value, false); SameFacts(c, d) && d.pending == c.pending
  {
    var c1 := Received(x, c, f, value);
    ReceivedFacts(x, c, f, value);
    RepeatsTransfer(c, c1, f, value);
    AssignRepeated(x.p, c1, f, value);
    AssignCheckedLatches(x.p, c1, f, value);
    D.AssignKeepsPending(x.p, c1, f, value, false);
    SameFactsTrans(c, c1, Assign(x.p, c1, f, value, false));
  }

  lemma {:induction false} PlanRepeated(x: Ctx, c: Car, f: T.Field, value: string)
    requires Repeats(c, f, value)
    requires f == T.BatteryLevel ==> LevelChecked(x.p, c)
    ensures Plan(x, c, f, value, false) == if D.Flushes(f, value) then [Flush] else []
  {
    if f == T.BatteryLevel {
      assert RaiseAll([]) == [];
    }
  }

  lemma {:induction false} ReceivedFacts(x: Ctx, c: Car, f: T.Field, value: string)
    requires f in c.initialized
    ensures SameFacts(c, Received(x, c, f, value)) && Received(x, c, f, value).pending == c.pending
  {
    assert c.initialized + {f} == c.initialized;
  }

  /** Nothing is raised, no ticker started or stopped: at most, stranded events are handed over. */
  ghost predicate OnlyHands(out: seq<Effect>) {
    forall i | 0 <= i < |out| :: out[i].Handed?
  }

  lemma {:induction false} NothingReadyToFlush(x: Ctx, c: Car, ps: seq<Pending>)
    requires forall p | p in ps :: !Ready(p.event, c)
    ensures StillPending(c, ps) == ps && FlushOut(x, c, ps) == []
  {
    if ps != [] {
      assert ps[|ps| - 1] in ps;
      NothingReadyToFlush(x, c, ps[..|ps| - 1]);
      assert ps == ps[..|ps| - 1] + [ps[|ps| - 1]];
    }
  }

  /** A flush of a car like c. */
  lemma {:induction false} FlushRepeated(x: Ctx, c: Car, d: Car)
    requires SameFacts(c, d) && d.pending == c.pending
    ensures var s := FlushPending(x, Res(d, []));
            OnlyHands(s.out) && SameFacts(c, s.car) && (D.AllWaitForData(c) ==> s.out == [] && s.car.pending == c.pending)
  {
    R.FlushSilent(x, d, d.pending);
    assert [] + FlushOut(x, d, d.pending) == FlushOut(x, d, d.pending);
    if D.AllWaitForData(c) {
      NothingReadyToFlush(x, d, d.pending);
    }
  }

  /** What a repeated message plans. */
  lemma {:induction false} RepeatPlans(x: Ctx, c: Car, f: T.Field, value: string)
    requires Repeats(c, f, value)
    requires f == T.BatteryLevel ==> LevelChecked(x.p, c)
    ensures Plan(x, Received(x, c, f, value), f, value, false) == if D.Flushes(f, value) then [Flush] else []
  {
    var c1 := Received(x, c, f, value);
    ReceivedFacts(x, c, f, value);
    RepeatsTransfer(c, c1, f, value);
    PlanRepeated(x, c1, f, value);
  }

  /** A repeated message raises nothing and switches no ticker, unless it repeats a battery level that
      was never checked; when all pending events wait for data it does nothing at all but refresh
      measurements and the raw map. */
  lemma {:induction false} RepeatIsSilent(x: Ctx, c: Car, f: T.Field, value: string)
    requires Repeats(c, f, value)
    requires f == T.BatteryLevel ==> LevelChecked(x.p, c) && LatchesPlausible(x.p, c)
    ensures var s := HandleMessage(x, c, f, value);
            OnlyHands(s.out) && SameFacts(c, s.car) && (D.AllWaitForData(c) ==> s.out == [] && s.car.pending == c.pending)
  {
    var c1 := Received(x, c, f, value);
    var d := Assign(x.p, c1, f, value, false);
    RepeatAssigns(x, c, f, value);
    RepeatPlans(x, c, f, value);
    if D.Flushes(f, value) {
      FlushRepeated(x, c, d);
      assert [Flush] == [] + [Flush];
      D.PerformSnoc(x, Res(d, []), [], Flush);
    }
  }

  // ----- A repeated battery level -----

  predicate IsAlert(e: EventType) {
    e == BatteryLow || e == BatteryFull
  }

  /** Nothing but battery alerts is raised, no ticker is started or stopped, no update goes out. */
  ghost predicate AlertsAtMost(out: seq<Effect>) {
    forall i | 0 <= i < |out| :: out[i].Handed? || ((out[i].Raised? || out[i].Deferred?) && IsAlert(out[i].event))
  }

  predicate AlertOp(op: Op) {
    op.Flush? || (op.Raise? && IsAlert(op.event))
  }

  lemma {:induction false} AlertOps(x: Ctx, r: Res, ops: seq<Op>)
    requires AlertsAtMost(r.out) && forall op | op in ops :: AlertOp(op)
    ensures var s := PerformAll(x, r, ops); AlertsAtMost(s.out) && SameButLatches(r.car, s.car)
  {
    if ops != [] {
      var init, op := ops[..|ops| - 1], ops[|ops| - 1];
      AlertOps(x, r, init);
      assert op in ops;
      OneAlertOp(x, PerformAll(x, r, init), op);
      SameButLatchesTrans(r.car, PerformAll(x, r, init).car, PerformAll(x, r, ops).car);
    }
  }

  lemma {:induction false} OneAlertOp(x: Ctx, r: Res, op: Op)
    requires AlertsAtMost(r.out) && AlertOp(op)
    ensures var s := Perform(x, r, op); AlertsAtMost(s.out) && SameButLatches(r.car, s.car)
  {
    if op.Flush? {
      R.FlushSilent(x, r.car, r.car.pending);
    }
  }

  lemma {:induction false} LevelPlan(x: Ctx, c: Car, value: string)
    ensures forall op | op in Plan(x, c, T.BatteryLevel, value, false) :: AlertOp(op)
  {
    if Atoi(value).Some? {
      var events := BatteryThresholds(x.p, Atoi(value).value, c.lowFired, c.highFired).events;
      D.RaiseAllOnlyRaises(events);
      assert forall i | 0 <= i < |events| :: IsAlert(events[i]);
    }
  }

  lemma {:induction false} LevelRepeatAlerts(x: Ctx, c: Car, value: string)
    requires Repeats(c, T.BatteryLevel, value)
    ensures var s := HandleMessage(x, c, T.BatteryLevel, value); AlertsAtMost(s.out) && SameButLatches(c, s.car)
  {
    var c1 := Received(x, c, T.BatteryLevel, value);
    var d := Assign(x.p, c1, T.BatteryLevel, value, false);
    ReceivedFacts(x, c, T.BatteryLevel, value);
    RepeatsTransfer(c, c1, T.BatteryLevel, value);
    AssignRepeated(x.p, c1, T.BatteryLevel, value);
    LevelPlan(x, c1, value);
    AlertOps(x, Res(d, []), Plan(x, c1, T.BatteryLevel, value, false));
    SameButLatchesTrans(c, c1, d);
    SameButLatchesTrans(c, d, HandleMessage(x, c, T.BatteryLevel, value).car);
  }

  /** Any repeated message raises battery alerts at most. */
  lemma {:induction false} RepeatAlerts(x: Ctx, c: Car, f: T.Field, value: string)
    requires Repeats(c, f, value)
    ensures var s := HandleMessage(x, c, f, value); AlertsAtMost(s.out) && SameButLatches(c, s.car)
  {
    if f == T.BatteryLevel {
      LevelRepeatAlerts(x, c, value);
    } else {
      RepeatIsSilent(x, c, f, value);
    }
  }

  // ----- Sequences of repeated messages -----

  ghost predicate AllRepeat(c: Car, history: seq<Event>) {
    forall e | e in history :: e.input.Msg? && Repeats(c, e.input.field, e.input.value)
  }

  /** The sequence repeats a battery level. */
  predicate RepeatsLevel(history: seq<Event>) {
    exists e | e in history :: e.input.Msg? && e.input.field == T.BatteryLevel
  }

  lemma {:induction false} RepeatsLevelSnoc(history: seq<Event>)
    requires history != []
    ensures var init, i := history[..|history| - 1], history[|history| - 1].input;
            RepeatsLevel(history) <==> RepeatsLevel(init) || (i.Msg? && i.field == T.BatteryLevel)
  {
    var init, last := history[..|history| - 1], history[|history| - 1];
    assert history == init + [last];
    assert last in history;
  }

  lemma {:induction false} RepeatsAreSilent(p: Params, id: string, c: Car, history: seq<Event>)
    requires AllRepeat(c, history) && (RepeatsLevel(history) ==> LevelChecked(p, c) && LatchesPlausible(p, c))
    ensures var r := Life(p, id, c, history);
            OnlyHands(r.out) && SameFacts(c, r.car) && (D.AllWaitForData(c) ==> r.out == [] && r.car.pending == c.pending)
  {
    if history != [] {
      var init, e := history[..|history| - 1], history[|history| - 1];
      RepeatsLevelSnoc(history);
      RepeatsAreSilent(p, id, c, init);
      var d := Life(p, id, c, init).car;
      assert e in history;
      RepeatsTransfer(c, d, e.input.field, e.input.value);
      RepeatIsSilent(Ctx(p, e.env, id), d, e.input.field, e.input.value);
      SameFactsTrans(c, d, Life(p, id, c, history).car);
    }
  }

  /** What a sequence of repeated messages makes of the latches: one check of the level, if it repeats
      the level at all; and each alert is raised once if its latch rises. */
  ghost predicate CheckedOnce(p: Params, c: Car, r: Res, repeated: bool) {
    var a := BatteryThresholds(p, c.batteryLevel, c.lowFired, c.highFired);
    && r.car.lowFired == (if repeated then a.low else c.lowFired)
    && r.car.highFired == (if repeated then a.high else c.highFired)
    && D.Raises(r.out, BatteryLow) == (if repeated && c.batteryLevel <= p.batteryLow && !c.lowFired then 1 else 0)
    && D.Raises(r.out, BatteryFull) == (if repeated && c.batteryLevel >= p.batteryHigh && !c.highFired then 1 else 0)
  }

  lemma {:induction false} CheckedAgain(p: Params, c: Car, r: Res, s: Res, repeated: bool, level: bool)
    requires CheckedOnce(p, c, r, repeated)
    requires var a := BatteryThresholds(p, c.batteryLevel, r.car.lowFired, r.car.highFired);
             && s.car.lowFired == (if level then a.low else r.car.lowFired)
             && s.car.highFired == (if level then a.high else r.car.highFired)
    requires B.Edges(r.car.lowFired, r.car.highFired, s.car.lowFired, s.car.highFired, s.out)
    ensures CheckedOnce(p, c, Res(s.car, r.out + s.out), repeated || level)
  {
    D.Concat(r.out, s.out, BatteryLow, "");
    D.Concat(r.out, s.out, BatteryFull, "");
  }

  /** Whatever the car: any sequence of messages that repeat the initialized fields' current values
      raises battery alerts at most, each at most once, and exactly when it repeats a level at or past
      that threshold whose alert is not latched. Nothing else about the car changes. */
  lemma {:induction false} RepeatedAlerts(p: Params, id: string, c: Car, history: seq<Event>)
    requires AllRepeat(c, history)
    ensures var r := Life(p, id, c, history);
            AlertsAtMost(r.out) && SameButLatches(c, r.car) && CheckedOnce(p, c, r, RepeatsLevel(history))
  {
    if history != [] {
      var init, e := history[..|history| - 1], history[|history| - 1];
      var r, x := Life(p, id, c, init), Ctx(p, e.env, id);
      var f, value := e.input.field, e.input.value;
      RepeatsLevelSnoc(history);
      RepeatedAlerts(p, id, c, init);
      assert e in history;
      RepeatsTransfer(c, r.car, f, value);
      RepeatAlerts(x, r.car, f, value);
      SameButLatchesTrans(c, r.car, Life(p, id, c, history).car);
      B.MessageLatches(x, r.car, f, value);
      CheckedAgain(p, c, r, HandleMessage(x, r.car, f, value), RepeatsLevel(init), f == T.BatteryLevel);
    }
  }

  lemma {:induction false} OnlyAlertsRaised(out: seq<Effect>, e: EventType)
    requires AlertsAtMost(out) && !IsAlert(e)
    ensures D.Raises(out, e) == 0
  {
    if out != [] {
      OnlyAlertsRaised(out[..|out| - 1], e);
    }
  }

  /** In every life a latch is set only while the level has not recovered past the dead band. */
  lemma {:induction false} LatchesStayPlausible(p: Params, id: string, c0: Car, history: seq<Event>)
    requires K.Fresh(c0)
    ensures var c := Life(p, id, c0, history).car;
            LatchesPlausible(p, c) && (T.BatteryLevel !in c.initialized ==> !c.lowFired && !c.highFired)
  {
    if history == [] {
      K.FreshFacts(c0);
    } else {
      var init, e := history[..|history| - 1], history[|history| - 1];
      LatchesStayPlausible(p, id, c0, init);
      var c, x := Life(p, id, c0, init).car, Ctx(p, e.env, id);
      if e.input.Msg? {
        B.MessageLatches(x, c, e.input.field, e.input.value);
        R.MessageInitializes(x, c, e.input.field, e.input.value);
        MessageLevel(x, c, e.input.field, e.input.value);
      } else {
        OtherInputLevel(x, c, e.input);
        R.InputBelief(x, c, e.input);
        B.OtherInputLatches(x, c, e.input);
      }
    }
  }

  lemma {:induction false} MessageLevel(x: Ctx, c: Car, f: T.Field, value: string)
    ensures HandleMessage(x, c, f, value).car.batteryLevel ==
            if f == T.BatteryLevel && Atoi(value).Some? then Atoi(value).value else c.batteryLevel
  {
    var c1 := Received(x, c, f, value);
    var first := f !in c.initialized;
    AssignLevel(x.p, c1, f, value, first);
    OpsKeepLevel(x, Res(Assign(x.p, c1, f, value, first), []), Plan(x, c1, f, value, first));
  }

  lemma {:induction false} AssignLevel(p: Params, c: Car, f: T.Field, value: string, first: bool)
    ensures Assign(p, c, f, value, first).batteryLevel ==
            if f == T.BatteryLevel && Atoi(value).Some? then Atoi(value).value else c.batteryLevel
  {
  }

  lemma {:induction false} OpsKeepLevel(x: Ctx, r: Res, ops: seq<Op>)
    ensures PerformAll(x, r, ops).car.batteryLevel == r.car.batteryLevel
  {
    if ops != [] {
      OpsKeepLevel(x, r, ops[..|ops| - 1]);
      OneOpKeepsLevel(x, PerformAll(x, r, ops[..|ops| - 1]), ops[|ops| - 1]);
    }
  }

  lemma {:induction false} OneOpKeepsLevel(x: Ctx, r: Res, op: Op)
    ensures Perform(x, r, op).car.batteryLevel == r.car.batteryLevel
  {
  }

  lemma {:induction false} OtherInputLevel(x: Ctx, c: Car, i: Input)
    requires !i.Msg?
    ensures Apply(x, c, i).car.batteryLevel == c.batteryLevel
  {
  }

  /** Nothing is raised. */
  ghost predicate Silent(out: seq<Effect>) {
    forall e: EventType :: D.Raises(out, e) == 0
  }

  /** After any life, any sequence of messages that repeat the initialized fields' current values,
      whatever the clock, connection and configuration, raises nothing but battery alerts, starts or
      stops no ticker, and sends no update. It raises nothing at all exactly when the current level has
      been through the threshold check or is not repeated; then it changes no fact about the car, and
      when every battery level of that life parsed, it has no effect at all. */
  lemma {:induction false} RedeliveryIsSilent(p: Params, id: string, c0: Car, life: seq<Event>, repeats: seq<Event>)
    requires K.Fresh(c0) && AllRepeat(Life(p, id, c0, life).car, repeats)
    ensures var c := Life(p, id, c0, life).car;
            var r := Life(p, id, c, repeats);
            && AlertsAtMost(r.out) && SameButLatches(c, r.car)
            && (Silent(r.out) <==> LevelChecked(p, c) || !RepeatsLevel(repeats))
            && (Silent(r.out) ==> OnlyHands(r.out) && SameFacts(c, r.car))
            && (Silent(r.out) && !D.SomeStrands(p, id, c0, life) ==> r.out == [] && r.car.pending == c.pending)
  {
    var c := Life(p, id, c0, life).car;
    var r := Life(p, id, c, repeats);
    RepeatedAlerts(p, id, c, repeats);
    SilentExactly(p, c, r, RepeatsLevel(repeats));
    LatchesStayPlausible(p, id, c0, life);
    if Silent(r.out) {
      RepeatsAreSilent(p, id, c, repeats);
      if !D.SomeStrands(p, id, c0, life) {
        K.FreshFacts(c0);
        D.NoReadyEventWaits(p, id, c0, life);
      }
    }
  }

  lemma {:induction false} SilentExactly(p: Params, c: Car, r: Res, repeated: bool)
    requires AlertsAtMost(r.out) && CheckedOnce(p, c, r, repeated)
    ensures Silent(r.out) <==> LevelChecked(p, c) || !repeated
  {
    forall e: EventType
      ensures !IsAlert(e) ==> D.Raises(r.out, e) == 0
    {
      if !IsAlert(e) {
        OnlyAlertsRaised(r.out, e);
      }
    }
  }

  /** Repeating the battery level raises no alert exactly if the current level has been through the
      threshold check. */
  lemma {:induction false} BatteryRepeat(x: Ctx, c: Car, value: string)
    requires Repeats(c, T.BatteryLevel, value)
    ensures var out := HandleMessage(x, c, T.BatteryLevel, value).out;
            D.Raises(out, BatteryLow) == D.Raises(out, BatteryFull) == 0 <==> LevelChecked(x.p, c)
  {
    B.MessageLatches(x, c, T.BatteryLevel, value);
  }

  /** The first reading is such a level: a low battery seen at start-up alerts only when re-delivered. */
  lemma {:induction false} FirstReadingAlertsOnRepeat(x: Ctx, c: Car)
    requires c == RestoredCar("", "") && x.p.batteryLow >= 5
    ensures var once := HandleMessage(x, c, T.BatteryLevel, "5");
            var twice := HandleMessage(x, once.car, T.BatteryLevel, "5");
            D.Raises(once.out, BatteryLow) == 0 && D.Raises(twice.out, BatteryLow) == 1
  {
    assert Decimal("5") == 5 by { assert "5"[..0] == ""; }
    assert Atoi("5") == Some(5);
    var once := HandleMessage(x, c, T.BatteryLevel, "5").car;
    B.MessageLatches(x, c, T.BatteryLevel, "5");
    B.MessageLatches(x, once, T.BatteryLevel, "5");
    R.MessageInitializes(x, c, T.BatteryLevel, "5");
  }
}
