/** The battery alerts: latches with a dead band, over whole sequences of readings. */
module Battery {
  import opened GoValues
  import opened Models
  import opened Engine
  import D = Deferral
  import R = Replay
  import K = Tickers
  import T = Topics

  // ----- One threshold, on readings alone -----

  /** The latest reading outside the open band (t, t + 3), if any. */
  function LatestOutside(t: int, readings: seq<int>): Option<int> {
    if readings == [] then None
    else
      var last := readings[|readings| - 1];
      if last <= t || t + 3 <= last then Some(last) else LatestOutside(t, readings[..|readings| - 1])
  }

  /** The low-battery condition: the latest decisive reading was at or below the threshold. */
  predicate Low(t: int, readings: seq<int>) {
    var latest := LatestOutside(t, readings);
    latest.Some? && latest.value <= t
  }

  /** The full-battery condition is its mirror image. */
  function Mirror(readings: seq<int>): seq<int> {
    seq(|readings|, i requires 0 <= i < |readings| => -readings[i])
  }

  predicate Full(t: int, readings: seq<int>) {
    Low(-t, Mirror(readings))
  }

  /** How often the low-battery condition became true. */
  function Onsets(t: int, readings: seq<int>): nat {
    if readings == [] then 0
    else Onsets(t, readings[..|readings| - 1]) + (if Low(t, readings) && !Low(t, readings[..|readings| - 1]) then 1 else 0)
  }

  /** The total distance the level travelled. */
  function Variation(readings: seq<int>): nat {
    if |readings| <= 1 then 0
    else Variation(readings[..|readings| - 1]) + Abs(readings[|readings| - 1] - readings[|readings| - 2])
  }

  /** How far the level must have travelled, given the alerts so far and where it is now. */
  function Travelled(t: int, onsets: nat, low: bool, level: int): int {
    if onsets == 0 then 0
    else if low then 6 * (onsets - 1) + (if level > t then level - t else 0)
    else 6 * (onsets - 1) + 3 + (if level < t + 3 then t + 3 - level else 0)
  }

  lemma {:induction false} VariationBound(t: int, readings: seq<int>)
    requires readings != []
    ensures Variation(readings) >= Travelled(t, Onsets(t, readings), Low(t, readings), readings[|readings| - 1])
    ensures Onsets(t, readings) == 0 ==> !Low(t, readings)
  {
    var init := readings[..|readings| - 1];
    if init == [] {
      assert !Low(t, init) && Onsets(t, init) == 0;
    } else {
      VariationBound(t, init);
      assert init[|init| - 1] == readings[|readings| - 2];
    }
  }

  /** n alerts force the level to travel at least 6 (n - 1) percent. */
  lemma {:induction false} AlertsNeedVariation(t: int, readings: seq<int>)
    ensures Variation(readings) >= 6 * (Onsets(t, readings) - 1)
  {
    if readings != [] {
      VariationBound(t, readings);
    }
  }

  lemma {:induction false} MirrorVariation(readings: seq<int>)
    ensures Variation(Mirror(readings)) == Variation(readings)
  {
    if |readings| > 1 {
      MirrorVariation(readings[..|readings| - 1]);
      assert Mirror(readings)[..|readings| - 1] == Mirror(readings[..|readings| - 1]);
    }
  }

  // ----- The car's latches -----

  /** The readings that went through the threshold check: battery levels that parse, except the
      first message of the field. */
  function Checked(history: seq<Event>): seq<int> {
    if history == [] then []
    else
      var init, i := history[..|history| - 1], history[|history| - 1].input;
      if i.Msg? && i.field == T.BatteryLevel && Atoi(i.value).Some? && R.FirstValue(init, T.BatteryLevel).Some?
      then Checked(init) + [Atoi(i.value).value] else Checked(init)
  }

  lemma {:induction false} ThresholdStep(p: Params, level: int, readings: seq<int>)
    ensures var a := BatteryThresholds(p, level, Low(p.batteryLow, readings), Full(p.batteryHigh, readings));
            a.low == Low(p.batteryLow, readings + [level]) && a.high == Full(p.batteryHigh, readings + [level])
  {
    assert (readings + [level])[..|readings|] == readings;
    assert Mirror(readings + [level]) == Mirror(readings) + [-level];
    assert (Mirror(readings) + [-level])[..|readings|] == Mirror(readings);
  }

  function RaiseCount(ops: seq<Op>, e: EventType): nat {
    if ops == [] then 0 else RaiseCount(ops[..|ops| - 1], e) + (if ops[|ops| - 1] == Raise(e) then 1 else 0)
  }

  lemma {:induction false} OpsRaise(x: Ctx, r: Res, ops: seq<Op>, e: EventType)
    ensures D.Raises(PerformAll(x, r, ops).out, e) == D.Raises(r.out, e) + RaiseCount(ops, e)
  {
    if ops != [] {
      OpsRaise(x, r, ops[..|ops| - 1], e);
      OneOpRaises(x, PerformAll(x, r, ops[..|ops| - 1]), ops[|ops| - 1], e);
    }
  }

  lemma {:induction false} OneOpRaises(x: Ctx, r: Res, op: Op, e: EventType)
    ensures D.Raises(Perform(x, r, op).out, e) == D.Raises(r.out, e) + (if op == Raise(e) then 1 else 0)
  {
    match op
    case Raise(raised) => EmitRaises(x, r, raised, e);
    case Flush =>
      D.FlushFacts(x, r.car, r.car.pending, e);
      D.Concat(r.out, FlushOut(x, r.car, r.car.pending), e, "");
    case _ =>
      D.NeutralOut(SwitchOut(x, r.car, op), e, "");
      D.Concat(r.out, SwitchOut(x, r.car, op), e, "");
  }

  lemma {:induction false} EmitRaises(x: Ctx, r: Res, raised: EventType, e: EventType)
    ensures D.Raises(Emit(x, r, raised).out, e) == D.Raises(r.out, e) + (if raised == e then 1 else 0)
  {
    var first := Raised(raised, r.car.geofence);
    var second := if Immediate(raised, r.car) then Handed(BuildPayload(x, r.car, raised)) else Deferred(raised, x.env.now + DEFER_DELAY);
    assert Emit(x, r, raised).out == r.out + [first] + [second];
    D.Snoc(r.out, first, e, "");
    D.Snoc(r.out + [first], second, e, "");
  }

  lemma {:induction false} NotRaised(ops: seq<Op>, e: EventType)
    requires Raise(e) !in ops
    ensures RaiseCount(ops, e) == 0
  {
    if ops != [] {
      assert ops[|ops| - 1] in ops;
      NotRaised(ops[..|ops| - 1], e);
    }
  }

  lemma {:induction false} BatteryPlanRaises(x: Ctx, c: Car, value: string, first: bool)
    requires Atoi(value).Some?
    ensures var a := BatteryThresholds(x.p, Atoi(value).value, c.lowFired, c.highFired);
            var ops := Plan(x, c, T.BatteryLevel, value, first);
            && RaiseCount(ops, BatteryLow) == (if !first && a.low && !c.lowFired then 1 else 0)
            && RaiseCount(ops, BatteryFull) == (if !first && a.high && !c.highFired then 1 else 0)
  {
    var a := BatteryThresholds(x.p, Atoi(value).value, c.lowFired, c.highFired);
    if first {
      NotRaised([Flush], BatteryLow);
      NotRaised([Flush], BatteryFull);
    } else {
      AlertRaises(a.low && !c.lowFired, a.high && !c.highFired);
    }
  }

  lemma {:induction false} AlertRaises(low: bool, high: bool)
    ensures var ops := RaiseAll((if low then [BatteryLow] else []) + (if high then [BatteryFull] else [])) + [Flush];
            RaiseCount(ops, BatteryLow) == (if low then 1 else 0) && RaiseCount(ops, BatteryFull) == (if high then 1 else 0)
  {
    var a, b := if low then [BatteryLow] else [], if high then [BatteryFull] else [];
    AlertCount(a, b, BatteryLow);
    AlertCount(a, b, BatteryFull);
  }

  lemma {:induction false} AlertCount(a: seq<EventType>, b: seq<EventType>, e: EventType)
    ensures RaiseCount(RaiseAll(a + b) + [Flush], e) == multiset(a)[e] + multiset(b)[e]
  {
    var ops := RaiseAll(a + b);
    RaiseAllCount(a + b, e);
    assert (ops + [Flush])[..|ops|] == ops;
  }

  lemma {:induction false} RaiseAllCount(events: seq<EventType>, e: EventType)
    ensures RaiseCount(RaiseAll(events), e) == multiset(events)[e]
  {
    if events != [] {
      var init, last := events[..|events| - 1], events[|events| - 1];
      RaiseAllCount(init, e);
      assert events == init + [last];
      assert (RaiseAll(init) + [Raise(last)])[..|RaiseAll(init)|] == RaiseAll(init);
    }
  }

  lemma {:induction false} OtherPlansRaiseNoAlert(x: Ctx, c: Car, f: T.Field, value: string, first: bool)
    requires f != T.BatteryLevel || Atoi(value).None?
    ensures Raise(BatteryLow) !in Plan(x, c, f, value, first) && Raise(BatteryFull) !in Plan(x, c, f, value, first)
  {
    StateOpsRaiseNoAlert(c.state, value);
    ChargingOpsRaiseNoAlert(c.chargingState, value);
    ChargingOpsRaiseNoAlert("", CHARGING);
  }

  lemma {:induction false} StateOpsRaiseNoAlert(prev: string, next: string)
    ensures Raise(BatteryLow) !in StateOps(prev, next) && Raise(BatteryFull) !in StateOps(prev, next)
  {
  }

  lemma {:induction false} ChargingOpsRaiseNoAlert(prev: string, next: string)
    ensures Raise(BatteryLow) !in ChargingOps(prev, next) && Raise(BatteryFull) !in ChargingOps(prev, next)
  {
  }

  // ----- Every input -----

  lemma {:induction false} OpsKeepLatches(x: Ctx, r: Res, ops: seq<Op>)
    ensures var c := PerformAll(x, r, ops).car;
            c.lowFired == r.car.lowFired && c.highFired == r.car.highFired
  {
    if ops != [] {
      OpsKeepLatches(x, r, ops[..|ops| - 1]);
      OneOpKeepsLatches(x, PerformAll(x, r, ops[..|ops| - 1]), ops[|ops| - 1]);
    }
  }

  lemma {:induction false} OneOpKeepsLatches(x: Ctx, r: Res, op: Op)
    ensures var c := Perform(x, r, op).car;
            c.lowFired == r.car.lowFired && c.highFired == r.car.highFired
  {
  }

  lemma {:induction false} AssignLatches(p: Params, c: Car, f: T.Field, value: string, first: bool)
    ensures var d := Assign(p, c, f, value, first);
            if f == T.BatteryLevel && Atoi(value).Some? && !first then
              var a := BatteryThresholds(p, Atoi(value).value, c.lowFired, c.highFired);
              d.lowFired == a.low && d.highFired == a.high
            else d.lowFired == c.lowFired && d.highFired == c.highFired
  {
  }

  /** A pair of latches moves from one value to another, raising an alert exactly on a rising edge. */
  ghost predicate Edges(low: bool, high: bool, low': bool, high': bool, out: seq<Effect>) {
    && D.Raises(out, BatteryLow) == (if low' && !low then 1 else 0)
    && D.Raises(out, BatteryFull) == (if high' && !high then 1 else 0)
  }

  predicate Checks(c: Car, f: T.Field, value: string) {
    f == T.BatteryLevel && Atoi(value).Some? && f in c.initialized
  }

  lemma {:induction false} PlanEdges(x: Ctx, c: Car, f: T.Field, value: string, first: bool, d: Car)
    requires d == Assign(x.p, c, f, value, first)
    ensures var ops := Plan(x, c, f, value, first);
            && RaiseCount(ops, BatteryLow) == (if d.lowFired && !c.lowFired then 1 else 0)
            && RaiseCount(ops, BatteryFull) == (if d.highFired && !c.highFired then 1 else 0)
  {
    AssignLatches(x.p, c, f, value, first);
    if f == T.BatteryLevel && Atoi(value).Some? {
      BatteryPlanRaises(x, c, value, first);
    } else {
      OtherPlansRaiseNoAlert(x, c, f, value, first);
      NotRaised(Plan(x, c, f, value, first), BatteryLow);
      NotRaised(Plan(x, c, f, value, first), BatteryFull);
    }
  }

  /** The latches after a message, and the alerts it raises: one exactly on a latch's rising edge. */
  lemma {:induction false} MessageLatches(x: Ctx, c: Car, f: T.Field, value: string)
    ensures var r := HandleMessage(x, c, f, value);
            && (if Checks(c, f, value) then
                  var a := BatteryThresholds(x.p, Atoi(value).value, c.lowFired, c.highFired);
                  r.car.lowFired == a.low && r.car.highFired == a.high
                else r.car.lowFired == c.lowFired && r.car.highFired == c.highFired)
            && Edges(c.lowFired, c.highFired, r.car.lowFired, r.car.highFired, r.out)
  {
    var c1 := Received(x, c, f, value);
    var first := f !in c.initialized;
    var d := Assign(x.p, c1, f, value, first);
    var ops := Plan(x, c1, f, value, first);
    AssignLatches(x.p, c1, f, value, first);
    PlanEdges(x, c1, f, value, first, d);
    OpsKeepLatches(x, Res(d, []), ops);
    OpsRaise(x, Res(d, []), ops, BatteryLow);
    OpsRaise(x, Res(d, []), ops, BatteryFull);
  }

  lemma {:induction false} OtherInputLatches(x: Ctx, c: Car, i: Input)
    requires !i.Msg?
    ensures var r := Apply(x, c, i);
            && r.car.lowFired == c.lowFired && r.car.highFired == c.highFired
            && D.Raises(r.out, BatteryLow) == 0 && D.Raises(r.out, BatteryFull) == 0
  {
    match i
    case Unknown(_, _) =>
    case Wake(e) => WakeLatches(x, c, e);
    case Fire(kind) =>
      D.TickOut(x, c, kind, BatteryLow);
      D.TickOut(x, c, kind, BatteryFull);
  }

  lemma {:induction false} WakeLatches(x: Ctx, c: Car, e: EventType)
    ensures var r := Timeout(x, c, e);
            && r.car.lowFired == c.lowFired && r.car.highFired == c.highFired
            && D.Raises(r.out, BatteryLow) == 0 && D.Raises(r.out, BatteryFull) == 0
  {
    D.TimeoutOut(x, c, e, BatteryLow);
    D.TimeoutOut(x, c, e, BatteryFull);
  }

  /** What the latches must be, and how many alerts must have been raised, after some readings. */
  ghost predicate Tracks(p: Params, r: Res, readings: seq<int>) {
    && r.car.lowFired == Low(p.batteryLow, readings)
    && r.car.highFired == Full(p.batteryHigh, readings)
    && D.Raises(r.out, BatteryLow) == Onsets(p.batteryLow, readings)
    && D.Raises(r.out, BatteryFull) == Onsets(-p.batteryHigh, Mirror(readings))
  }

  lemma {:induction false} OnsetsSnoc(t: int, readings: seq<int>, level: int)
    ensures Onsets(t, readings + [level]) == Onsets(t, readings) + (if Low(t, readings + [level]) && !Low(t, readings) then 1 else 0)
    ensures Mirror(readings + [level]) == Mirror(readings) + [-level]
  {
    assert (readings + [level])[..|readings|] == readings;
  }

  /** Tracking continues over an input, given what it does to latches and alerts. */
  lemma {:induction false} TracksStep(p: Params, r: Res, s: Res, level: Option<int>, readings: seq<int>)
    requires Tracks(p, r, readings)
    requires Edges(r.car.lowFired, r.car.highFired, s.car.lowFired, s.car.highFired, s.out)
    requires if level.Some? then
               var a := BatteryThresholds(p, level.value, r.car.lowFired, r.car.highFired);
               s.car.lowFired == a.low && s.car.highFired == a.high
             else s.car.lowFired == r.car.lowFired && s.car.highFired == r.car.highFired
    ensures Tracks(p, Res(s.car, r.out + s.out), if level.Some? then readings + [level.value] else readings)
  {
    D.Concat(r.out, s.out, BatteryLow, "");
    D.Concat(r.out, s.out, BatteryFull, "");
    if level.Some? {
      ReadingStep(p, level.value, readings);
    }
  }

  /** One more reading, for both conditions and their onsets. */
  lemma {:induction false} ReadingStep(p: Params, level: int, readings: seq<int>)
    ensures var low, high, longer := Low(p.batteryLow, readings), Full(p.batteryHigh, readings), readings + [level];
            var a := BatteryThresholds(p, level, low, high);
            && a.low == Low(p.batteryLow, longer) && a.high == Full(p.batteryHigh, longer)
            && Onsets(p.batteryLow, longer) == Onsets(p.batteryLow, readings) + (if a.low && !low then 1 else 0)
            && Onsets(-p.batteryHigh, Mirror(longer)) ==
               Onsets(-p.batteryHigh, Mirror(readings)) + (if a.high && !high then 1 else 0)
  {
    ThresholdStep(p, level, readings);
    OnsetsSnoc(p.batteryLow, readings, level);
    OnsetsSnoc(-p.batteryHigh, Mirror(readings), -level);
  }

  lemma {:induction false} TracksMessage(p: Params, x: Ctx, r: Res, f: T.Field, value: string, readings: seq<int>)
    requires Tracks(p, r, readings) && x.p == p
    ensures var s := HandleMessage(x, r.car, f, value);
            Tracks(p, Res(s.car, r.out + s.out),
                   if Checks(r.car, f, value) then readings + [Atoi(value).value] else readings)
  {
    MessageLatches(x, r.car, f, value);
    TracksStep(p, r, HandleMessage(x, r.car, f, value), if Checks(r.car, f, value) then Atoi(value) else None, readings);
  }

  lemma {:induction false} TracksOther(p: Params, x: Ctx, r: Res, i: Input, readings: seq<int>)
    requires Tracks(p, r, readings) && !i.Msg?
    ensures var s := Apply(x, r.car, i); Tracks(p, Res(s.car, r.out + s.out), readings)
  {
    OtherInputLatches(x, r.car, i);
    TracksStep(p, r, Apply(x, r.car, i), None, readings);
  }

  /** After every history each latch says whether its latest decisive reading was on the alert side,
      the alerts raised are its rising edges, and no other message ever touches it. */
  lemma {:induction false} BatteryHysteresis(p: Params, id: string, c0: Car, history: seq<Event>)
    requires K.Fresh(c0)
    ensures Tracks(p, Life(p, id, c0, history), Checked(history))
  {
    if history == [] {
      K.FreshFacts(c0);
      assert Mirror([]) == [];
    } else {
      var init, e := history[..|history| - 1], history[|history| - 1];
      BatteryHysteresis(p, id, c0, init);
      BatteryKnown(p, id, c0, init);
      var r, x := Life(p, id, c0, init), Ctx(p, e.env, id);
      if e.input.Msg? {
        TracksMessage(p, x, r, e.input.field, e.input.value, Checked(init));
      } else {
        TracksOther(p, x, r, e.input, Checked(init));
      }
    }
  }

  lemma {:induction false} BatteryKnown(p: Params, id: string, c0: Car, history: seq<Event>)
    requires K.Fresh(c0)
    ensures T.BatteryLevel in Life(p, id, c0, history).car.initialized <==> R.FirstValue(history, T.BatteryLevel).Some?
  {
    if history == [] {
      K.FreshFacts(c0);
    } else {
      var init, e := history[..|history| - 1], history[|history| - 1];
      BatteryKnown(p, id, c0, init);
      var r, x := Life(p, id, c0, init), Ctx(p, e.env, id);
      if e.input.Msg? {
        R.MessageInitializes(x, r.car, e.input.field, e.input.value);
      } else {
        R.InputBelief(x, r.car, e.input);
      }
    }
  }

  /** n battery_low alerts, or n battery_full alerts, in the life of a car mean that its checked
      levels travelled at least 6 (n - 1) percent. */
  lemma {:induction false} AlertsForceVariation(p: Params, id: string, c0: Car, history: seq<Event>)
    requires K.Fresh(c0)
    ensures var out := Life(p, id, c0, history).out;
            && Variation(Checked(history)) >= 6 * (D.Raises(out, BatteryLow) - 1)
            && Variation(Checked(history)) >= 6 * (D.Raises(out, BatteryFull) - 1)
  {
    BatteryHysteresis(p, id, c0, history);
    BothBounds(p, Checked(history));
  }

  lemma {:induction false} BothBounds(p: Params, readings: seq<int>)
    ensures Variation(readings) >= 6 * (Onsets(p.batteryLow, readings) - 1)
    ensures Variation(readings) >= 6 * (Onsets(-p.batteryHigh, Mirror(readings)) - 1)
  {
    AlertsNeedVariation(p.batteryLow, readings);
    AlertsNeedVariation(-p.batteryHigh, Mirror(readings));
    MirrorVariation(readings);
  }
}
