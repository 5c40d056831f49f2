/** The life cycle and the pace of the Live Activity tickers. */
module Tickers {
  import opened GoValues
  import opened Models
  import opened Tuning
  import opened Engine
  import RemoteConfig
  import D = Deferral
  import R = Replay
  import T = Topics

  function TickerOf(c: Car, kind: Kind): Option<Ticker> {
    if kind == Charge then c.charge else c.drive
  }

  function Opens(c: Car, kind: Kind): nat {
    if kind == Charge then c.chargeOpens else c.driveOpens
  }

  function StartOp(kind: Kind): Op {
    if kind == Charge then StartCharge else StartDrive
  }

  function StopOp(kind: Kind): Op {
    if kind == Charge then StopCharge else StopDrive
  }

  // ----- Which operations leave a ticker running -----

  /** Whether a ticker runs after a list of operations. */
  function RunsAfter(live: bool, ops: seq<Op>, kind: Kind): bool {
    if ops == [] then live
    else if ops[|ops| - 1] == StartOp(kind) then true
    else if ops[|ops| - 1] == StopOp(kind) then false
    else RunsAfter(live, ops[..|ops| - 1], kind)
  }

  lemma {:induction false} PerformTicker(x: Ctx, r: Res, op: Op, kind: Kind)
    ensures var c, d := r.car, Perform(x, r, op).car;
            && TickerOf(d, kind).Some? == RunsAfter(TickerOf(c, kind).Some?, [op], kind)
            && (op == StartOp(kind) ==> Opens(d, kind) == Opens(c, kind) + 1)
            && (op != StartOp(kind) ==> Opens(d, kind) == Opens(c, kind))
            && d.driveStart.Some? == (if op == StartDrive then true else if op == StopDrive then false else c.driveStart.Some?)
  {
    assert [op][..0] == [];
  }

  lemma {:induction false} RunsConcat(live: bool, a: seq<Op>, b: seq<Op>, kind: Kind)
    ensures RunsAfter(live, a + b, kind) == RunsAfter(RunsAfter(live, a, kind), b, kind)
  {
    if b == [] {
      assert a + b == a;
    } else {
      RunsConcat(live, a, b[..|b| - 1], kind);
      assert (a + b)[..|a + b| - 1] == a + b[..|b| - 1];
    }
  }

  lemma {:induction false} PerformAllTicker(x: Ctx, r: Res, ops: seq<Op>, kind: Kind)
    requires r.car.drive.Some? == r.car.driveStart.Some?
    ensures var c, d := r.car, PerformAll(x, r, ops).car;
            && TickerOf(d, kind).Some? == RunsAfter(TickerOf(c, kind).Some?, ops, kind)
            && d.drive.Some? == d.driveStart.Some?
            && (StartOp(kind) !in ops ==> Opens(d, kind) == Opens(c, kind))
  {
    if ops != [] {
      var init, op := ops[..|ops| - 1], ops[|ops| - 1];
      PerformAllTicker(x, r, init, kind);
      PerformTicker(x, PerformAll(x, r, init), op, kind);
      PerformTicker(x, PerformAll(x, r, init), op, Drive);
      assert ops == init + [op];
      RunsConcat(TickerOf(r.car, kind).Some?, init, [op], kind);
      PerformAllTicker(x, r, init, Drive);
    }
  }

  /** Operations that concern no ticker of this kind. */
  ghost predicate NoSwitch(ops: seq<Op>, kind: Kind) {
    StartOp(kind) !in ops && StopOp(kind) !in ops
  }

  lemma {:induction false} NoSwitchRuns(live: bool, ops: seq<Op>, kind: Kind)
    requires NoSwitch(ops, kind)
    ensures RunsAfter(live, ops, kind) == live
  {
    if ops != [] {
      assert ops[|ops| - 1] in ops;
      NoSwitchRuns(live, ops[..|ops| - 1], kind);
    }
  }

  ghost predicate OnlyRaises(ops: seq<Op>) {
    forall op | op in ops :: op.Raise?
  }

  lemma {:induction false} OnlyRaisesRuns(live: bool, ops: seq<Op>, more: seq<Op>, kind: Kind)
    requires OnlyRaises(more)
    ensures RunsAfter(live, ops + more, kind) == RunsAfter(live, ops, kind)
    ensures StartOp(kind) in ops + more ==> StartOp(kind) in ops
    ensures NoSwitch(ops, kind) ==> NoSwitch(ops + more, kind)
  {
    RunsConcat(live, ops, more, kind);
    NoSwitchRuns(RunsAfter(live, ops, kind), more, kind);
  }

  /** The part of a state transition that starts or stops the driving ticker. */
  lemma {:induction false} DriveOpsRun(started: bool, ended: bool, live: bool)
    requires !(started && ended)
    ensures var ops := (if started then [Raise(DriveStarted), StartDrive] else []) + (if ended then [StopDrive, Raise(DriveEnded)] else []);
            && RunsAfter(live, ops, Drive) == (if started then true else if ended then false else live)
            && (StartDrive in ops ==> started)
            && NoSwitch(ops, Charge)
  {
    assert [StopDrive, Raise(DriveEnded)][..1] == [StopDrive];
  }

  lemma {:induction false} StateOpsDrive(prev: string, next: string, live: bool)
    requires prev != next
    ensures RunsAfter(live, StateOps(prev, next), Drive) == if next == DRIVING then true else if prev == DRIVING then false else live
    ensures StartDrive in StateOps(prev, next) ==> next == DRIVING
    ensures NoSwitch(StateOps(prev, next), Charge)
  {
    SleepOpsRun((if next == DRIVING then [Raise(DriveStarted), StartDrive] else []) +
                (if prev == DRIVING then [StopDrive, Raise(DriveEnded)] else []),
                next == SUSPENDED, next == ASLEEP || next == OFFLINE, Sleeping(prev) && !Sleeping(next), live);
    DriveOpsRun(next == DRIVING, prev == DRIVING, live);
  }

  lemma {:induction false} SleepOpsRun(ops: seq<Op>, falling: bool, asleep: bool, woke: bool, live: bool)
    ensures var all := ops + (if falling then [Raise(VehicleFallingAsleep)] else []) +
                             (if asleep then [Raise(VehicleAsleep)] else []) + (if woke then [Raise(VehicleWoke)] else []);
            && RunsAfter(live, all, Drive) == RunsAfter(live, ops, Drive)
            && (StartDrive in all ==> StartDrive in ops)
            && (NoSwitch(ops, Charge) ==> NoSwitch(all, Charge))
  {
    var a := if falling then [Raise(VehicleFallingAsleep)] else [];
    var b := if asleep then [Raise(VehicleAsleep)] else [];
    var c := if woke then [Raise(VehicleWoke)] else [];
    OnlyRaisesRuns(live, ops, a, Drive);
    OnlyRaisesRuns(live, ops + a, b, Drive);
    OnlyRaisesRuns(live, ops + a + b, c, Drive);
    OnlyRaisesRuns(live, ops, a, Charge);
    OnlyRaisesRuns(live, ops + a, b, Charge);
    OnlyRaisesRuns(live, ops + a + b, c, Charge);
  }

  lemma {:induction false} ChargingOpsCharge(prev: string, next: string, live: bool)
    requires prev != next
    ensures RunsAfter(live, ChargingOps(prev, next), Charge) ==
            if next == CHARGING then true else if next == COMPLETE || prev == CHARGING then false else live
    ensures NoSwitch(ChargingOps(prev, next), Drive)
  {
    assert CHARGING != COMPLETE by { assert CHARGING[1] != COMPLETE[1]; }
    var a := if next == CHARGING then [Raise(ChargingStarted), StartCharge] else [];
    var b := if next == COMPLETE then [StopCharge, Raise(ChargingCompleted)] else [];
    var c := if prev == CHARGING && next != COMPLETE && next != CHARGING then [StopCharge, Raise(ChargingInterrupted)] else [];
    assert ChargingOps(prev, next) == a + b + c;
    RunsConcat(live, a + b, c, Charge);
    RunsConcat(live, a, b, Charge);
    assert [StopCharge, Raise(ChargingCompleted)][..1] == [StopCharge];
    assert [StopCharge, Raise(ChargingInterrupted)][..1] == [StopCharge];
  }

  lemma {:induction false} OtherPlansSwitchNothing(x: Ctx, c: Car, f: T.Field, value: string, first: bool)
    requires f != T.State && f != T.ChargingState
    ensures NoSwitch(Plan(x, c, f, value, first), Charge) && NoSwitch(Plan(x, c, f, value, first), Drive)
  {
    if f == T.BatteryLevel {
      BatteryPlanSwitchesNothing(x, c, value, first);
    }
  }

  lemma {:induction false} BatteryPlanSwitchesNothing(x: Ctx, c: Car, value: string, first: bool)
    ensures NoSwitch(Plan(x, c, T.BatteryLevel, value, first), Charge) && NoSwitch(Plan(x, c, T.BatteryLevel, value, first), Drive)
  {
    if Atoi(value).Some? && !first {
      RaisingSwitchesNothing(BatteryThresholds(x.p, Atoi(value).value, c.lowFired, c.highFired).events, Charge);
      RaisingSwitchesNothing(BatteryThresholds(x.p, Atoi(value).value, c.lowFired, c.highFired).events, Drive);
    }
  }

  lemma {:induction false} RaisingSwitchesNothing(events: seq<EventType>, kind: Kind)
    ensures NoSwitch(RaiseAll(events) + [Flush], kind)
  {
    D.RaiseAllOnlyRaises(events);
    var ops := RaiseAll(events);
    forall op | op in ops + [Flush]
      ensures op.Raise? || op.Flush?
    {
      assert op in ops || op == Flush;
    }
  }

  // ----- The life cycle -----

  /** A state other than driving was received at some time. */
  function SawOtherState(history: seq<Event>): bool {
    history != [] &&
    (var i := history[|history| - 1].input;
     (i.Msg? && i.field == T.State && i.value != DRIVING) || SawOtherState(history[..|history| - 1]))
  }

  /** The part of a car its life cycle is about. */
  datatype CycleView = CycleView(charge: bool, drive: bool, timed: bool, driveOpens: nat, state: string, chargingState: string)

  function ViewOf(c: Car): CycleView {
    CycleView(c.charge.Some?, c.drive.Some?, c.driveStart.Some?, c.driveOpens, c.state, c.chargingState)
  }

  /** The charging ticker runs exactly while the car charges. The driving ticker runs exactly while
      the drive is timed, and exactly while the car drives and was once seen in another state. */
  ghost predicate Cycle(v: CycleView, initialized: set<T.Field>, sawOther: bool) {
    && (v.charge <==> v.chargingState == CHARGING)
    && (v.drive <==> v.timed)
    && (v.drive <==> v.state == DRIVING && sawOther)
    && (!sawOther ==> v.driveOpens == 0)
    && (T.State !in initialized ==> v.state != DRIVING && !sawOther)
    && (T.State in initialized ==> sawOther || v.state == DRIVING)
    && (T.ChargingState !in initialized ==> v.chargingState == "")
  }

  lemma {:induction false} AssignView(p: Params, c: Car, f: T.Field, value: string, first: bool)
    ensures ViewOf(Assign(p, c, f, value, first)) == Renamed(ViewOf(c), f, value)
    ensures Assign(p, c, f, value, first).drive == c.drive && Assign(p, c, f, value, first).driveStart == c.driveStart
  {
  }

  /** What a list of operations makes of the view. */
  ghost predicate ViewMoves(v: CycleView, w: CycleView, ops: seq<Op>) {
    && w.charge == RunsAfter(v.charge, ops, Charge) && w.drive == w.timed == RunsAfter(v.drive, ops, Drive)
    && (StartDrive !in ops ==> w.driveOpens == v.driveOpens)
    && w.state == v.state && w.chargingState == v.chargingState
  }

  function Renamed(v: CycleView, f: T.Field, value: string): CycleView {
    match f
    case State => v.(state := value)
    case ChargingState => v.(chargingState := value)
    case _ => v
  }

  lemma {:induction false} StartView(x: Ctx, c: Car, f: T.Field, value: string, first: bool)
    ensures var d := Assign(x.p, Received(x, c, f, value), f, value, first);
            ViewOf(d) == Renamed(ViewOf(c), f, value) && d.drive == c.drive && d.driveStart == c.driveStart
  {
    ReceivedView(x, c, f, value);
    AssignView(x.p, Received(x, c, f, value), f, value, first);
  }

  lemma {:induction false} ReceivedView(x: Ctx, c: Car, f: T.Field, value: string)
    ensures var d := Received(x, c, f, value);
            ViewOf(d) == ViewOf(c) && d.drive == c.drive && d.driveStart == c.driveStart
  {
    RecordedView(x, c, T.FieldName(f), value);
  }

  lemma {:induction false} RecordedView(x: Ctx, c: Car, name: string, value: string)
    ensures var d := RecordRaw(x, c, name, value);
            ViewOf(d) == ViewOf(c) && d.drive == c.drive && d.driveStart == c.driveStart
  {
  }

  lemma {:induction false} MessageView(x: Ctx, c: Car, f: T.Field, value: string, ops: seq<Op>)
    requires c.drive.Some? == c.driveStart.Some?
    requires ops == Plan(x, Received(x, c, f, value), f, value, f !in c.initialized)
    ensures ViewMoves(Renamed(ViewOf(c), f, value), ViewOf(HandleMessage(x, c, f, value).car), ops)
  {
    var first := f !in c.initialized;
    StartView(x, c, f, value, first);
    OpsView(x, Res(Assign(x.p, Received(x, c, f, value), f, value, first), []), ops);
  }

  lemma {:induction false} OpsView(x: Ctx, r: Res, ops: seq<Op>)
    requires r.car.drive.Some? == r.car.driveStart.Some?
    ensures ViewMoves(ViewOf(r.car), ViewOf(PerformAll(x, r, ops).car), ops)
  {
    PerformAllTicker(x, r, ops, Charge);
    PerformAllTicker(x, r, ops, Drive);
    R.PerformAllNotes(x, r, ops);
    assert R.Show(r.car) == R.Show(PerformAll(x, r, ops).car);
  }

  lemma {:induction false} CycleMessage(x: Ctx, c: Car, f: T.Field, value: string, sawOther: bool)
    requires Cycle(ViewOf(c), c.initialized, sawOther)
    ensures Cycle(ViewOf(HandleMessage(x, c, f, value).car), c.initialized + {f}, sawOther || (f == T.State && value != DRIVING))
  {
    var c1 := Received(x, c, f, value);
    var first := f !in c.initialized;
    var ops := Plan(x, c1, f, value, first);
    MessageView(x, c, f, value, ops);
    if f == T.State {
      CycleState(x, c, value);
    } else if f == T.ChargingState {
      CycleCharging(x, c, value);
    } else {
      OtherPlansSwitchNothing(x, c1, f, value, first);
      NoSwitchRuns(c.charge.Some?, ops, Charge);
      NoSwitchRuns(c.drive.Some?, ops, Drive);
    }
  }

  lemma {:induction false} CycleState(x: Ctx, c: Car, value: string)
    ensures var first := T.State !in c.initialized;
            var ops := Plan(x, Received(x, c, T.State, value), T.State, value, first);
            && RunsAfter(c.charge.Some?, ops, Charge) == c.charge.Some?
            && RunsAfter(c.drive.Some?, ops, Drive) ==
               (if first || c.state == value then c.drive.Some?
                else if value == DRIVING then true else if c.state == DRIVING then false else c.drive.Some?)
            && (first || c.state == value || value != DRIVING ==> StartDrive !in ops)
  {
    var ops := Plan(x, Received(x, c, T.State, value), T.State, value, T.State !in c.initialized);
    if T.State in c.initialized && c.state != value {
      StateOpsDrive(c.state, value, c.drive.Some?);
      NoSwitchRuns(c.charge.Some?, ops, Charge);
    }
  }

  lemma {:induction false} CycleCharging(x: Ctx, c: Car, value: string)
    requires c.charge.Some? <==> c.chargingState == CHARGING
    requires T.ChargingState !in c.initialized ==> c.chargingState == ""
    ensures var ops := Plan(x, Received(x, c, T.ChargingState, value), T.ChargingState, value, T.ChargingState !in c.initialized);
            && (RunsAfter(c.charge.Some?, ops, Charge) <==> value == CHARGING)
            && NoSwitch(ops, Drive) && RunsAfter(c.drive.Some?, ops, Drive) == c.drive.Some?
  {
    var first := T.ChargingState !in c.initialized;
    var ops := Plan(x, Received(x, c, T.ChargingState, value), T.ChargingState, value, first);
    assert CHARGING != "" by { assert |CHARGING| == 8; }
    assert CHARGING != COMPLETE by { assert CHARGING[1] != COMPLETE[1]; }
    ChargingOpsCharge("", CHARGING, false);
    if c.chargingState != value {
      ChargingOpsCharge(c.chargingState, value, c.charge.Some?);
    }
    assert RunsAfter(false, [StartCharge], Charge);
    assert NoSwitch([StartCharge], Drive) && NoSwitch([], Drive);
    NoSwitchRuns(c.drive.Some?, ops, Drive);
  }

  lemma {:induction false} CycleOther(x: Ctx, c: Car, i: Input, sawOther: bool)
    requires Cycle(ViewOf(c), c.initialized, sawOther) && !i.Msg?
    ensures ViewOf(Apply(x, c, i).car) == ViewOf(c) && Apply(x, c, i).car.initialized == c.initialized
    ensures Panicked !in Apply(x, c, i).out
  {
    match i
    case Unknown(_, _) =>
    case Wake(e) => CycleWake(x, c, e);
    case Fire(kind) => CycleFire(x, c, kind, sawOther);
  }

  lemma {:induction false} CycleWake(x: Ctx, c: Car, e: EventType)
    ensures var r := Timeout(x, c, e);
            ViewOf(r.car) == ViewOf(c) && r.car.initialized == c.initialized && Panicked !in r.out
  {
  }

  lemma {:induction false} CycleFire(x: Ctx, c: Car, kind: Kind, sawOther: bool)
    requires Cycle(ViewOf(c), c.initialized, sawOther)
    ensures var r := Tick(x, c, kind);
            ViewOf(r.car) == ViewOf(c) && r.car.initialized == c.initialized && Panicked !in r.out
  {
  }

  /** A car as NewManager or getOrCreate makes it. */
  ghost predicate Fresh(c: Car) {
    exists name, model :: c == RestoredCar(name, model)
  }

  lemma {:induction false} FreshFacts(c: Car)
    requires Fresh(c)
    ensures R.Unheard(c) && Cycle(ViewOf(c), c.initialized, false) && c.pending == [] && c.raw.None?
    ensures c.charge.None? && c.drive.None? && c.chargeOpens == c.driveOpens == 0
    ensures !c.lowFired && !c.highFired && c.batteryLevel == 0
  {
    var name, model :| c == RestoredCar(name, model);
    R.ThreeStatesDiffer();
    assert |DRIVING| == 7 && |CHARGING| == 8;
  }

  /** The life cycle holds after every history, so no tick ever meets a nil ticker. */
  lemma {:induction false} LifeCycle(p: Params, id: string, c0: Car, history: seq<Event>)
    requires Fresh(c0)
    ensures var r := Life(p, id, c0, history);
            Cycle(ViewOf(r.car), r.car.initialized, SawOtherState(history)) && Panicked !in r.out
  {
    if history == [] {
      FreshFacts(c0);
    } else {
      var init, e := history[..|history| - 1], history[|history| - 1];
      LifeCycle(p, id, c0, init);
      var r, x := Life(p, id, c0, init), Ctx(p, e.env, id);
      if e.input.Msg? {
        CycleMessage(x, r.car, e.input.field, e.input.value, SawOtherState(init));
        R.MessageInitializes(x, r.car, e.input.field, e.input.value);
        var c1 := Received(x, r.car, e.input.field, e.input.value);
        var first := e.input.field !in r.car.initialized;
        OpsNeverPanic(x, Res(Assign(p, c1, e.input.field, e.input.value, first), []), Plan(x, c1, e.input.field, e.input.value, first));
      } else {
        CycleOther(x, r.car, e.input, SawOtherState(init));
      }
    }
  }

  lemma {:induction false} OpsNeverPanic(x: Ctx, r: Res, ops: seq<Op>)
    requires Panicked !in r.out
    ensures Panicked !in PerformAll(x, r, ops).out
  {
    if ops != [] {
      var r' := PerformAll(x, r, ops[..|ops| - 1]);
      OpsNeverPanic(x, r, ops[..|ops| - 1]);
      if ops[|ops| - 1].Flush? {
        R.FlushSilent(x, r'.car, r'.car.pending);
      }
    }
  }

  // ----- Stop channels -----

  datatype Mark = Open(chan: nat) | Close(chan: nat)

  function MarkOf(e: Effect, kind: Kind): seq<Mark> {
    match e
    case Opened(k, chan, _, _) => if k == kind then [Open(chan)] else []
    case Closed(k, chan, _) => if k == kind then [Close(chan)] else []
    case _ => []
  }

  /** A log, followed by the openings and closings of one kind of stop channel among the effects. */
  function Marks(log: seq<Mark>, out: seq<Effect>, kind: Kind): seq<Mark> {
    if out == [] then log else Marks(log, out[..|out| - 1], kind) + MarkOf(out[|out| - 1], kind)
  }

  function ChannelLog(out: seq<Effect>, kind: Kind): seq<Mark> {
    Marks([], out, kind)
  }

  /** Channel 0 is opened and closed, then channel 1, and so on: no channel is ever closed twice,
      and at most one is open at any time, the one of the running ticker. */
  ghost predicate Orderly(log: seq<Mark>, ticker: Option<Ticker>, opens: nat) {
    && |log| == 2 * opens - (if ticker.Some? then 1 else 0)
    && (forall i | 0 <= i < |log| :: log[i] == if i % 2 == 0 then Open(i / 2) else Close(i / 2))
    && (ticker.Some? ==> opens > 0 && ticker.value.chan == opens - 1)
  }

  lemma {:induction false} MarkSnoc(log: seq<Mark>, out: seq<Effect>, e: Effect, kind: Kind)
    ensures Marks(log, out + [e], kind) == Marks(log, out, kind) + MarkOf(e, kind)
  {
    assert (out + [e])[..|out|] == out;
  }

  lemma {:induction false} MarkConcat(log: seq<Mark>, a: seq<Effect>, b: seq<Effect>, kind: Kind)
    ensures Marks(log, a + b, kind) == Marks(Marks(log, a, kind), b, kind)
  {
    if b == [] {
      assert a + b == a;
    } else {
      var init, last := b[..|b| - 1], b[|b| - 1];
      MarkConcat(log, a, init, kind);
      assert a + b == (a + init) + [last];
      MarkSnoc(log, a + init, last, kind);
    }
  }

  lemma {:induction false} NoMarks(log: seq<Mark>, out: seq<Effect>, kind: Kind)
    requires forall i | 0 <= i < |out| :: !out[i].Opened? && !out[i].Closed?
    ensures Marks(log, out, kind) == log
  {
    if out != [] {
      NoMarks(log, out[..|out| - 1], kind);
      assert log + [] == log;
    }
  }

  function Shut(log: seq<Mark>, ticker: Option<Ticker>): seq<Mark> {
    if ticker.None? then log else log + [Close(ticker.value.chan)]
  }

  /** What an operation makes of the channel log. */
  function OpMarks(log: seq<Mark>, c: Car, op: Op, kind: Kind): seq<Mark> {
    if op == StopOp(kind) then Shut(log, TickerOf(c, kind))
    else if op == StartOp(kind) then Shut(log, TickerOf(c, kind)) + [Open(Opens(c, kind))]
    else log
  }

  lemma {:induction false} StopMarks(log: seq<Mark>, k: Kind, ticker: Option<Ticker>, now: nat, kind: Kind)
    ensures Marks(log, StopOut(k, ticker, now), kind) == if k == kind then Shut(log, ticker) else log
  {
    if ticker.Some? {
      var e := Closed(k, ticker.value.chan, now);
      assert [e][..0] == [];
    }
    assert log + [] == log;
  }

  lemma {:induction false} StartMarks(log: seq<Mark>, k: Kind, ticker: Option<Ticker>, start: Effect, kind: Kind)
    requires start.Opened? && start.kind == k
    ensures Marks(log, StopOut(k, ticker, start.at) + [start], kind) ==
            if k == kind then Shut(log, ticker) + [Open(start.chan)] else log
  {
    StopMarks(log, k, ticker, start.at, kind);
    MarkSnoc(log, StopOut(k, ticker, start.at), start, kind);
    assert log + [] == log;
  }

  lemma {:induction false} SwitchMarks(x: Ctx, log: seq<Mark>, c: Car, op: Op, kind: Kind)
    ensures Marks(log, SwitchOut(x, c, op), kind) == OpMarks(log, c, op, kind)
  {
    var now := x.env.now;
    match op
    case StopCharge => StopMarks(log, Charge, c.charge, now, kind);
    case StopDrive => StopMarks(log, Drive, c.drive, now, kind);
    case StartCharge => StartMarks(log, Charge, c.charge, Opened(Charge, c.chargeOpens, now, ChargingInterval(x, c)), kind);
    case StartDrive => StartMarks(log, Drive, c.drive, Opened(Drive, c.driveOpens, now, DrivingInterval(x, c)), kind);
    case _ =>
  }

  lemma {:induction false} EmitMarks(x: Ctx, log: seq<Mark>, r: Res, e: EventType, kind: Kind)
    ensures Marks(log, Emit(x, r, e).out, kind) == Marks(log, r.out, kind)
  {
    var extra := Emit(x, r, e).out[|r.out|..];
    assert Emit(x, r, e).out == r.out + extra;
    MarkConcat(log, r.out, extra, kind);
    NoMarks(Marks(log, r.out, kind), extra, kind);
  }

  lemma {:induction false} PerformMarks(x: Ctx, log: seq<Mark>, r: Res, op: Op, kind: Kind)
    ensures Marks(log, Perform(x, r, op).out, kind) == OpMarks(Marks(log, r.out, kind), r.car, op, kind)
  {
    match op
    case Raise(e) => EmitMarks(x, log, r, e, kind);
    case Flush =>
      R.FlushSilent(x, r.car, r.car.pending);
      MarkConcat(log, r.out, FlushOut(x, r.car, r.car.pending), kind);
      NoMarks(Marks(log, r.out, kind), FlushOut(x, r.car, r.car.pending), kind);
    case _ =>
      MarkConcat(log, r.out, SwitchOut(x, r.car, op), kind);
      SwitchMarks(x, Marks(log, r.out, kind), r.car, op, kind);
  }

  lemma {:induction false} OrderlyMarks(log: seq<Mark>, c: Car, d: Car, op: Op, kind: Kind)
    requires Orderly(log, TickerOf(c, kind), Opens(c, kind))
    requires if op == StartOp(kind) then Opens(d, kind) == Opens(c, kind) + 1 && TickerOf(d, kind).Some? &&
                                         TickerOf(d, kind).value.chan == Opens(c, kind)
             else Opens(d, kind) == Opens(c, kind) && TickerOf(d, kind) == if op == StopOp(kind) then None else TickerOf(c, kind)
    ensures Orderly(OpMarks(log, c, op, kind), TickerOf(d, kind), Opens(d, kind))
  {
  }

  lemma {:induction false} SwitchedTicker(x: Ctx, r: Res, op: Op, kind: Kind)
    ensures var c, d := r.car, Perform(x, r, op).car;
            if op == StartOp(kind) then Opens(d, kind) == Opens(c, kind) + 1 && TickerOf(d, kind).Some? &&
                                        TickerOf(d, kind).value.chan == Opens(c, kind)
            else Opens(d, kind) == Opens(c, kind) && TickerOf(d, kind) == if op == StopOp(kind) then None else TickerOf(c, kind)
  {
  }

  lemma {:induction false} OrderlyOp(x: Ctx, r: Res, op: Op, log: seq<Mark>, kind: Kind)
    requires Orderly(Marks(log, r.out, kind), TickerOf(r.car, kind), Opens(r.car, kind))
    ensures var s := Perform(x, r, op);
            Orderly(Marks(log, s.out, kind), TickerOf(s.car, kind), Opens(s.car, kind))
  {
    PerformMarks(x, log, r, op, kind);
    SwitchedTicker(x, r, op, kind);
    OrderlyMarks(Marks(log, r.out, kind), r.car, Perform(x, r, op).car, op, kind);
  }

  lemma {:induction false} OrderlyOps(x: Ctx, r: Res, ops: seq<Op>, log: seq<Mark>, kind: Kind)
    requires Orderly(Marks(log, r.out, kind), TickerOf(r.car, kind), Opens(r.car, kind))
    ensures var s := PerformAll(x, r, ops);
            Orderly(Marks(log, s.out, kind), TickerOf(s.car, kind), Opens(s.car, kind))
  {
    if ops != [] {
      OrderlyOps(x, r, ops[..|ops| - 1], log, kind);
      OrderlyOp(x, PerformAll(x, r, ops[..|ops| - 1]), ops[|ops| - 1], log, kind);
    }
  }

  lemma {:induction false} OrderlyInput(x: Ctx, c: Car, i: Input, log: seq<Mark>, kind: Kind)
    requires Orderly(log, TickerOf(c, kind), Opens(c, kind))
    ensures var s := Apply(x, c, i);
            Orderly(Marks(log, s.out, kind), TickerOf(s.car, kind), Opens(s.car, kind))
  {
    match i
    case Msg(f, value) =>
      var c1 := Received(x, c, f, value);
      var first := f !in c.initialized;
      AssignTicker(x, c, f, value, first, kind);
      OrderlyOps(x, Res(Assign(x.p, c1, f, value, first), []), Plan(x, c1, f, value, first), log, kind);
    case Unknown(_, _) =>
    case Wake(e) => NoMarks(log, Timeout(x, c, e).out, kind);
    case Fire(k) =>
      NoMarks(log, Tick(x, c, k).out, kind);
      FireTicker(x, c, k, kind);
  }

  lemma {:induction false} AssignTicker(x: Ctx, c: Car, f: T.Field, value: string, first: bool, kind: Kind)
    ensures var d := Assign(x.p, Received(x, c, f, value), f, value, first);
            TickerOf(d, kind) == TickerOf(c, kind) && Opens(d, kind) == Opens(c, kind)
  {
    AssignTickers(x.p, Received(x, c, f, value), f, value, first);
  }

  lemma {:induction false} AssignTickers(p: Params, c: Car, f: T.Field, value: string, first: bool)
    ensures var d := Assign(p, c, f, value, first);
            d.charge == c.charge && d.drive == c.drive && d.chargeOpens == c.chargeOpens && d.driveOpens == c.driveOpens
  {
  }

  lemma {:induction false} FireTicker(x: Ctx, c: Car, fired: Kind, kind: Kind)
    ensures var d := Tick(x, c, fired).car;
            && Opens(d, kind) == Opens(c, kind) && (TickerOf(d, kind).Some? <==> TickerOf(c, kind).Some?)
            && (TickerOf(d, kind).Some? ==> TickerOf(d, kind).value.chan == TickerOf(c, kind).value.chan)
  {
  }

  /** In every history the stop channels of each kind are opened and closed in strict turns. */
  lemma {:induction false} ChannelsAreOrderly(p: Params, id: string, c0: Car, history: seq<Event>, kind: Kind)
    requires Fresh(c0)
    ensures var r := Life(p, id, c0, history);
            Orderly(ChannelLog(r.out, kind), TickerOf(r.car, kind), Opens(r.car, kind))
  {
    if history == [] {
      FreshFacts(c0);
    } else {
      var init, e := history[..|history| - 1], history[|history| - 1];
      ChannelsAreOrderly(p, id, c0, init, kind);
      var r, x := Life(p, id, c0, init), Ctx(p, e.env, id);
      OrderlyInput(x, r.car, e.input, ChannelLog(r.out, kind), kind);
      MarkConcat([], r.out, Apply(x, r.car, e.input).out, kind);
    }
  }

  /** Orderly channels are never closed twice. */
  lemma {:induction false} ClosedOnce(log: seq<Mark>, ticker: Option<Ticker>, opens: nat, i: nat, j: nat)
    requires Orderly(log, ticker, opens) && i < j < |log| && log[i].Close? && log[j].Close?
    ensures log[i].chan < log[j].chan
  {
  }
}
