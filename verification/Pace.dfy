/** How often Live Activity updates go out, with one goroutine per start and tickers that fire
    exactly on time. */
module Pace {
  import opened GoValues
  import opened Models
  import opened Tuning
  import opened Engine
  import opened Memory
  import opened Tickers
  import RemoteConfig
  import R = Replay
  import T = Topics

  /** The period a kind of update has under these knobs at the last known speed or charging power. */
  function DueBy(knobs: Knobs, k: Known, kind: Kind): int {
    match kind
    case Drive => if Of(k.ints, T.Speed, 0) as real > knobs.drive.above then knobs.drive.fast else knobs.drive.slow
    case Charge => if Of(k.reals, T.ChargerPower, 0.0) > knobs.charge.above then knobs.charge.fast else knobs.charge.slow
  }

  /** The same, key by key of the configuration. */
  lemma {:induction false} DueMeans(config: Option<RemoteConfig.Values>, p: Params, k: Known)
    ensures DueBy(KnobsOf(config, p.parseFloat), k, Drive) ==
            if Of(k.ints, T.Speed, 0) as real > NumberUnder(config, p.parseFloat, "drive.fast_above_kmh", 80.0)
            then SecondsUnder(config, "drive.tick_fast_s", 15_000_000_000)
            else SecondsUnder(config, "drive.tick_s", 30_000_000_000)
    ensures DueBy(KnobsOf(config, p.parseFloat), k, Charge) ==
            if Of(k.reals, T.ChargerPower, 0.0) > NumberUnder(config, p.parseFloat, "charge.fast_above_kw", 11.0)
            then SecondsUnder(config, "charge.tick_fast_s", 30_000_000_000)
            else SecondsUnder(config, "charge.tick_s", 60_000_000_000)
  {
    KnobsMean(config, p.parseFloat);
  }

  /** A start, stop or update, with the period in force then. */
  datatype Beat = Started(at: nat, due: int) | Halted(at: nat) | Pulse(at: nat, due: int)

  function BeatOf(e: Effect, kind: Kind, due: int): seq<Beat> {
    match e
    case Opened(k, _, at, _) => if k == kind then [Started(at, due)] else []
    case Closed(k, _, at) => if k == kind then [Halted(at)] else []
    case Update(k, at, _) => if k == kind then [Pulse(at, due)] else []
    case _ => []
  }

  /** A log, followed by the starts, stops and updates of one kind among the effects. */
  function Beats(log: seq<Beat>, out: seq<Effect>, kind: Kind, due: int): seq<Beat> {
    if out == [] then log else Beats(log, out[..|out| - 1], kind, due) + BeatOf(out[|out| - 1], kind, due)
  }

  /** The beats of a life, each with the period that its configuration and readings called for. */
  function PaceLog(p: Params, id: string, c0: Car, history: seq<Event>, kind: Kind): seq<Beat> {
    if history == [] then []
    else
      var init, e := history[..|history| - 1], history[|history| - 1];
      Beats(PaceLog(p, id, c0, init, kind), LastOut(p, id, c0, init, e), kind, DueBy(e.env.knobs, Knowledge(p, history), kind))
  }

  /** An update comes exactly one period after the start or the update before it, by the period in
      force then, with no stop in between; a period is 5 to 120 seconds. */
  predicate InPace(log: seq<Beat>, i: nat)
    requires i < |log|
  {
    && (log[i].Pulse? ==> i > 0 && !log[i - 1].Halted? && log[i].at == log[i - 1].at + log[i - 1].due)
    && (!log[i].Halted? ==> 5_000_000_000 <= log[i].due <= 120_000_000_000)
  }

  /** Time never runs backwards, and every update is in pace. */
  ghost predicate Steady(log: seq<Beat>) {
    && (forall i | 0 < i < |log| :: log[i - 1].at <= log[i].at)
    && (forall i | 0 <= i < |log| :: InPace(log, i))
  }

  /** A running ticker fires next one period after its last start or update. */
  ghost predicate Synced(log: seq<Beat>, ticker: Option<Ticker>, now: nat) {
    && Steady(log)
    && (log != [] ==> log[|log| - 1].at <= now)
    && (ticker.Some? ==>
          && log != [] && !log[|log| - 1].Halted?
          && ticker.value.period == log[|log| - 1].due
          && ticker.value.next == log[|log| - 1].at + log[|log| - 1].due)
  }

  /** The knobs an input meets come from some configuration, good or bad. */
  ghost predicate Configured(p: Params, env: Env) {
    exists config :: env.knobs == KnobsOf(config, p.parseFloat)
  }

  /** A ticker fires exactly when it is due: never later, and never otherwise. */
  ghost predicate OnTime(c: Car, e: Event) {
    && (forall kind | TickerOf(c, kind).Some? :: e.env.now <= TickerOf(c, kind).value.next)
    && (forall kind | e.input == Fire(kind) :: TickerOf(c, kind).Some? && e.env.now == TickerOf(c, kind).value.next)
  }

  function Clock(history: seq<Event>): nat {
    if history == [] then 0 else history[|history| - 1].env.now
  }

  ghost predicate IdealTickers(p: Params, id: string, c0: Car, history: seq<Event>) {
    history == [] ||
    (var init, e := history[..|history| - 1], history[|history| - 1];
     IdealTickers(p, id, c0, init) && Clock(init) <= e.env.now && Configured(p, e.env) && OnTime(Life(p, id, c0, init).car, e))
  }

  // ----- Lists -----

  lemma {:induction false} BeatSnoc(log: seq<Beat>, out: seq<Effect>, e: Effect, kind: Kind, due: int)
    ensures Beats(log, out + [e], kind, due) == Beats(log, out, kind, due) + BeatOf(e, kind, due)
  {
    assert (out + [e])[..|out|] == out;
  }

  lemma {:induction false} BeatConcat(log: seq<Beat>, a: seq<Effect>, b: seq<Effect>, kind: Kind, due: int)
    ensures Beats(log, a + b, kind, due) == Beats(Beats(log, a, kind, due), b, kind, due)
  {
    if b == [] {
      assert a + b == a;
    } else {
      var init, last := b[..|b| - 1], b[|b| - 1];
      BeatConcat(log, a, init, kind, due);
      assert a + b == (a + init) + [last];
      BeatSnoc(log, a + init, last, kind, due);
    }
  }

  lemma {:induction false} NoBeats(log: seq<Beat>, out: seq<Effect>, kind: Kind, due: int)
    requires forall i | 0 <= i < |out| :: BeatOf(out[i], kind, due) == []
    ensures Beats(log, out, kind, due) == log
  {
    if out != [] {
      NoBeats(log, out[..|out| - 1], kind, due);
      assert log + [] == log;
    }
  }

  lemma {:induction false} SteadySnoc(log: seq<Beat>, b: Beat)
    requires Steady(log)
    requires log != [] ==> log[|log| - 1].at <= b.at
    requires b.Pulse? ==> log != [] && !log[|log| - 1].Halted? && b.at == log[|log| - 1].at + log[|log| - 1].due
    requires !b.Halted? ==> 5_000_000_000 <= b.due <= 120_000_000_000
    ensures Steady(log + [b])
  {
    var all := log + [b];
    forall i | 0 < i < |all|
      ensures all[i - 1].at <= all[i].at
    {
      assert all[i - 1] == log[i - 1];
    }
    forall i | 0 <= i < |all|
      ensures InPace(all, i)
    {
      assert i < |log| ==> InPace(log, i);
      assert i > 0 ==> all[i - 1] == log[i - 1];
    }
  }

  // ----- Operations -----

  function Halt(log: seq<Beat>, ticker: Option<Ticker>, now: nat): seq<Beat> {
    if ticker.None? then log else log + [Halted(now)]
  }

  /** What an operation makes of the log: a start stops first. */
  function OpBeats(x: Ctx, log: seq<Beat>, c: Car, op: Op, kind: Kind, due: int): seq<Beat> {
    if op == StopOp(kind) then Halt(log, TickerOf(c, kind), x.env.now)
    else if op == StartOp(kind) then Halt(log, TickerOf(c, kind), x.env.now) + [Started(x.env.now, due)]
    else log
  }

  lemma {:induction false} StopBeats(log: seq<Beat>, k: Kind, ticker: Option<Ticker>, now: nat, kind: Kind, due: int)
    ensures Beats(log, StopOut(k, ticker, now), kind, due) == if k == kind then Halt(log, ticker, now) else log
  {
    if ticker.Some? {
      OneBeat(log, Closed(k, ticker.value.chan, now), kind, due);
    }
    assert log + [] == log;
  }

  lemma {:induction false} StartBeats(log: seq<Beat>, k: Kind, ticker: Option<Ticker>, start: Effect, kind: Kind,
                                      due: int)
    requires start.Opened? && start.kind == k
    ensures Beats(log, StopOut(k, ticker, start.at) + [start], kind, due) ==
            if k == kind then Halt(log, ticker, start.at) + [Started(start.at, due)] else log
  {
    StopBeats(log, k, ticker, start.at, kind, due);
    BeatSnoc(log, StopOut(k, ticker, start.at), start, kind, due);
    assert log + [] == log;
  }

  lemma {:induction false} SwitchBeats(x: Ctx, log: seq<Beat>, c: Car, op: Op, kind: Kind, due: int)
    ensures Beats(log, SwitchOut(x, c, op), kind, due) == OpBeats(x, log, c, op, kind, due)
  {
    var now := x.env.now;
    match op
    case StopCharge => StopBeats(log, Charge, c.charge, now, kind, due);
    case StopDrive => StopBeats(log, Drive, c.drive, now, kind, due);
    case StartCharge =>
      StartBeats(log, Charge, c.charge, Opened(Charge, c.chargeOpens, now, ChargingInterval(x, c)), kind, due);
    case StartDrive =>
      StartBeats(log, Drive, c.drive, Opened(Drive, c.driveOpens, now, DrivingInterval(x, c)), kind, due);
    case _ =>
  }

  lemma {:induction false} OneBeat(log: seq<Beat>, e: Effect, kind: Kind, due: int)
    ensures Beats(log, [e], kind, due) == log + BeatOf(e, kind, due)
  {
    assert [e][..0] == [];
  }

  lemma {:induction false} PerformBeats(x: Ctx, log: seq<Beat>, r: Res, op: Op, kind: Kind, due: int)
    ensures Beats(log, Perform(x, r, op).out, kind, due) ==
            OpBeats(x, Beats(log, r.out, kind, due), r.car, op, kind, due)
  {
    match op
    case Raise(e) => EmitBeats(x, log, r, e, kind, due);
    case Flush =>
      R.FlushSilent(x, r.car, r.car.pending);
      BeatConcat(log, r.out, FlushOut(x, r.car, r.car.pending), kind, due);
      NoBeats(Beats(log, r.out, kind, due), FlushOut(x, r.car, r.car.pending), kind, due);
    case _ =>
      BeatConcat(log, r.out, SwitchOut(x, r.car, op), kind, due);
      SwitchBeats(x, Beats(log, r.out, kind, due), r.car, op, kind, due);
  }

  lemma {:induction false} EmitBeats(x: Ctx, log: seq<Beat>, r: Res, e: EventType, kind: Kind, due: int)
    ensures Beats(log, Emit(x, r, e).out, kind, due) == Beats(log, r.out, kind, due)
  {
    var extra := Emit(x, r, e).out[|r.out|..];
    assert Emit(x, r, e).out == r.out + extra;
    BeatConcat(log, r.out, extra, kind, due);
    NoBeats(Beats(log, r.out, kind, due), extra, kind, due);
  }

  /** A ticker that starts now, with the period due. */
  predicate StartsNow(ticker: Option<Ticker>, now: nat, due: int) {
    ticker.Some? && ticker.value.next == now + due && ticker.value.period == due
  }

  lemma {:induction false} SyncedHalt(log: seq<Beat>, ticker: Option<Ticker>, now: nat)
    requires Synced(log, ticker, now)
    ensures Synced(Halt(log, ticker, now), None, now)
  {
    if ticker.Some? {
      SteadySnoc(log, Halted(now));
    }
  }

  lemma {:induction false} SyncedStart(log: seq<Beat>, ticker: Option<Ticker>, now: nat, due: int)
    requires Synced(log, None, now) && StartsNow(ticker, now, due) && 5_000_000_000 <= due <= 120_000_000_000
    ensures Synced(log + [Started(now, due)], ticker, now)
  {
    SteadySnoc(log, Started(now, due));
  }

  lemma {:induction false} SyncedBeats(x: Ctx, log: seq<Beat>, c: Car, ticker: Option<Ticker>, op: Op, kind: Kind,
                                       due: int)
    requires Synced(log, TickerOf(c, kind), x.env.now) && 5_000_000_000 <= due <= 120_000_000_000
    requires if op == StartOp(kind) then StartsNow(ticker, x.env.now, due)
             else ticker == if op == StopOp(kind) then None else TickerOf(c, kind)
    ensures Synced(OpBeats(x, log, c, op, kind, due), ticker, x.env.now)
  {
    var now := x.env.now;
    if op == StopOp(kind) {
      SyncedHalt(log, TickerOf(c, kind), now);
    } else if op == StartOp(kind) {
      SyncedHalt(log, TickerOf(c, kind), now);
      SyncedStart(Halt(log, TickerOf(c, kind), now), ticker, now, due);
    }
  }

  /** The readings that decide the period. */
  predicate SameReadings(c: Car, d: Car) {
    c.speed == d.speed && c.chargerPower == d.chargerPower
  }

  /** The period is the one due for the car. */
  predicate DueFor(x: Ctx, c: Car, kind: Kind, due: int) {
    due == if kind == Charge then ChargingInterval(x, c) else DrivingInterval(x, c)
  }

  lemma {:induction false} DueForKnown(x: Ctx, c: Car, k: Known, kind: Kind)
    requires Numbers(c, k)
    ensures DueFor(x, c, kind, DueBy(x.env.knobs, k, kind))
  {
  }

  lemma {:induction false} DueInBounds(knobs: Knobs, k: Known, kind: Kind)
    requires Safe(knobs)
    ensures 5_000_000_000 <= DueBy(knobs, k, kind) <= 120_000_000_000
  {
  }

  lemma {:induction false} StartedTicker(x: Ctx, r: Res, op: Op, kind: Kind, due: int)
    requires DueFor(x, r.car, kind, due)
    ensures var ticker := TickerOf(Perform(x, r, op).car, kind);
            if op == StartOp(kind) then StartsNow(ticker, x.env.now, due)
            else ticker == if op == StopOp(kind) then None else TickerOf(r.car, kind)
  {
  }

  lemma {:induction false} SyncedOps(x: Ctx, r: Res, ops: seq<Op>, log: seq<Beat>, kind: Kind, due: int)
    requires DueFor(x, r.car, kind, due) && 5_000_000_000 <= due <= 120_000_000_000
    requires Synced(Beats(log, r.out, kind, due), TickerOf(r.car, kind), x.env.now)
    ensures var s := PerformAll(x, r, ops);
            Synced(Beats(log, s.out, kind, due), TickerOf(s.car, kind), x.env.now)
  {
    if ops != [] {
      var init, op := ops[..|ops| - 1], ops[|ops| - 1];
      SyncedOps(x, r, init, log, kind, due);
      OpsKeepValues(x, r, init);
      SyncedOp(x, PerformAll(x, r, init), op, log, kind, due);
    }
  }

  lemma {:induction false} SyncedOp(x: Ctx, r: Res, op: Op, log: seq<Beat>, kind: Kind, due: int)
    requires DueFor(x, r.car, kind, due) && 5_000_000_000 <= due <= 120_000_000_000
    requires Synced(Beats(log, r.out, kind, due), TickerOf(r.car, kind), x.env.now)
    ensures var s := Perform(x, r, op);
            Synced(Beats(log, s.out, kind, due), TickerOf(s.car, kind), x.env.now)
  {
    PerformBeats(x, log, r, op, kind, due);
    StartedTicker(x, r, op, kind, due);
    SyncedBeats(x, Beats(log, r.out, kind, due), r.car, TickerOf(Perform(x, r, op).car, kind), op, kind, due);
  }

  // ----- Inputs -----

  lemma {:induction false} SyncedFire(x: Ctx, c: Car, log: seq<Beat>, fired: Kind, kind: Kind, sawOther: bool, due: int)
    requires DueFor(x, c, kind, due) && 5_000_000_000 <= due <= 120_000_000_000
    requires Cycle(ViewOf(c), c.initialized, sawOther)
    requires Opens(c, fired) > 0
    requires Synced(log, TickerOf(c, kind), x.env.now)
    requires TickerOf(c, fired).Some? && TickerOf(c, fired).value.next == x.env.now
    ensures var s := Tick(x, c, fired);
            Synced(Beats(log, s.out, kind, due), TickerOf(s.car, kind), x.env.now)
  {
    if fired == kind {
      FireBeats(x, log, c, kind, due);
      SteadySnoc(log, Pulse(x.env.now, due));
    } else {
      OtherFires(x, log, c, fired, kind, due);
    }
  }

  lemma {:induction false} OtherFires(x: Ctx, log: seq<Beat>, c: Car, fired: Kind, kind: Kind, due: int)
    requires fired != kind
    ensures var s := Tick(x, c, fired);
            Beats(log, s.out, kind, due) == log && TickerOf(s.car, kind) == TickerOf(c, kind)
  {
    NoBeats(log, Tick(x, c, fired).out, kind, due);
  }

  lemma {:induction false} FireBeats(x: Ctx, log: seq<Beat>, c: Car, kind: Kind, due: int)
    requires DueFor(x, c, kind, due)
    requires Opens(c, kind) > 0 && TickerOf(c, kind).Some? && TickerOf(c, kind).value.next == x.env.now
    requires if kind == Charge then c.chargingState == CHARGING else c.state == DRIVING
    ensures var s := Tick(x, c, kind);
            Beats(log, s.out, kind, due) == log + [Pulse(x.env.now, due)] && StartsNow(TickerOf(s.car, kind), x.env.now, due)
  {
    var s := Tick(x, c, kind);
    assert s.out == [s.out[0]];
    OneBeat(log, s.out[0], kind, due);
  }

  lemma {:induction false} SyncedMessage(x: Ctx, c: Car, f: T.Field, value: string, log: seq<Beat>, kind: Kind,
                                         due: int)
    requires DueFor(x, Assigned(x, c, f, value), kind, due) && 5_000_000_000 <= due <= 120_000_000_000
    requires Synced(log, TickerOf(c, kind), x.env.now)
    ensures var s := HandleMessage(x, c, f, value);
            Synced(Beats(log, s.out, kind, due), TickerOf(s.car, kind), x.env.now)
  {
    var r0 := Res(Assigned(x, c, f, value), []);
    AssignTicker(x, c, f, value, f !in c.initialized, kind);
    SyncedOps(x, r0, Plan(x, Received(x, c, f, value), f, value, f !in c.initialized), log, kind, due);
  }

  lemma {:induction false} SyncedWake(x: Ctx, c: Car, e: EventType, log: seq<Beat>, kind: Kind, due: int)
    ensures var s := Timeout(x, c, e);
            Beats(log, s.out, kind, due) == log && TickerOf(s.car, kind) == TickerOf(c, kind)
  {
    NoBeats(log, Timeout(x, c, e).out, kind, due);
  }

  lemma {:induction false} SyncedUnknown(x: Ctx, c: Car, name: string, value: string, log: seq<Beat>, kind: Kind,
                                         due: int)
    ensures var s := Apply(x, c, Unknown(name, value));
            Beats(log, s.out, kind, due) == log && TickerOf(s.car, kind) == TickerOf(c, kind)
  {
  }

  // ----- Histories -----

  lemma {:induction false} SyncedInput(x: Ctx, c: Car, i: Input, log: seq<Beat>, kind: Kind, sawOther: bool, due: int)
    requires DueFor(x, if i.Msg? then Assigned(x, c, i.field, i.value) else c, kind, due)
    requires 5_000_000_000 <= due <= 120_000_000_000
    requires Cycle(ViewOf(c), c.initialized, sawOther)
    requires Synced(log, TickerOf(c, kind), x.env.now)
    requires i.Fire? ==> Opens(c, i.kind) > 0 && TickerOf(c, i.kind).Some? && TickerOf(c, i.kind).value.next == x.env.now
    ensures var s := Apply(x, c, i);
            Synced(Beats(log, s.out, kind, due), TickerOf(s.car, kind), x.env.now)
  {
    match i
    case Msg(f, value) => SyncedMessage(x, c, f, value, log, kind, due);
    case Fire(fired) => SyncedFire(x, c, log, fired, kind, sawOther, due);
    case Wake(e) => SyncedWake(x, c, e, log, kind, due);
    case Unknown(name, value) => SyncedUnknown(x, c, name, value, log, kind, due);
  }

  lemma {:induction false} ConfiguredIsSafe(p: Params, env: Env)
    requires Configured(p, env)
    ensures Safe(env.knobs)
  {
    var config :| env.knobs == KnobsOf(config, p.parseFloat);
    KnobsAreSafe(config, p.parseFloat);
  }

  /** What the input makes of the readings decides the period of everything that happens in it. */
  lemma {:induction false} InputDue(x: Ctx, c: Car, c0: Car, k: Known, e: Event, kind: Kind)
    requires Remembers(c, c0, k) && x.env == e.env
    ensures DueFor(x, if e.input.Msg? then Assigned(x, c, e.input.field, e.input.value) else c, kind,
                   DueBy(e.env.knobs, Learned(x.p, k, e), kind))
  {
    if e.input.Msg? {
      AssignedRemembers(x, c, c0, k, e);
      DueForKnown(x, Assigned(x, c, e.input.field, e.input.value), Learned(x.p, k, e), kind);
    } else {
      DueForKnown(x, c, k, kind);
    }
  }

  /** Under ideal tickers, and under every configuration the relay may have sent, each update follows
      the start or update before it by exactly the period that the configuration and the car's readings
      called for at that moment, which is 5 to 120 seconds; so will the next. */
  lemma {:induction false} UpdatesKeepPace(p: Params, id: string, c0: Car, history: seq<Event>, kind: Kind)
    requires Fresh(c0) && IdealTickers(p, id, c0, history)
    ensures Synced(PaceLog(p, id, c0, history, kind), TickerOf(Life(p, id, c0, history).car, kind), Clock(history))
  {
    if history == [] {
      FreshFacts(c0);
    } else {
      var init, e := history[..|history| - 1], history[|history| - 1];
      var c, x := Life(p, id, c0, init).car, Ctx(p, e.env, id);
      UpdatesKeepPace(p, id, c0, init, kind);
      ConfiguredIsSafe(p, e.env);
      LifeCycle(p, id, c0, init);
      if e.input.Fire? {
        ChannelsAreOrderly(p, id, c0, init, e.input.kind);
      }
      CarRemembers(p, id, c0, init);
      InputDue(x, c, c0, Knowledge(p, init), e, kind);
      DueInBounds(e.env.knobs, Knowledge(p, history), kind);
      SyncedInput(x, c, e.input, PaceLog(p, id, c0, init, kind), kind, SawOtherState(init),
                  DueBy(e.env.knobs, Knowledge(p, history), kind));
    }
  }

  lemma {:induction false} BeatsInOrder(log: seq<Beat>, i: nat, j: nat)
    requires Steady(log) && i <= j < |log|
    ensures log[i].at <= log[j].at
  {
    if i < j {
      BeatsInOrder(log, i, j - 1);
    }
  }

  lemma {:induction false} SteadyApart(log: seq<Beat>, i: nat, j: nat)
    requires Steady(log) && i < j < |log| && log[i].Pulse? && log[j].Pulse?
    ensures log[i].at + 5_000_000_000 <= log[j].at <= log[j - 1].at + 120_000_000_000 && !log[j - 1].Halted?
  {
    assert InPace(log, j) && InPace(log, j - 1);
    BeatsInOrder(log, i, j - 1);
  }

  /** Two updates of one kind are at least 5 seconds apart, across any stops and restarts between
      them; and each comes at most 120 seconds after the start or update before it. */
  lemma {:induction false} UpdatesApart(p: Params, id: string, c0: Car, history: seq<Event>, kind: Kind, i: nat, j: nat)
    requires Fresh(c0) && IdealTickers(p, id, c0, history)
    requires var log := PaceLog(p, id, c0, history, kind); i < j < |log| && log[i].Pulse? && log[j].Pulse?
    ensures var log := PaceLog(p, id, c0, history, kind);
            log[i].at + 5_000_000_000 <= log[j].at <= log[j - 1].at + 120_000_000_000 && !log[j - 1].Halted?
  {
    UpdatesKeepPace(p, id, c0, history, kind);
    SteadyApart(PaceLog(p, id, c0, history, kind), i, j);
  }

  // ----- One period all along -----

  /** At every input the configuration and the readings called for this period. */
  ghost predicate AlwaysDue(p: Params, history: seq<Event>, kind: Kind, due: int) {
    history == [] ||
    (AlwaysDue(p, history[..|history| - 1], kind, due) &&
     DueBy(history[|history| - 1].env.knobs, Knowledge(p, history), kind) == due)
  }

  /** All starts and updates have this period. */
  ghost predicate AllDue(log: seq<Beat>, due: int) {
    forall i | 0 <= i < |log| && !log[i].Halted? :: log[i].due == due
  }

  lemma {:induction false} BeatsDue(log: seq<Beat>, out: seq<Effect>, kind: Kind, due: int)
    requires AllDue(log, due)
    ensures AllDue(Beats(log, out, kind, due), due)
  {
    if out != [] {
      BeatsDue(log, out[..|out| - 1], kind, due);
    }
  }

  lemma {:induction false} OneDue(p: Params, id: string, c0: Car, history: seq<Event>, kind: Kind, due: int)
    requires AlwaysDue(p, history, kind, due)
    ensures AllDue(PaceLog(p, id, c0, history, kind), due)
  {
    if history != [] {
      var init, e := history[..|history| - 1], history[|history| - 1];
      OneDue(p, id, c0, init, kind, due);
      BeatsDue(PaceLog(p, id, c0, init, kind), LastOut(p, id, c0, init, e), kind, due);
    }
  }

  /** So a car that is above the threshold all along, or below it, is updated exactly every fast, or
      slow, period. */
  lemma {:induction false} ExactlyEveryPeriod(p: Params, id: string, c0: Car, history: seq<Event>, kind: Kind,
                                              due: int, i: nat)
    requires Fresh(c0) && IdealTickers(p, id, c0, history) && AlwaysDue(p, history, kind, due)
    requires i < |PaceLog(p, id, c0, history, kind)| && PaceLog(p, id, c0, history, kind)[i].Pulse?
    ensures var log := PaceLog(p, id, c0, history, kind);
            i > 0 && !log[i - 1].Halted? && log[i].at == log[i - 1].at + due
  {
    UpdatesKeepPace(p, id, c0, history, kind);
    OneDue(p, id, c0, history, kind, due);
    SteadyDue(PaceLog(p, id, c0, history, kind), due, i);
  }

  lemma {:induction false} SteadyDue(log: seq<Beat>, due: int, i: nat)
    requires Steady(log) && AllDue(log, due) && i < |log| && log[i].Pulse?
    ensures i > 0 && !log[i - 1].Halted? && log[i].at == log[i - 1].at + due
  {
    assert InPace(log, i);
  }

  // ----- The periods themselves, whether or not tickers are on time -----

  /** Every ticker opened has the period that is due for the car. */
  ghost predicate OpenedDue(x: Ctx, c: Car, out: seq<Effect>) {
    forall i | 0 <= i < |out| && out[i].Opened? :: DueFor(x, c, out[i].kind, out[i].period)
  }

  lemma {:induction false} OpsOpenDue(x: Ctx, r: Res, ops: seq<Op>)
    requires OpenedDue(x, r.car, r.out)
    ensures OpenedDue(x, r.car, PerformAll(x, r, ops).out)
  {
    if ops != [] {
      var init, op := ops[..|ops| - 1], ops[|ops| - 1];
      OpsOpenDue(x, r, init);
      OpsKeepValues(x, r, init);
      OpOpensDue(x, r.car, PerformAll(x, r, init), op);
    }
  }

  lemma {:induction false} OpOpensDue(x: Ctx, c: Car, r: Res, op: Op)
    requires OpenedDue(x, c, r.out) && SameReadings(c, r.car)
    ensures OpenedDue(x, c, Perform(x, r, op).out)
  {
    if op.Flush? {
      R.FlushSilent(x, r.car, r.car.pending);
    }
  }

  /** The effects of one input, with the period due of either kind for the car: every ticker opened has
      it, and so has a ticker after an update. */
  ghost predicate Periods(out: seq<Effect>, d: Car, charge: int, drive: int) {
    && (forall i | 0 <= i < |out| && out[i].Opened? :: out[i].period == if out[i].kind == Charge then charge else drive)
    && (forall i | 0 <= i < |out| && out[i].Update? ::
          var ticker := TickerOf(d, out[i].kind);
          ticker.Some? && ticker.value.period == if out[i].kind == Charge then charge else drive)
  }

  /** In every life, every ticker opened gets the period that the configuration and the readings, up to
      and including the input that opens it, call for; and so does a ticker that has just fired. */
  lemma {:induction false} PeriodsAreConfigured(p: Params, id: string, c0: Car, init: seq<Event>, e: Event)
    requires Fresh(c0)
    ensures var k := Learned(p, Knowledge(p, init), e);
            Periods(LastOut(p, id, c0, init, e), Life(p, id, c0, init + [e]).car,
                    DueBy(e.env.knobs, k, Charge), DueBy(e.env.knobs, k, Drive))
  {
    var c, x, k := Life(p, id, c0, init).car, Ctx(p, e.env, id), Knowledge(p, init);
    CarRemembers(p, id, c0, init);
    InputDue(x, c, c0, k, e, Drive);
    InputDue(x, c, c0, k, e, Charge);
    LifeSnoc(p, id, c0, init, e);
    InputPeriods(x, c, e.input, DueBy(e.env.knobs, Learned(p, k, e), Charge), DueBy(e.env.knobs, Learned(p, k, e), Drive));
  }

  lemma {:induction false} InputPeriods(x: Ctx, c: Car, i: Input, charge: int, drive: int)
    requires var d := if i.Msg? then Assigned(x, c, i.field, i.value) else c;
             DueFor(x, d, Charge, charge) && DueFor(x, d, Drive, drive)
    ensures Periods(Apply(x, c, i).out, Apply(x, c, i).car, charge, drive)
  {
    match i
    case Msg(f, value) =>
      var r0 := Res(Assigned(x, c, f, value), []);
      var ops := Plan(x, Received(x, c, f, value), f, value, f !in c.initialized);
      OpsOpenDue(x, r0, ops);
      OpsNeverUpdate(x, r0, ops);
    case Unknown(_, _) =>
    case Wake(e) => WakePeriods(x, c, e, charge, drive);
    case Fire(kind) => FirePeriods(x, c, kind, charge, drive);
  }

  lemma {:induction false} WakePeriods(x: Ctx, c: Car, e: EventType, charge: int, drive: int)
    ensures Periods(Timeout(x, c, e).out, Timeout(x, c, e).car, charge, drive)
  {
  }

  lemma {:induction false} FirePeriods(x: Ctx, c: Car, kind: Kind, charge: int, drive: int)
    requires DueFor(x, c, Charge, charge) && DueFor(x, c, Drive, drive)
    ensures Periods(Tick(x, c, kind).out, Tick(x, c, kind).car, charge, drive)
  {
  }

  ghost predicate NoUpdate(out: seq<Effect>) {
    forall n | 0 <= n < |out| :: !out[n].Update?
  }

  lemma {:induction false} OpsNeverUpdate(x: Ctx, r: Res, ops: seq<Op>)
    requires NoUpdate(r.out)
    ensures NoUpdate(PerformAll(x, r, ops).out)
  {
    if ops != [] {
      OpsNeverUpdate(x, r, ops[..|ops| - 1]);
      OpNeverUpdates(x, PerformAll(x, r, ops[..|ops| - 1]), ops[|ops| - 1]);
    }
  }

  lemma {:induction false} OpNeverUpdates(x: Ctx, r: Res, op: Op)
    requires NoUpdate(r.out)
    ensures NoUpdate(Perform(x, r, op).out)
  {
    if op.Flush? {
      R.FlushSilent(x, r.car, r.car.pending);
    }
  }
}
