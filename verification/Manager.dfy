/** state/machine.go, Manager: its methods update car records, pending lists, goroutines, the emitter
    and the name cache in place, each input under the manager's mutex. Every input is proved to do
    what the transition system of module World does. */
module Machine {
  import opened GoValues
  import opened Models
  import opened Tuning
  import opened Engine
  import opened Cars
  import opened World
  import RemoteConfig
  import C = NameCache
  import D = Deferral
  import E = Debounce
  import K = Tickers
  import T = Topics
  import Events

  // ----- What handing over does, piece by piece -----

  lemma {:induction false} HandSnoc(e: E.Emitter, out: seq<Effect>, a: Effect, now: nat, id: string)
    ensures HandAll(e, out + [a], now) ==
            if a.Handed? then E.Emitted(HandAll(e, out, now), a.payload, now) else HandAll(e, out, now)
    ensures Sleepers(id, out + [a]) == Sleepers(id, out) + (if a.Deferred? then [Sleeper(id, a.event, a.due)] else [])
  {
    assert (out + [a])[..|out|] == out;
  }

  lemma {:induction false} HandSingle(e: E.Emitter, out: seq<Effect>, payload: EventPayload, now: nat, id: string)
    requires out == [Handed(payload)]
    ensures HandAll(e, out, now) == E.Emitted(e, payload, now) && Sleepers(id, out) == []
  {
    HandSnoc(e, [], Handed(payload), now, id);
    assert out == [] + [Handed(payload)];
  }

  lemma {:induction false} HandPair(e: E.Emitter, out: seq<Effect>, a: Effect, b: Effect, now: nat, id: string)
    requires a.Raised?
    ensures HandAll(e, out + [a, b], now) ==
            if b.Handed? then E.Emitted(HandAll(e, out, now), b.payload, now) else HandAll(e, out, now)
    ensures Sleepers(id, out + [a, b]) == Sleepers(id, out) + (if b.Deferred? then [Sleeper(id, b.event, b.due)] else [])
  {
    assert out + [a, b] == out + [a] + [b];
    HandSnoc(e, out, a, now, id);
    HandSnoc(e, out + [a], b, now, id);
    assert Sleepers(id, out) + [] == Sleepers(id, out);
  }

  lemma {:induction false} HandsNothing(e: E.Emitter, out: seq<Effect>, tail: seq<Effect>, now: nat, id: string)
    requires forall i | 0 <= i < |tail| :: !tail[i].Handed? && !tail[i].Deferred?
    ensures HandAll(e, out + tail, now) == HandAll(e, out, now)
    ensures Sleepers(id, out + tail) == Sleepers(id, out)
  {
    if tail == [] {
      assert out + tail == out;
    } else {
      var init, last := tail[..|tail| - 1], tail[|tail| - 1];
      HandsNothing(e, out, init, now, id);
      assert out + tail == out + init + [last];
      HandSnoc(e, out + init, last, now, id);
      assert Sleepers(id, out) + [] == Sleepers(id, out);
    }
  }

  /** An input in progress: what it started from, and the operations performed so far. */
  datatype Transaction = Transaction(x: Ctx, emitter: E.Emitter, sleepers: seq<Sleeper>, start: Res, done: seq<Op>)

  function Result(tx: Transaction): Res {
    PerformAll(tx.x, tx.start, tx.done)
  }

  /** The emitter and the goroutines have followed the effects so far. */
  ghost predicate Followed(tx: Transaction, out: seq<Effect>, emitter: E.Emitter, sleepers: seq<Sleeper>) {
    && emitter == HandAll(tx.emitter, out, tx.x.env.now)
    && sleepers == tx.sleepers + Sleepers(tx.x.id, out)
  }

  lemma {:induction false} ResultSnoc(tx: Transaction, op: Op)
    ensures Result(tx.(done := tx.done + [op])) == Perform(tx.x, Result(tx), op)
  {
    D.PerformSnoc(tx.x, tx.start, tx.done, op);
  }

  lemma {:induction false} FollowsRaise(tx: Transaction, r: Res, e: EventType, emitter: E.Emitter,
                                        sleepers: seq<Sleeper>)
    requires Followed(tx, r.out, emitter, sleepers)
    ensures var due := tx.x.env.now + DEFER_DELAY;
            if Immediate(e, r.car) then
              Followed(tx, Emit(tx.x, r, e).out, E.Emitted(emitter, Engine.BuildPayload(tx.x, r.car, e), tx.x.env.now), sleepers)
            else
              Followed(tx, Emit(tx.x, r, e).out, emitter, sleepers + [Sleeper(tx.x.id, e, due)])
  {
    var due := tx.x.env.now + DEFER_DELAY;
    var second := if Immediate(e, r.car) then Handed(Engine.BuildPayload(tx.x, r.car, e)) else Deferred(e, due);
    HandPair(tx.emitter, r.out, Raised(e, r.car.geofence), second, tx.x.env.now, tx.x.id);
    var before := Sleepers(tx.x.id, r.out);
    assert before + [] == before;
    assert tx.sleepers + before + [Sleeper(tx.x.id, e, due)] == tx.sleepers + (before + [Sleeper(tx.x.id, e, due)]);
  }

  lemma {:induction false} FollowsSwitch(tx: Transaction, r: Res, op: Op, emitter: E.Emitter, sleepers: seq<Sleeper>)
    requires Followed(tx, r.out, emitter, sleepers) && !op.Raise? && !op.Flush?
    ensures Followed(tx, Perform(tx.x, r, op).out, emitter, sleepers)
  {
    HandsNothing(tx.emitter, r.out, SwitchOut(tx.x, r.car, op), tx.x.env.now, tx.x.id);
  }

  /** The emitter has followed a flush of some pending entries. */
  ghost predicate FollowedFlush(tx: Transaction, r: Res, ps: seq<Pending>, emitter: E.Emitter, sleepers: seq<Sleeper>) {
    Followed(tx, r.out + FlushOut(tx.x, r.car, ps), emitter, sleepers)
  }

  lemma {:induction false} FollowsFlushStart(tx: Transaction, r: Res, emitter: E.Emitter, sleepers: seq<Sleeper>)
    requires Followed(tx, r.out, emitter, sleepers)
    ensures FollowedFlush(tx, r, [], emitter, sleepers)
  {
    assert r.out + [] == r.out;
  }

  lemma {:induction false} FollowsFlushStep(tx: Transaction, r: Res, ps: seq<Pending>, k: nat, emitter: E.Emitter,
                                            sleepers: seq<Sleeper>)
    requires k < |ps| && FollowedFlush(tx, r, ps[..k], emitter, sleepers)
    ensures var c, e := r.car, ps[k].event;
            if Ready(e, c) then
              && FollowedFlush(tx, r, ps[..k + 1], E.Emitted(emitter, Engine.BuildPayload(tx.x, c, e), tx.x.env.now), sleepers)
              && StillPending(c, ps[..k + 1]) == StillPending(c, ps[..k])
            else
              && FollowedFlush(tx, r, ps[..k + 1], emitter, sleepers)
              && StillPending(c, ps[..k + 1]) == StillPending(c, ps[..k]) + [ps[k]]
  {
    var c, e := r.car, ps[k].event;
    var flushed := FlushOut(tx.x, c, ps[..k]);
    var handed := Handed(Engine.BuildPayload(tx.x, c, e));
    assert ps[..k + 1][..k] == ps[..k];
    assert r.out + (flushed + [handed]) == r.out + flushed + [handed];
    HandSnoc(tx.emitter, r.out + flushed, handed, tx.x.env.now, tx.x.id);
    assert Sleepers(tx.x.id, r.out + flushed) + [] == Sleepers(tx.x.id, r.out + flushed);
  }

  lemma {:induction false} StateOpsJoin(prev: string, next: string, done: seq<Op>, driven: seq<Op>, falling: seq<Op>,
                                        asleep: seq<Op>, all: seq<Op>)
    requires driven == done + (if next == DRIVING then [Raise(DriveStarted), StartDrive] else []) +
                              (if prev == DRIVING then [StopDrive, Raise(DriveEnded)] else [])
    requires falling == if next == SUSPENDED then driven + [Raise(VehicleFallingAsleep)] else driven
    requires asleep == if next == ASLEEP || next == OFFLINE then falling + [Raise(VehicleAsleep)] else falling
    requires all == if Sleeping(prev) && !Sleeping(next) then asleep + [Raise(VehicleWoke)] else asleep
    ensures all == done + StateOps(prev, next)
  {
  }

  lemma {:induction false} ChargingOpsJoin(prev: string, next: string, done: seq<Op>, started: seq<Op>,
                                           completed: seq<Op>, all: seq<Op>)
    requires started == if next == CHARGING then done + [Raise(ChargingStarted)] + [StartCharge] else done
    requires completed == if next == COMPLETE then started + [StopCharge] + [Raise(ChargingCompleted)] else started
    requires all == if prev == CHARGING && next != COMPLETE && next != CHARGING
                    then completed + [StopCharge] + [Raise(ChargingInterrupted)] else completed
    ensures all == done + ChargingOps(prev, next)
  {
  }

  /** A transaction has done what a message of the field calls for. */
  ghost predicate FollowsPlan(tx: Transaction, p: Params, f: T.Field, value: string, first: bool,
                              c: Car, e: E.Emitter, ss: seq<Sleeper>)
  {
    && tx.emitter == e && tx.sleepers == ss
    && tx.start == Res(Assign(p, c, f, value, first), []) && tx.done == Plan(tx.x, c, f, value, first)
  }

  lemma {:induction false} StatePlan(tx: Transaction, p: Params, value: string, first: bool, c: Car, e: E.Emitter,
                                     ss: seq<Sleeper>)
    requires tx.emitter == e && tx.sleepers == ss && tx.start == Res(c.(state := value), [])
    requires tx.done == if !first && c.state != value then [] + StateOps(c.state, value) else []
    ensures FollowsPlan(tx, p, T.State, value, first, c, e, ss)
  {
    assert [] + StateOps(c.state, value) == StateOps(c.state, value);
  }

  /** What a first charging_state calls for. */
  function FirstOps(x: Ctx, value: string): seq<Op> {
    match FirstChargingAction(value, Engine.SinceConnected(x.env))
    case FullStart => ChargingOps("", CHARGING)
    case TickerOnly => [StartCharge]
    case NoAction => []
  }

  lemma {:induction false} ChargingPlan(tx: Transaction, p: Params, value: string, first: bool, c: Car, e: E.Emitter,
                                        ss: seq<Sleeper>)
    requires tx.emitter == e && tx.sleepers == ss
    requires tx.start == Res(c.(chargingState := value), [])
    requires tx.done == if !first && c.chargingState != value then [] + ChargingOps(c.chargingState, value)
                        else if first then [] + FirstOps(tx.x, value) else []
    ensures FollowsPlan(tx, p, T.ChargingState, value, first, c, e, ss)
  {
    assert [] + ChargingOps(c.chargingState, value) == ChargingOps(c.chargingState, value);
    assert [] + FirstOps(tx.x, value) == FirstOps(tx.x, value);
  }

  lemma {:induction false} BatteryPlan(tx: Transaction, p: Params, value: string, first: bool, c: Car, e: E.Emitter,
                                       ss: seq<Sleeper>)
    requires tx.emitter == e && tx.sleepers == ss
    requires tx.x.p == p
    requires if Atoi(value).None? then tx.start == Res(c, []) && tx.done == []
             else if first then tx.start == Res(c.(batteryLevel := Atoi(value).value), []) && tx.done == [] + [Flush]
             else
               var a := BatteryThresholds(p, Atoi(value).value, c.lowFired, c.highFired);
               && tx.start == Res(c.(batteryLevel := Atoi(value).value, lowFired := a.low, highFired := a.high), [])
               && tx.done == RaiseAll(a.events) + [Flush]
    ensures FollowsPlan(tx, p, T.BatteryLevel, value, first, c, e, ss)
  {
    assert [] + [Flush] == [Flush];
  }

  lemma {:induction false} PluggedPlan(tx: Transaction, p: Params, value: string, first: bool, c: Car, e: E.Emitter,
                                       ss: seq<Sleeper>)
    requires tx.emitter == e && tx.sleepers == ss
    requires tx.start == Res(c.(pluggedIn := value == "true"), [])
    requires tx.done == if !first && c.pluggedIn != (value == "true")
                        then [] + [Raise(if value == "true" then ChargerConnected else ChargerDisconnected)] else []
    ensures FollowsPlan(tx, p, T.PluggedIn, value, first, c, e, ss)
  {
  }

  lemma {:induction false} UpdatePlan(tx: Transaction, p: Params, value: string, first: bool, c: Car, e: E.Emitter,
                                      ss: seq<Sleeper>)
    requires tx.emitter == e && tx.sleepers == ss
    requires tx.start == Res(c.(updateAvailable := value), [])
    requires tx.done == if !first && c.updateAvailable != "true" && value == "true" then [] + [Raise(SoftwareUpdate)] else []
    ensures FollowsPlan(tx, p, T.UpdateAvailable, value, first, c, e, ss)
  {
  }

  lemma {:induction false} GeofencePlan(tx: Transaction, p: Params, value: string, first: bool, c: Car, e: E.Emitter,
                                        ss: seq<Sleeper>)
    requires tx.emitter == e && tx.sleepers == ss
    requires tx.start == Res(c.(previousGeofence := c.geofence, geofence := value), [])
    requires tx.done == if first || c.geofence == value then []
                        else if c.geofence == "" then [] + [Raise(GeofenceEntered)]
                        else if value == "" then [] + [Raise(GeofenceExited)]
                        else [] + [Raise(GeofenceExited)] + [Raise(GeofenceEntered)]
    ensures FollowsPlan(tx, p, T.Geofence, value, first, c, e, ss)
  {
  }

  lemma {:induction false} CenterPlan(tx: Transaction, p: Params, value: string, first: bool, c: Car, e: E.Emitter,
                                      ss: seq<Sleeper>)
    requires tx.emitter == e && tx.sleepers == ss
    requires tx.start == Res(if Atoi(value).Some? then c.(centerDisplayState := Atoi(value).value) else c, [])
    requires tx.done == if Atoi(value).Some? && !first && c.centerDisplayState != 7 && Atoi(value).value == 7
                        then [] + [Raise(SentryRecording)] else []
    ensures FollowsPlan(tx, p, T.CenterDisplayState, value, first, c, e, ss)
  {
  }

  lemma {:induction false} NamePlan(tx: Transaction, p: Params, f: T.Field, value: string, first: bool, c: Car,
                                    e: E.Emitter, ss: seq<Sleeper>)
    requires tx.emitter == e && tx.sleepers == ss
    requires tx.done == [] + [Flush]
    requires match f
             case DisplayName => tx.start == Res(c.(displayName := value), [])
             case Model => tx.start == Res(c.(model := value), [])
             case UpdateVersion => tx.start == Res(c.(updateVersion := value), [])
             case _ => false
    ensures FollowsPlan(tx, p, f, value, first, c, e, ss)
  {
  }

  lemma {:induction false} MeasurementPlan(tx: Transaction, p: Params, f: T.Field, value: string, first: bool,
                                           c: Car, e: E.Emitter, ss: seq<Sleeper>)
    requires tx.emitter == e && tx.sleepers == ss
    requires Measures(f) && tx.start == Res(Assign(p, c, f, value, false), []) && tx.done == []
    ensures FollowsPlan(tx, p, f, value, first, c, e, ss)
  {
  }

  /** A world in which one car has had one more input, with the result r. */
  function Grown(w: World, id: string, r: Res, e: Event, file: C.File): World {
    w.(cars := w.cars[id := r.car],
       lives := w.lives[id := LifeOf(w, id) + [e]],
       sleepers := w.sleepers + Sleepers(id, r.out),
       emitter := HandAll(w.emitter, r.out, w.now),
       file := file)
  }

  /** The transition system goes from w to w' in the given step. */
  ghost predicate Steps(p: Params, w: World, step: Step, w': World) {
    forall a: Aspect {:trigger Look(a)} :: a == WORLD ==> w' == Take(p, w, step)
  }

  lemma {:induction false} StepsIsTake(p: Params, w: World, step: Step, w': World)
    ensures Steps(p, w, step, w') <==> w' == Take(p, w, step)
  {
    assert Look(WORLD);
  }

  lemma {:induction false} TakeMessage(p: Params, w: World, id: string, f: T.Field, value: string, w': World)
    requires var env := EnvOf(p, w);
             w' == Grown(w, id, Engine.HandleMessage(Ctx(p, env, id), CarOf(w, id), f, value), Event(env, Msg(f, value)),
                         NamesWritten(w.file, id, f, value))
    ensures Steps(p, w, Message(id, f, value), w')
  {
    StepsIsTake(p, w, Message(id, f, value), w');
  }

  lemma {:induction false} TakeUnknown(p: Params, w: World, id: string, name: string, value: string, w': World)
    requires var env := EnvOf(p, w);
             w' == if env.knobs.rawEnabled then
                     Grown(w, id, Res(Engine.RecordRaw(Ctx(p, env, id), CarOf(w, id), name, value), []),
                           Event(env, Unknown(name, value)), w.file)
                   else w
    ensures Steps(p, w, UnknownMessage(id, name, value), w')
  {
    StepsIsTake(p, w, UnknownMessage(id, name, value), w');
  }

  lemma {:induction false} TakeWake(p: Params, w: World, s: Sleeper, w': World)
    requires Awake(w, s)
    requires var env, w1 := EnvOf(p, w), w.(sleepers := Without(w.sleepers, s));
             w' == if s.carID in w.cars then
                     Grown(w1, s.carID, Timeout(Ctx(p, env, s.carID), CarOf(w, s.carID), s.event), Event(env, Wake(s.event)), w.file)
                   else w1
    ensures Steps(p, w, WakeUp(s), w')
  {
    StepsIsTake(p, w, WakeUp(s), w');
  }

  lemma {:induction false} TakeTick(p: Params, w: World, id: string, kind: Kind, w': World)
    requires id in w.cars
    requires var env := EnvOf(p, w);
             w' == Grown(w, id, Tick(Ctx(p, env, id), CarOf(w, id), kind), Event(env, Fire(kind)), w.file)
    ensures Steps(p, w, TickerFires(id, kind), w')
  {
    StepsIsTake(p, w, TickerFires(id, kind), w');
  }

  lemma {:induction false} TakeExpire(p: Params, w: World, id: string, e: EventType, key: string, n: nat, w': World)
    requires key == Key(id, e) && w' == w.(emitter := E.Expired(w.emitter, key, n, w.now))
    ensures Steps(p, w, Expire(id, e, n), w')
  {
    StepsIsTake(p, w, Expire(id, e, n), w');
  }

  lemma {:induction false} TakeCallback(p: Params, w: World, id: string, e: EventType, key: string, n: nat, w': World)
    requires key == Key(id, e) && w' == w.(emitter := E.CalledBack(w.emitter, key, n, w.now))
    ensures Steps(p, w, Callback(id, e, n), w')
  {
    StepsIsTake(p, w, Callback(id, e, n), w');
  }

  lemma {:induction false} WakesNoOne(x: Ctx, c: Car, e: EventType)
    ensures Sleepers(x.id, Timeout(x, c, e).out) == []
  {
    if Timeout(x, c, e).out != [] {
      var handed := Timeout(x, c, e).out[0];
      HandSingle(E.NO_TIMERS, Timeout(x, c, e).out, handed.payload, 0, x.id);
    }
  }

  /** The payload of the update among the effects of a tick. */
  function Sent(out: seq<Effect>): Option<EventPayload> {
    if |out| == 1 && out[0].Update? then Some(out[0].payload) else None
  }

  /** A goroutine whose recheck passes always finds its ticker. */
  lemma {:induction false} NoNilTicker(p: Params, w: World, id: string)
    requires LivesApart(p, w)
    ensures var c := CarOf(w, id);
            && (c.chargingState == CHARGING ==> c.charge.Some?)
            && (c.state == DRIVING && c.driveOpens > 0 ==> c.drive.Some?)
  {
    var c0 := Restored(C.CachedFor(w.origin, id));
    assert K.Fresh(c0);
    K.LifeCycle(p, id, c0, LifeOf(w, id));
  }

  /** What a proof may look into: a predicate stated for one of these says what it says for it, but is
      passed on whole wherever nobody asserts the corresponding Look. */
  datatype Aspect =
    | STEP // where the operations performed so far have led one car: Manager.InStep, Manager.Sound
    | TUNING // the clock, connection and configuration the input in progress met: Manager.Tuned
    | PLAN // that a handler performed what its field's message plans: Manager.Handled
    | OTHERS // the cars the input in progress does not concern: Manager.Others
    | WHOLE // the emitter and the records of all cars: Manager.Valid
    | DONE // what an input did to its car, the emitter and the goroutines: Manager.Happened
    | WORLD // one step of the transition system, and a run of them: Steps, Program.Notifier.InRun
    | NAMES // the table of known fields: Program.Notifier.KnowsFields

  ghost predicate Look(a: Aspect) {
    a.STEP? || a.TUNING? || a.PLAN? || a.OTHERS? || a.WHOLE? || a.DONE? || a.WORLD? || a.NAMES?
  }

  class Manager {
    const p: Params
    const emitter: Events.EventEmitter
    const cache: C.CarNameCache
    var cars: map<string, CarState>
    var connectedAt: Option<nat>
    var cfg: RemoteConfig.Store?
    /** The goroutines emit has started, and the input in progress. */
    ghost var sleepers: seq<Sleeper>
    ghost var tx: Transaction
    /** What each car has received, and what the cache held at the start. */
    ghost var lives: map<string, seq<Event>>
    ghost var origin: C.File
    /** Every car record ever made. */
    ghost var fleet: set<CarState>

    ghost predicate CarsValid()
      reads this`cars, this`fleet, fleet
    {
      && (forall id | id in cars :: cars[id] in fleet && cars[id].Valid())
      && (forall id, other | id in cars && other in cars && id != other :: cars[id] != cars[other])
    }

    ghost predicate Valid()
      reads this`cars, this`fleet, fleet, emitter, emitter.Repr
    {
      forall a: Aspect {:trigger Look(a)} :: a == WHOLE ==> emitter.Valid() && CarsValid()
    }

    ghost function Views(): map<string, Car>
      requires Valid()
      reads this`cars, this`fleet, fleet, emitter, emitter.Repr
    {
      assert Look(WHOLE);
      map id | id in cars :: cars[id].View()
    }

    /** The state of the transition system this manager is in. */
    ghost function Snapshot(now: nat): World
      requires Valid()
      reads this, fleet, emitter, emitter.Repr, cache, cfg
    {
      World(now, connectedAt, Config(), Views(), sleepers, emitter.model, cache.file, lives, origin)
    }

    /** As time passes, only the time changes. */
    lemma {:induction false} Later(now: nat, later: nat)
      requires Valid()
      ensures Snapshot(later) == Snapshot(now).(now := later)
    {
    }

    /** NewManager: restore the cached names. */
    constructor (emitter: Events.EventEmitter, cache: C.CarNameCache, p: Params)
      requires emitter.Valid() && emitter.model == E.NO_TIMERS
      ensures this.emitter == emitter && this.cache == cache && this.p == p && cfg == null
      ensures Valid() && fresh(fleet)
      ensures Snapshot(0) == Start(cache.file)
    {
      this.emitter, this.cache, this.p := emitter, cache, p;
      cars, connectedAt, cfg := map[], None, null;
      sleepers, lives, origin, fleet := [], map[], cache.file, {};
      new;
      var loaded := cache.Load();
      RestoreAll(loaded);
      assert Valid();
      assert Views() == Start(cache.file).cars;
    }

    method RestoreAll(loaded: map<string, C.CachedCar>)
      requires cars == map[] && fleet == {}
      modifies this`cars, this`fleet
      ensures CarsValid() && cars.Keys == loaded.Keys && fresh(fleet)
      ensures forall id | id in cars :: cars[id].View() == Restored(loaded[id])
    {
      var left := loaded.Keys;
      while left != {}
        invariant left <= loaded.Keys && cars.Keys == loaded.Keys - left
        invariant CarsValid() && fresh(fleet)
        invariant forall id | id in cars :: cars[id].View() == Restored(loaded[id])
      {
        var id :| id in left;
        RestoreCar(id, loaded[id]);
        left := left - {id};
      }
    }

    method RestoreCar(id: string, cc: C.CachedCar)
      requires CarsValid() && id !in cars
      modifies this`cars, this`fleet
      ensures CarsValid() && id in cars && cars == old(cars)[id := cars[id]] && fresh(fleet - old(fleet))
      ensures cars[id].View() == Restored(cc)
    {
      var car := GetOrCreate(id);
      car.Restore(cc.displayName, cc.model);
    }

    method GetOrCreate(id: string) returns (car: CarState)
      requires CarsValid()
      modifies this`cars, this`fleet
      ensures CarsValid() && id in cars && car == cars[id] && fresh(fleet - old(fleet))
      ensures car.View() == if id in old(cars) then old(cars[id].View()) else NEW_CAR
      ensures cars == old(cars)[id := car]
      ensures id !in old(cars) ==> fresh(car)
    {
      if id !in cars {
        car := new CarState();
        cars := cars[id := car];
        fleet := fleet + {car};
      } else {
        car := cars[id];
      }
    }

    // ----- The configuration -----

    ghost function Config(): RemoteConfig.StoreState
      reads this`cfg, cfg
    {
      if cfg == null then RemoteConfig.EMPTY else RemoteConfig.StoreState(cfg.version, cfg.values, {}, [])
    }

    ghost function KnobsNow(): Knobs
      reads this`cfg, cfg
    {
      KnobsOf(Some(Config().values), p.parseFloat)
    }

    method DrivingInterval(car: CarState) returns (d: int)
      modifies cfg
      ensures Config() == old(Config())
      ensures d == Period(KnobsNow().drive, car.speed as real)
    {
      var slow, fast, above := DRIVE_DEFAULT.slow, DRIVE_DEFAULT.fast, DRIVE_DEFAULT.above;
      if cfg != null {
        slow := cfg.Duration(KEY_DRIVE_TICK, slow, RemoteConfig.MIN_TICK, RemoteConfig.MAX_TICK);
        fast := cfg.Duration(KEY_DRIVE_TICK_FAST, fast, RemoteConfig.MIN_TICK, RemoteConfig.MAX_TICK);
        above := cfg.Float(KEY_DRIVE_FAST_ABOVE, above, 0.0, 400.0, p.parseFloat);
      }
      if car.speed as real > above {
        return fast;
      }
      return slow;
    }

    method ChargingInterval(car: CarState) returns (d: int)
      modifies cfg
      ensures Config() == old(Config())
      ensures d == Period(KnobsNow().charge, car.chargerPower)
    {
      var slow, fast, above := CHARGE_DEFAULT.slow, CHARGE_DEFAULT.fast, CHARGE_DEFAULT.above;
      if cfg != null {
        slow := cfg.Duration(KEY_CHARGE_TICK, slow, RemoteConfig.MIN_TICK, RemoteConfig.MAX_TICK);
        fast := cfg.Duration(KEY_CHARGE_TICK_FAST, fast, RemoteConfig.MIN_TICK, RemoteConfig.MAX_TICK);
        above := cfg.Float(KEY_CHARGE_FAST_ABOVE, above, 0.0, 400.0, p.parseFloat);
      }
      if car.chargerPower > above {
        return fast;
      }
      return slow;
    }

    method RawEnabled() returns (enabled: bool)
      modifies cfg
      ensures Config() == old(Config())
      ensures enabled == KnobsNow().rawEnabled
    {
      if cfg == null {
        return false;
      }
      enabled := cfg.Bool(KEY_RAW_FIELDS, false);
    }

    // ----- Names and payloads -----

    function IsEnriched(car: CarState): (enriched: bool)
      reads car
      ensures enriched == Enriched(car.View())
    {
      (car.displayName != "" || car.model != "") && T.BatteryLevel in car.initialized
    }

    function IsReadyFor(e: EventType, car: CarState): (ready: bool)
      reads car
      ensures ready == Ready(e, car.View())
    {
      IsEnriched(car) && (e == SoftwareUpdate ==> car.updateVersion != "")
    }

    method BuildPayload(id: string, e: EventType, car: CarState, now: nat, ghost x: Ctx) returns (payload: EventPayload)
      requires x.id == id && x.env.now == now
      ensures payload == Engine.BuildPayload(x, car.View(), e)
    {
      var carName := DisplayNameForCar(id, car.displayName, car.model);
      var distance, duration := 0.0, 0;
      if car.driveStartTime.Some? {
        duration := now - car.driveStartTime.value;
        if car.driveStartOdometer > 0.0 && car.odometer > car.driveStartOdometer {
          distance := car.odometer - car.driveStartOdometer;
        }
      }
      var raw := car.RawSnapshot();
      payload := EventPayload(e, id, carName, now,
        EventData(car.batteryLevel, car.chargerPower, car.geofence, car.previousGeofence, car.state, car.chargingState,
                  car.pluggedIn, car.updateVersion, car.speed, Reported(car.telemetry), distance, duration, raw));
    }

    // ----- An input in progress -----

    ghost function Now(id: string, now: nat): Ctx
      reads this`cfg, this`connectedAt, cfg
    {
      Ctx(p, Env(now, connectedAt, KnobsNow()), id)
    }

    /** The car, the emitter and the goroutines are where the operations performed so far lead.
        Callers pass this on without looking inside: it unfolds where Look(STEP) is asserted. */
    ghost predicate InStep(id: string, car: CarState, now: nat)
      reads this`tx, this`sleepers, car, emitter, emitter.Repr
    {
      && tx.x.id == id && tx.x.env.now == now
      && forall a: Aspect {:trigger Look(a)} :: a == STEP ==>
           && car.Valid() && emitter.Valid()
           && car.View() == Result(tx).car && Followed(tx, Result(tx).out, emitter.model, sleepers)
    }

    /** The input in progress is met by this clock, connection and configuration. */
    ghost predicate Tuned(x: Ctx, id: string, now: nat)
      reads this`cfg, this`connectedAt, cfg
    {
      forall a: Aspect {:trigger Look(a)} :: a == TUNING ==> x == Now(id, now)
    }

    lemma {:induction false} Inside(id: string, car: CarState, now: nat)
      requires InStep(id, car, now)
      ensures car.Valid() && emitter.Valid()
      ensures car.View() == Result(tx).car && Followed(tx, Result(tx).out, emitter.model, sleepers)
    {
      assert Look(STEP);
    }

    ghost method Did(id: string, car: CarState, now: nat, op: Op)
      requires tx.x.id == id && tx.x.env.now == now && car.Valid() && emitter.Valid()
      requires car.View() == Perform(tx.x, Result(tx), op).car
      requires Followed(tx, Perform(tx.x, Result(tx), op).out, emitter.model, sleepers)
      modifies this`tx
      ensures InStep(id, car, now) && tx == old(tx).(done := old(tx).done + [op])
    {
      ghost var next := tx.(done := tx.done + [op]);
      ResultSnoc(tx, op);
      assert Followed(next, Result(next).out, emitter.model, sleepers);
      tx := next;
    }

    method Emit(id: string, e: EventType, car: CarState, now: nat)
      requires InStep(id, car, now)
      modifies this`sleepers, this`tx, car`pendingEvents, car`pending, emitter, emitter.Repr
      ensures InStep(id, car, now)
      ensures tx == old(tx).(done := old(tx).done + [Raise(e)])
      ensures fresh(emitter.Repr - old(emitter.Repr))
    {
      if e != LiveActivityUpdate && !IsReadyFor(e, car) {
        Defer(id, e, car, now);
      } else {
        Hand(id, e, car, now);
      }
    }

    /** Keep the event on the car's list, with a goroutine that looks after it in 30 seconds. */
    method Defer(id: string, e: EventType, car: CarState, now: nat)
      requires InStep(id, car, now) && !Immediate(e, car.View())
      modifies this`sleepers, this`tx, car`pendingEvents, car`pending
      ensures InStep(id, car, now) && tx == old(tx).(done := old(tx).done + [Raise(e)])
    {
      Inside(id, car, now);
      FollowsRaise(tx, Result(tx), e, emitter.model, sleepers);
      car.AddPending(e, now + DEFER_DELAY);
      sleepers := sleepers + [Sleeper(id, e, now + DEFER_DELAY)];
      Did(id, car, now, Raise(e));
    }

    method Hand(id: string, e: EventType, car: CarState, now: nat)
      requires InStep(id, car, now) && Immediate(e, car.View())
      modifies this`tx, emitter, emitter.Repr
      ensures InStep(id, car, now) && tx == old(tx).(done := old(tx).done + [Raise(e)])
      ensures fresh(emitter.Repr - old(emitter.Repr))
    {
      Inside(id, car, now);
      FollowsRaise(tx, Result(tx), e, emitter.model, sleepers);
      var payload := BuildPayload(id, e, car, now, tx.x);
      emitter.Emit(payload, now);
      Did(id, car, now, Raise(e));
    }

    // ----- Flushing -----

    method FlushPendingIfEnriched(id: string, car: CarState, now: nat)
      requires InStep(id, car, now)
      modifies this`tx, car`pendingEvents, car`pending, emitter, emitter.Repr
      ensures InStep(id, car, now)
      ensures tx == old(tx).(done := old(tx).done + [Flush])
      ensures fresh(emitter.Repr - old(emitter.Repr))
    {
      Inside(id, car, now);
      FollowsFlushStart(tx, Result(tx), emitter.model, sleepers);
      var stillPending, kept := HandReady(id, car, now, Result(tx));
      Keep(id, car, now, stillPending, kept);
    }

    method Keep(id: string, car: CarState, now: nat, stillPending: seq<EventType>, ghost kept: seq<Pending>)
      requires tx.x.id == id && tx.x.env.now == now && car.Valid() && emitter.Valid() && car.View() == Result(tx).car
      requires FollowedFlush(tx, Result(tx), Result(tx).car.pending, emitter.model, sleepers)
      requires kept == StillPending(Result(tx).car, Result(tx).car.pending)
      requires |stillPending| == |kept| && forall i | 0 <= i < |kept| :: stillPending[i] == kept[i].event
      modifies this`tx, car`pendingEvents, car`pending
      ensures InStep(id, car, now) && tx == old(tx).(done := old(tx).done + [Flush])
    {
      car.KeepPending(stillPending, kept);
      Did(id, car, now, Flush);
    }

    /** Hand over the pending events that are ready, and return the others. */
    method HandReady(id: string, car: CarState, now: nat, ghost r: Res)
      returns (stillPending: seq<EventType>, ghost kept: seq<Pending>)
      requires tx.x.id == id && tx.x.env.now == now && car.Valid() && emitter.Valid()
      requires car.View() == r.car && FollowedFlush(tx, r, [], emitter.model, sleepers)
      modifies emitter, emitter.Repr
      ensures emitter.Valid() && fresh(emitter.Repr - old(emitter.Repr))
      ensures FollowedFlush(tx, r, r.car.pending, emitter.model, sleepers)
      ensures kept == StillPending(r.car, r.car.pending)
      ensures |stillPending| == |kept| && forall i | 0 <= i < |kept| :: stillPending[i] == kept[i].event
    {
      ghost var ps := car.pending;
      stillPending, kept := [], [];
      for k := 0 to |car.pendingEvents|
        invariant emitter.Valid() && fresh(emitter.Repr - old(emitter.Repr))
        invariant FollowedFlush(tx, r, ps[..k], emitter.model, sleepers)
        invariant kept == StillPending(r.car, ps[..k])
        invariant |stillPending| == |kept| && forall i | 0 <= i < |kept| :: stillPending[i] == kept[i].event
      {
        var e := car.pendingEvents[k];
        var flushed := FlushOne(id, e, car, now, r, ps, k);
        if !flushed {
          stillPending := stillPending + [e];
          kept := kept + [ps[k]];
        }
      }
      assert ps[..|ps|] == ps;
    }

    method FlushOne(id: string, e: EventType, car: CarState, now: nat, ghost r: Res, ghost ps: seq<Pending>,
                    ghost k: nat)
      returns (flushed: bool)
      requires tx.x.id == id && tx.x.env.now == now && emitter.Valid()
      requires car.View() == r.car && k < |ps| && ps[k].event == e
      requires FollowedFlush(tx, r, ps[..k], emitter.model, sleepers)
      modifies emitter, emitter.Repr
      ensures emitter.Valid() && fresh(emitter.Repr - old(emitter.Repr))
      ensures FollowedFlush(tx, r, ps[..k + 1], emitter.model, sleepers)
      ensures StillPending(r.car, ps[..k + 1]) == StillPending(r.car, ps[..k]) + (if flushed then [] else [ps[k]])
    {
      FollowsFlushStep(tx, r, ps, k, emitter.model, sleepers);
      flushed := IsReadyFor(e, car);
      assert StillPending(r.car, ps[..k]) + [] == StillPending(r.car, ps[..k]);
      if flushed {
        var payload := BuildPayload(id, e, car, now, tx.x);
        emitter.Emit(payload, now);
      }
    }

    // ----- Live Activity tickers -----

    method StartLiveActivity(id: string, car: CarState, now: nat)
      requires InStep(id, car, now) && Tuned(tx.x, id, now)
      modifies this`tx, cfg
      modifies car`liveActivityTicker, car`liveActivityStop, car`chargeOpens, car`chargeCloses
      ensures InStep(id, car, now) && Tuned(tx.x, id, now) && Config() == old(Config())
      ensures tx == old(tx).(done := old(tx).done + [StartCharge])
    {
      Inside(id, car, now);
      assert Look(TUNING);
      car.StopLiveActivity();
      var interval := ChargingInterval(car);
      car.OpenLiveActivity(interval, now);
      StartedCharge(id, car, now, interval);
    }

    ghost method StartedCharge(id: string, car: CarState, now: nat, interval: int)
      requires tx.x.id == id && tx.x.env.now == now && car.Valid() && emitter.Valid()
      requires Followed(tx, Result(tx).out, emitter.model, sleepers)
      requires var c := Result(tx).car;
               && interval == Engine.ChargingInterval(tx.x, c)
               && car.View() == c.(charge := Some(Ticker(c.chargeOpens, interval, now + interval)), chargeOpens := c.chargeOpens + 1)
      modifies this`tx
      ensures InStep(id, car, now) && tx == old(tx).(done := old(tx).done + [StartCharge])
    {
      FollowsSwitch(tx, Result(tx), StartCharge, emitter.model, sleepers);
      Did(id, car, now, StartCharge);
    }

    method StartDrivingLiveActivity(id: string, car: CarState, now: nat)
      requires InStep(id, car, now) && Tuned(tx.x, id, now)
      modifies this`tx, cfg
      modifies car`drivingTicker, car`drivingStop, car`driveOpens, car`driveCloses, car`driveStartTime, car`driveStartOdometer
      ensures InStep(id, car, now) && Tuned(tx.x, id, now) && Config() == old(Config())
      ensures tx == old(tx).(done := old(tx).done + [StartDrive])
    {
      Inside(id, car, now);
      assert Look(TUNING);
      car.RestartTiming(now);
      var interval := DrivingInterval(car);
      car.OpenDrivingLiveActivity(interval, now);
      StartedDrive(id, car, now, interval);
    }

    ghost method StartedDrive(id: string, car: CarState, now: nat, interval: int)
      requires tx.x.id == id && tx.x.env.now == now && car.Valid() && emitter.Valid()
      requires Followed(tx, Result(tx).out, emitter.model, sleepers)
      requires var c := Result(tx).car;
               && interval == Engine.DrivingInterval(tx.x, c)
               && car.View() == c.(drive := Some(Ticker(c.driveOpens, interval, now + interval)), driveOpens := c.driveOpens + 1,
                                   driveStart := Some(now), driveStartOdometer := c.odometer)
      modifies this`tx
      ensures InStep(id, car, now) && tx == old(tx).(done := old(tx).done + [StartDrive])
    {
      FollowsSwitch(tx, Result(tx), StartDrive, emitter.model, sleepers);
      Did(id, car, now, StartDrive);
    }

    /** stopLiveActivity, as an operation of its own. */
    method EndLiveActivity(id: string, car: CarState, now: nat)
      requires InStep(id, car, now)
      modifies this`tx, car`liveActivityTicker, car`liveActivityStop, car`chargeCloses
      ensures InStep(id, car, now)
      ensures tx == old(tx).(done := old(tx).done + [StopCharge])
    {
      Inside(id, car, now);
      FollowsSwitch(tx, Result(tx), StopCharge, emitter.model, sleepers);
      car.StopLiveActivity();
      Did(id, car, now, StopCharge);
    }

    method EndDrivingLiveActivity(id: string, car: CarState, now: nat)
      requires InStep(id, car, now)
      modifies this`tx, car`drivingTicker, car`drivingStop, car`driveCloses, car`driveStartTime, car`driveStartOdometer
      ensures InStep(id, car, now)
      ensures tx == old(tx).(done := old(tx).done + [StopDrive])
    {
      Inside(id, car, now);
      FollowsSwitch(tx, Result(tx), StopDrive, emitter.model, sleepers);
      car.StopDrivingLiveActivity();
      Did(id, car, now, StopDrive);
    }

    // ----- Transitions -----

    /** Everything an operation needs, and keeps. */
    ghost predicate Running(id: string, car: CarState, now: nat)
      reads this`tx, this`sleepers, this`cfg, this`connectedAt, cfg, car, emitter, emitter.Repr
    {
      InStep(id, car, now) && Tuned(tx.x, id, now)
    }

    method HandleStateTransition(id: string, car: CarState, prev: string, next: string, now: nat)
      requires Running(id, car, now)
      modifies this`tx, this`sleepers, car, cfg, emitter, emitter.Repr
      ensures Running(id, car, now) && fresh(emitter.Repr - old(emitter.Repr)) && Config() == old(Config())
      ensures tx == old(tx).(done := old(tx).done + StateOps(prev, next))
    {
      ghost var done := tx.done;
      DrivingTransition(id, car, prev, next, now);
      ghost var driven := tx.done;
      if next == SUSPENDED {
        Emit(id, VehicleFallingAsleep, car, now);
      }
      ghost var falling := tx.done;
      if next == ASLEEP || next == OFFLINE {
        Emit(id, VehicleAsleep, car, now);
      }
      ghost var asleep := tx.done;
      if Sleeping(prev) && !Sleeping(next) {
        Emit(id, VehicleWoke, car, now);
      }
      StateOpsJoin(prev, next, done, driven, falling, asleep, tx.done);
    }

    method DrivingTransition(id: string, car: CarState, prev: string, next: string, now: nat)
      requires Running(id, car, now)
      modifies this`tx, this`sleepers, car, cfg, emitter, emitter.Repr
      ensures Running(id, car, now) && fresh(emitter.Repr - old(emitter.Repr)) && Config() == old(Config())
      ensures tx == old(tx).(done := old(tx).done + (if next == DRIVING then [Raise(DriveStarted), StartDrive] else []) +
                                                    (if prev == DRIVING then [StopDrive, Raise(DriveEnded)] else []))
    {
      ghost var done := tx.done;
      if next == DRIVING {
        Emit(id, DriveStarted, car, now);
        StartDrivingLiveActivity(id, car, now);
        assert done + [Raise(DriveStarted)] + [StartDrive] == done + [Raise(DriveStarted), StartDrive];
      } else {
        assert done + [] == done;
      }
      ghost var started := tx.done;
      if prev == DRIVING {
        EndDrivingLiveActivity(id, car, now);
        Emit(id, DriveEnded, car, now);
        assert started + [StopDrive] + [Raise(DriveEnded)] == started + [StopDrive, Raise(DriveEnded)];
      } else {
        assert started + [] == started;
      }
    }

    method HandleChargingStateTransition(id: string, car: CarState, prev: string, next: string, now: nat)
      requires Running(id, car, now)
      modifies this`tx, this`sleepers, car, cfg, emitter, emitter.Repr
      ensures Running(id, car, now) && fresh(emitter.Repr - old(emitter.Repr)) && Config() == old(Config())
      ensures tx == old(tx).(done := old(tx).done + ChargingOps(prev, next))
    {
      ghost var done := tx.done;
      if next == CHARGING {
        Emit(id, ChargingStarted, car, now);
        StartLiveActivity(id, car, now);
      }
      ghost var started := tx.done;
      if next == COMPLETE {
        EndLiveActivity(id, car, now);
        Emit(id, ChargingCompleted, car, now);
      }
      ghost var completed := tx.done;
      if prev == CHARGING && next != COMPLETE && next != CHARGING {
        EndLiveActivity(id, car, now);
        Emit(id, ChargingInterrupted, car, now);
      }
      ChargingOpsJoin(prev, next, done, started, completed, tx.done);
    }

    method SinceConnected(now: nat) returns (d: int)
      ensures d == Engine.SinceConnected(Env(now, connectedAt, KnobsNow()))
    {
      if connectedAt.None? {
        return 3600 * SECOND;
      }
      return now - connectedAt.value;
    }

    method CheckBatteryThresholds(id: string, car: CarState, events: seq<EventType>, now: nat)
      requires Running(id, car, now)
      modifies this`tx, this`sleepers, car, emitter, emitter.Repr
      ensures Running(id, car, now) && fresh(emitter.Repr - old(emitter.Repr))
      ensures tx == old(tx).(done := old(tx).done + RaiseAll(events))
    {
      ghost var before := tx;
      assert before.done + [] == before.done;
      for k := 0 to |events|
        invariant Running(id, car, now) && fresh(emitter.Repr - old(emitter.Repr))
        invariant tx == before.(done := before.done + RaiseAll(events[..k]))
      {
        assert events[..k + 1][..k] == events[..k];
        assert before.done + (RaiseAll(events[..k]) + [Raise(events[k])]) == before.done + RaiseAll(events[..k]) + [Raise(events[k])];
        Emit(id, events[k], car, now);
      }
      assert events[..|events|] == events;
    }

    // ----- One message -----

    ghost predicate Sound(car: CarState)
      reads car`pendingEvents, car`pending, car`liveActivityTicker, car`liveActivityStop, car`drivingTicker, car`drivingStop
      reads car`chargeOpens, car`chargeCloses, car`driveOpens, car`driveCloses, emitter, emitter.Repr
    {
      forall a: Aspect {:trigger Look(a)} :: a == STEP ==> car.Valid() && emitter.Valid()
    }

    /** The fields are assigned; the operations come next. */
    ghost method Begin(id: string, car: CarState, now: nat)
      requires Sound(car)
      modifies this`tx
      ensures Running(id, car, now)
      ensures tx.emitter == emitter.model && tx.sleepers == sleepers && tx.start == Res(car.View(), []) && tx.done == []
      ensures tx.x.p == p && tx.x.env.now == now && tx.x.env.connectedAt == connectedAt
    {
      assert Look(STEP);
      assert sleepers + [] == sleepers;
      tx := Transaction(Now(id, now), emitter.model, sleepers, Res(car.View(), []), []);
      assert Result(tx) == tx.start;
      assert Followed(tx, [], emitter.model, sleepers);
      assert InStep(id, car, now);
      assert Tuned(tx.x, id, now);
    }

    /** A message of the field has been handled as far as the car that got it is concerned: c is the
        car before, and the other two arguments are the emitter and the goroutines before. */
    ghost predicate Handled(id: string, car: CarState, now: nat, f: T.Field, value: string, first: bool,
                            c: Car, e: E.Emitter, ss: seq<Sleeper>)
      reads this`tx, this`sleepers, this`cfg, this`connectedAt, cfg, car, emitter, emitter.Repr
    {
      && Running(id, car, now)
      && forall a: Aspect {:trigger Look(a)} :: a == PLAN ==> FollowsPlan(tx, p, f, value, first, c, e, ss)
    }

    method OnState(id: string, car: CarState, value: string, first: bool, now: nat)
      requires Sound(car)
      modifies this`tx, this`sleepers, car, cfg, emitter, emitter.Repr
      ensures Handled(id, car, now, T.State, value, first, old(car.View()), old(emitter.model), old(sleepers))
      ensures fresh(emitter.Repr - old(emitter.Repr)) && Config() == old(Config())
    {
      ghost var c, e, ss := car.View(), emitter.model, sleepers;
      var prev := car.state;
      car.SetState(value);
      Begin(id, car, now);
      if !first && prev != value {
        HandleStateTransition(id, car, prev, value, now);
      }
      StatePlan(tx, p, value, first, c, e, ss);
    }

    method OnChargingState(id: string, car: CarState, value: string, first: bool, now: nat)
      requires Sound(car)
      modifies this`tx, this`sleepers, car, cfg, emitter, emitter.Repr
      ensures Handled(id, car, now, T.ChargingState, value, first, old(car.View()), old(emitter.model), old(sleepers))
      ensures fresh(emitter.Repr - old(emitter.Repr)) && Config() == old(Config())
    {
      ghost var c, e, ss := car.View(), emitter.model, sleepers;
      var prev := car.chargingState;
      car.SetChargingState(value);
      Begin(id, car, now);
      if !first && prev != value {
        HandleChargingStateTransition(id, car, prev, value, now);
      } else if first {
        OnFirstChargingState(id, car, value, now);
      }
      ChargingPlan(tx, p, value, first, c, e, ss);
    }

    method OnFirstChargingState(id: string, car: CarState, value: string, now: nat)
      requires Running(id, car, now) && tx.x.env.now == now && tx.x.env.connectedAt == connectedAt
      modifies this`tx, this`sleepers, car, cfg, emitter, emitter.Repr
      ensures Running(id, car, now) && fresh(emitter.Repr - old(emitter.Repr)) && Config() == old(Config())
      ensures tx == old(tx).(done := old(tx).done + FirstOps(old(tx).x, value))
    {
      var since := SinceConnected(now);
      match FirstChargingAction(value, since)
      case FullStart => HandleChargingStateTransition(id, car, "", CHARGING, now);
      case TickerOnly => StartLiveActivity(id, car, now);
      case NoAction => assert tx.done + [] == tx.done;
    }

    method OnBatteryLevel(id: string, car: CarState, value: string, first: bool, now: nat)
      requires Sound(car)
      modifies this`tx, this`sleepers, car, cfg, emitter, emitter.Repr
      ensures Handled(id, car, now, T.BatteryLevel, value, first, old(car.View()), old(emitter.model), old(sleepers))
      ensures fresh(emitter.Repr - old(emitter.Repr)) && Config() == old(Config())
    {
      ghost var c, e, ss := car.View(), emitter.model, sleepers;
      var level := Atoi(value);
      if level.None? {
        Begin(id, car, now);
      } else {
        car.SetBatteryLevel(level.value);
        OnParsedLevel(id, car, first, now);
        FlushPendingIfEnriched(id, car, now);
      }
      BatteryPlan(tx, p, value, first, c, e, ss);
    }

    method OnParsedLevel(id: string, car: CarState, first: bool, now: nat)
      requires Sound(car)
      modifies this`tx, this`sleepers, car, emitter, emitter.Repr
      ensures Running(id, car, now) && fresh(emitter.Repr - old(emitter.Repr))
      ensures tx.x.p == p && tx.emitter == old(emitter.model) && tx.sleepers == old(sleepers)
      ensures var c := old(car.View());
              var a := BatteryThresholds(p, c.batteryLevel, c.lowFired, c.highFired);
              if first then tx.start == Res(c, []) && tx.done == []
              else tx.start == Res(c.(lowFired := a.low, highFired := a.high), []) && tx.done == RaiseAll(a.events)
    {
      if first {
        Begin(id, car, now);
      } else {
        OnCheckedLevel(id, car, now);
      }
    }

    method OnCheckedLevel(id: string, car: CarState, now: nat)
      requires Sound(car)
      modifies this`tx, this`sleepers, car, emitter, emitter.Repr
      ensures Running(id, car, now) && fresh(emitter.Repr - old(emitter.Repr))
      ensures var c := old(car.View());
              var a := BatteryThresholds(p, c.batteryLevel, c.lowFired, c.highFired);
              && tx.x.p == p && tx.emitter == old(emitter.model) && tx.sleepers == old(sleepers)
              && tx.start == Res(c.(lowFired := a.low, highFired := a.high), []) && tx.done == RaiseAll(a.events)
    {
      var events := car.BatteryThresholdEvents(p);
      Begin(id, car, now);
      CheckBatteryThresholds(id, car, events, now);
      assert [] + RaiseAll(events) == RaiseAll(events);
    }

    method OnPluggedIn(id: string, car: CarState, value: string, first: bool, now: nat)
      requires Sound(car)
      modifies this`tx, this`sleepers, car, cfg, emitter, emitter.Repr
      ensures Handled(id, car, now, T.PluggedIn, value, first, old(car.View()), old(emitter.model), old(sleepers))
      ensures fresh(emitter.Repr - old(emitter.Repr)) && Config() == old(Config())
    {
      ghost var c, e, ss := car.View(), emitter.model, sleepers;
      var prev := car.pluggedIn;
      car.SetPluggedIn(value == "true");
      Begin(id, car, now);
      if !first && prev != car.pluggedIn {
        if car.pluggedIn {
          Emit(id, ChargerConnected, car, now);
        } else {
          Emit(id, ChargerDisconnected, car, now);
        }
      }
      PluggedPlan(tx, p, value, first, c, e, ss);
    }

    method OnUpdateAvailable(id: string, car: CarState, value: string, first: bool, now: nat)
      requires Sound(car)
      modifies this`tx, this`sleepers, car, cfg, emitter, emitter.Repr
      ensures Handled(id, car, now, T.UpdateAvailable, value, first, old(car.View()), old(emitter.model), old(sleepers))
      ensures fresh(emitter.Repr - old(emitter.Repr)) && Config() == old(Config())
    {
      ghost var c, e, ss := car.View(), emitter.model, sleepers;
      var prev := car.updateAvailable;
      car.SetUpdateAvailable(value);
      Begin(id, car, now);
      if !first && prev != "true" && value == "true" {
        Emit(id, SoftwareUpdate, car, now);
      }
      UpdatePlan(tx, p, value, first, c, e, ss);
    }

    method OnGeofence(id: string, car: CarState, value: string, first: bool, now: nat)
      requires Sound(car)
      modifies this`tx, this`sleepers, car, cfg, emitter, emitter.Repr
      ensures Handled(id, car, now, T.Geofence, value, first, old(car.View()), old(emitter.model), old(sleepers))
      ensures fresh(emitter.Repr - old(emitter.Repr)) && Config() == old(Config())
    {
      ghost var c, e, ss := car.View(), emitter.model, sleepers;
      var prev := car.geofence;
      car.MoveTo(value);
      Begin(id, car, now);
      if !first && prev != value {
        if prev == "" && value != "" {
          Emit(id, GeofenceEntered, car, now);
        } else if prev != "" && (value == "" || value != prev) {
          Emit(id, GeofenceExited, car, now);
          if value != "" {
            Emit(id, GeofenceEntered, car, now);
          }
        }
      }
      GeofencePlan(tx, p, value, first, c, e, ss);
    }

    method OnCenterDisplayState(id: string, car: CarState, value: string, first: bool, now: nat)
      requires Sound(car)
      modifies this`tx, this`sleepers, car, cfg, emitter, emitter.Repr
      ensures Handled(id, car, now, T.CenterDisplayState, value, first, old(car.View()), old(emitter.model), old(sleepers))
      ensures fresh(emitter.Repr - old(emitter.Repr)) && Config() == old(Config())
    {
      ghost var c, e, ss := car.View(), emitter.model, sleepers;
      var s := Atoi(value);
      if s.None? {
        Begin(id, car, now);
      } else {
        var prev := car.centerDisplayState;
        car.SetCenterDisplayState(s.value);
        Begin(id, car, now);
        if !first && prev != 7 && s.value == 7 {
          Emit(id, SentryRecording, car, now);
        }
      }
      CenterPlan(tx, p, value, first, c, e, ss);
    }

    method OnDisplayName(id: string, car: CarState, value: string, first: bool, now: nat)
      requires Sound(car)
      modifies this`tx, this`sleepers, car, cfg, emitter, emitter.Repr, cache
      ensures Handled(id, car, now, T.DisplayName, value, first, old(car.View()), old(emitter.model), old(sleepers))
      ensures fresh(emitter.Repr - old(emitter.Repr)) && Config() == old(Config())
      ensures cache.file == C.Rewritten(old(cache.file), id, C.SetDisplayName(value))
    {
      ghost var c, e, ss := car.View(), emitter.model, sleepers;
      car.SetDisplayName(value);
      Begin(id, car, now);
      cache.CacheCar(id, C.SetDisplayName(value));
      FlushPendingIfEnriched(id, car, now);
      NamePlan(tx, p, T.DisplayName, value, first, c, e, ss);
    }

    method OnModel(id: string, car: CarState, value: string, first: bool, now: nat)
      requires Sound(car)
      modifies this`tx, this`sleepers, car, cfg, emitter, emitter.Repr, cache
      ensures Handled(id, car, now, T.Model, value, first, old(car.View()), old(emitter.model), old(sleepers))
      ensures fresh(emitter.Repr - old(emitter.Repr)) && Config() == old(Config())
      ensures cache.file == C.Rewritten(old(cache.file), id, C.SetModel(value))
    {
      ghost var c, e, ss := car.View(), emitter.model, sleepers;
      car.SetModel(value);
      Begin(id, car, now);
      cache.CacheCar(id, C.SetModel(value));
      FlushPendingIfEnriched(id, car, now);
      NamePlan(tx, p, T.Model, value, first, c, e, ss);
    }

    method OnUpdateVersion(id: string, car: CarState, value: string, first: bool, now: nat)
      requires Sound(car)
      modifies this`tx, this`sleepers, car, cfg, emitter, emitter.Repr
      ensures Handled(id, car, now, T.UpdateVersion, value, first, old(car.View()), old(emitter.model), old(sleepers))
      ensures fresh(emitter.Repr - old(emitter.Repr)) && Config() == old(Config())
    {
      ghost var c, e, ss := car.View(), emitter.model, sleepers;
      car.SetUpdateVersion(value);
      Begin(id, car, now);
      FlushPendingIfEnriched(id, car, now);
      NamePlan(tx, p, T.UpdateVersion, value, first, c, e, ss);
    }

    /** The enrichment fields: they update state only. */
    method OnMeasurement(id: string, car: CarState, f: T.Field, value: string, first: bool, now: nat)
      requires Measures(f)
      requires Sound(car)
      modifies this`tx, this`sleepers, car, cfg, emitter, emitter.Repr
      ensures Handled(id, car, now, f, value, first, old(car.View()), old(emitter.model), old(sleepers))
      ensures fresh(emitter.Repr - old(emitter.Repr)) && Config() == old(Config())
    {
      ghost var c, e, ss := car.View(), emitter.model, sleepers;
      car.Measure(p, f, value);
      Begin(id, car, now);
      MeasurementPlan(tx, p, f, value, first, c, e, ss);
    }

    // ----- Whole inputs -----

    method RecordRaw(id: string, car: CarState, name: string, value: string, now: nat)
      modifies car`raw, cfg
      ensures car.View() == Engine.RecordRaw(Now(id, now), old(car.View()), name, value) && Config() == old(Config())
    {
      var enabled := RawEnabled();
      if !enabled {
        if car.raw.Some? {
          car.raw := None;
        }
        return;
      }
      var kept := if |value| > MAX_RAW_VALUE_LEN then value[..MAX_RAW_VALUE_LEN] else value;
      if car.raw.None? {
        car.raw := Some(map[]);
      }
      if name !in car.raw.value && |car.raw.value| >= MAX_RAW_FIELDS {
        return;
      }
      car.raw := Some(car.raw.value[name := kept]);
    }

    /** The switch over the fields. */
    method OnField(id: string, car: CarState, f: T.Field, value: string, first: bool, now: nat)
      requires Sound(car)
      modifies this`tx, this`sleepers, car, cfg, emitter, emitter.Repr, cache
      ensures Handled(id, car, now, f, value, first, old(car.View()), old(emitter.model), old(sleepers))
      ensures fresh(emitter.Repr - old(emitter.Repr)) && Config() == old(Config())
      ensures cache.file == NamesWritten(old(cache.file), id, f, value)
    {
      if f.State? {
        OnState(id, car, value, first, now);
      } else if f.ChargingState? {
        OnChargingState(id, car, value, first, now);
      } else if f.BatteryLevel? {
        OnBatteryLevel(id, car, value, first, now);
      } else if f.PluggedIn? {
        OnPluggedIn(id, car, value, first, now);
      } else if f.UpdateAvailable? {
        OnUpdateAvailable(id, car, value, first, now);
      } else if f.Geofence? {
        OnGeofence(id, car, value, first, now);
      } else if f.DisplayName? {
        OnDisplayName(id, car, value, first, now);
      } else if f.Model? {
        OnModel(id, car, value, first, now);
      } else if f.UpdateVersion? {
        OnUpdateVersion(id, car, value, first, now);
      } else if f.CenterDisplayState? {
        OnCenterDisplayState(id, car, value, first, now);
      } else {
        OnMeasurement(id, car, f, value, first, now);
      }
    }

    /** The car is as r says, and the emitter and the goroutines have followed r's effects. */
    ghost predicate Happened(id: string, car: CarState, now: nat, r: Res, e: E.Emitter, ss: seq<Sleeper>)
      reads this`sleepers, car, emitter
    {
      forall a: Aspect {:trigger Look(a)} :: a == DONE ==>
        car.View() == r.car && emitter.model == HandAll(e, r.out, now) && sleepers == ss + Sleepers(id, r.out)
    }

    lemma {:induction false} HandledResult(id: string, car: CarState, now: nat, f: T.Field, value: string, first: bool,
                                           c: Car, e: E.Emitter, ss: seq<Sleeper>)
      requires Handled(id, car, now, f, value, first, c, e, ss)
      ensures Sound(car)
      ensures var x := Now(id, now);
              Happened(id, car, now, PerformAll(x, Res(Assign(p, c, f, value, first), []), Plan(x, c, f, value, first)), e, ss)
    {
      assert Look(STEP) && Look(TUNING) && Look(PLAN);
    }

    /** The raw field and the initialized flag; the result says whether the field is new. */
    method Note(id: string, car: CarState, f: T.Field, value: string, now: nat) returns (first: bool)
      requires Sound(car)
      modifies car`raw, car`initialized, cfg
      ensures Sound(car) && Config() == old(Config())
      ensures var c := old(car.View());
              car.View() == Received(Now(id, now), c, f, value) && first == (f !in c.initialized)
    {
      RecordRaw(id, car, T.FieldName(f), value, now);
      first := f !in car.initialized;
      car.MarkInitialized(f);
    }

    /** HandleMessage on the car it concerns. */
    method Deliver(id: string, car: CarState, f: T.Field, value: string, now: nat, ghost x: Ctx, ghost c: Car)
      requires Sound(car) && x == Now(id, now) && c == car.View()
      modifies this`tx, this`sleepers, car, cfg, emitter, emitter.Repr, cache
      ensures Sound(car) && fresh(emitter.Repr - old(emitter.Repr)) && Config() == old(Config())
      ensures Happened(id, car, now, Engine.HandleMessage(x, c, f, value), old(emitter.model), old(sleepers))
      ensures cache.file == NamesWritten(old(cache.file), id, f, value)
    {
      var first := Note(id, car, f, value, now);
      Dispatch(id, car, f, value, first, now, x, Received(x, c, f, value));
    }

    method Dispatch(id: string, car: CarState, f: T.Field, value: string, first: bool, now: nat, ghost x: Ctx,
                    ghost c: Car)
      requires Sound(car) && x == Now(id, now) && c == car.View()
      modifies this`tx, this`sleepers, car, cfg, emitter, emitter.Repr, cache
      ensures Sound(car) && fresh(emitter.Repr - old(emitter.Repr)) && Config() == old(Config())
      ensures Happened(id, car, now, PerformAll(x, Res(Assign(x.p, c, f, value, first), []), Plan(x, c, f, value, first)),
                       old(emitter.model), old(sleepers))
      ensures cache.file == NamesWritten(old(cache.file), id, f, value)
    {
      ghost var e, ss := emitter.model, sleepers;
      OnField(id, car, f, value, first, now);
      HandledResult(id, car, now, f, value, first, c, e, ss);
    }

    /** Every other car is as in w. */
    ghost predicate Others(w: World, id: string, car: CarState)
      reads this`cars, this`lives, this`origin, this`fleet, fleet - {car}
    {
      forall a: Aspect {:trigger Look(a)} :: a == OTHERS ==>
        && w.lives == lives && w.origin == origin
        && id in cars && cars[id] == car && car in fleet && cars.Keys == w.cars.Keys + {id}
        && (forall other | other in cars && other != id ::
              cars[other] in fleet - {car} && cars[other].Valid() && cars[other].View() == w.cars[other])
        && (forall i, j | i in cars && j in cars && i != j :: cars[i] != cars[j])
    }

    /** getOrCreate, at the start of an input. */
    method Locate(id: string, now: nat, ghost w: World) returns (car: CarState)
      requires Valid() && w == Snapshot(now)
      modifies this`cars, this`fleet
      ensures Others(w, id, car) && Sound(car) && car.View() == CarOf(w, id)
      ensures fresh(fleet - old(fleet)) && (car in old(fleet) || fresh(car))
    {
      assert Look(WHOLE);
      car := GetOrCreate(id);
      Aside(w, id, car);
    }

    lemma {:induction false} Aside(w: World, id: string, car: CarState)
      requires CarsValid() && w.lives == lives && w.origin == origin && id in cars && cars[id] == car
      requires forall other | other != id :: other in cars <==> other in w.cars
      requires forall other | other in cars && other != id :: cars[other].View() == w.cars[other]
      ensures Others(w, id, car)
    {
      assert cars.Keys == w.cars.Keys + {id};
    }

    method Receive(id: string, f: T.Field, value: string, now: nat, ghost w: World, ghost x: Ctx)
      returns (car: CarState)
      requires Valid() && w == Snapshot(now) && x == Now(id, now)
      modifies this`cars, this`fleet, this`tx, this`sleepers, fleet, cfg, emitter, emitter.Repr, cache
      ensures Others(w, id, car) && Sound(car) && Config() == old(Config())
      ensures Happened(id, car, now, Engine.HandleMessage(x, CarOf(w, id), f, value), w.emitter, w.sleepers)
      ensures cache.file == NamesWritten(old(cache.file), id, f, value)
      ensures fresh(emitter.Repr - old(emitter.Repr)) && fresh(fleet - old(fleet))
    {
      car := Locate(id, now, w);
      DeliverAmong(id, car, f, value, now, w, x, CarOf(w, id));
    }

    method DeliverAmong(id: string, car: CarState, f: T.Field, value: string, now: nat, ghost w: World, ghost x: Ctx,
                        ghost c: Car)
      requires Others(w, id, car) && Sound(car) && x == Now(id, now) && c == car.View()
      modifies this`tx, this`sleepers, car, cfg, emitter, emitter.Repr, cache
      ensures Others(w, id, car) && Sound(car) && fresh(emitter.Repr - old(emitter.Repr)) && Config() == old(Config())
      ensures Happened(id, car, now, Engine.HandleMessage(x, c, f, value), old(emitter.model), old(sleepers))
      ensures cache.file == NamesWritten(old(cache.file), id, f, value)
    {
      Deliver(id, car, f, value, now, x, c);
    }

    lemma {:induction false} RejoinValid(id: string, car: CarState, w: World)
      requires Others(w, id, car) && Sound(car)
      ensures Valid() && lives == w.lives && origin == w.origin
    {
      assert Look(OTHERS) && Look(STEP);
      assert CarsValid();
    }

    lemma {:induction false} Rejoin(id: string, car: CarState, w: World)
      requires Others(w, id, car) && Sound(car)
      ensures Valid() && lives == w.lives && origin == w.origin
      ensures Views() == w.cars[id := car.View()]
    {
      RejoinValid(id, car, w);
      assert Look(OTHERS);
    }

    /** The end of an input that one car got. */
    ghost method Settle(id: string, car: CarState, now: nat, w: World, r: Res, e: Event)
      requires Others(w, id, car) && Sound(car)
      requires w.now == now && w.connectedAt == connectedAt && w.store == Config()
      requires Happened(id, car, now, r, w.emitter, w.sleepers)
      modifies this`lives
      ensures Valid() && Snapshot(now) == Grown(w, id, r, e, cache.file)
    {
      Rejoin(id, car, w);
      assert Look(DONE);
      lives := lives[id := LifeOf(w, id) + [e]];
    }

    ghost method SettleMessage(id: string, car: CarState, f: T.Field, value: string, now: nat, w: World, x: Ctx)
      requires Others(w, id, car) && Sound(car)
      requires w.now == now && w.connectedAt == connectedAt && w.store == Config() && x == Ctx(p, EnvOf(p, w), id)
      requires Happened(id, car, now, Engine.HandleMessage(x, CarOf(w, id), f, value), w.emitter, w.sleepers)
      requires cache.file == NamesWritten(w.file, id, f, value)
      modifies this`lives
      ensures Valid() && Steps(p, w, Message(id, f, value), Snapshot(now))
    {
      Settle(id, car, now, w, Engine.HandleMessage(x, CarOf(w, id), f, value), Event(x.env, Msg(f, value)));
      TakeMessage(p, w, id, f, value, Snapshot(now));
    }

    method HandleMessage(id: string, f: T.Field, value: string, now: nat)
      requires Valid()
      modifies this`cars, this`fleet, this`tx, this`sleepers, this`lives, fleet, cfg, emitter, emitter.Repr, cache
      ensures Valid() && fresh(emitter.Repr - old(emitter.Repr)) && fresh(fleet - old(fleet))
      ensures Steps(p, old(Snapshot(now)), Message(id, f, value), Snapshot(now))
    {
      ghost var w, x := Snapshot(now), Now(id, now);
      var car := Receive(id, f, value, now, w, x);
      SettleMessage(id, car, f, value, now, w, x);
    }

    method HandleUnknownMessage(id: string, name: string, value: string, now: nat)
      requires Valid()
      modifies this`cars, this`fleet, this`lives, fleet, cfg
      ensures Valid() && fresh(fleet - old(fleet))
      ensures Steps(p, old(Snapshot(now)), UnknownMessage(id, name, value), Snapshot(now))
    {
      var enabled := ProbeRaw(now);
      if !enabled {
        IgnoreUnknown(id, name, value, now);
        return;
      }
      KeepUnknown(id, name, value, now);
    }

    method ProbeRaw(now: nat) returns (enabled: bool)
      requires Valid()
      modifies cfg
      ensures Valid() && Snapshot(now) == old(Snapshot(now)) && enabled == KnobsNow().rawEnabled
    {
      enabled := RawEnabled();
    }

    lemma {:induction false} IgnoreUnknown(id: string, name: string, value: string, now: nat)
      requires Valid() && !KnobsNow().rawEnabled
      ensures Steps(p, Snapshot(now), UnknownMessage(id, name, value), Snapshot(now))
    {
      TakeUnknown(p, Snapshot(now), id, name, value, Snapshot(now));
    }

    method KeepUnknown(id: string, name: string, value: string, now: nat)
      requires Valid() && KnobsNow().rawEnabled
      modifies this`cars, this`fleet, this`lives, fleet, cfg
      ensures Valid() && fresh(fleet - old(fleet))
      ensures Steps(p, old(Snapshot(now)), UnknownMessage(id, name, value), Snapshot(now))
    {
      ghost var w, x := Snapshot(now), Now(id, now);
      var car := ReceiveUnknown(id, name, value, now, w);
      Settle(id, car, now, w, Res(Engine.RecordRaw(x, CarOf(w, id), name, value), []), Event(x.env, Unknown(name, value)));
      TakeUnknown(p, w, id, name, value, Snapshot(now));
    }

    method ReceiveUnknown(id: string, name: string, value: string, now: nat, ghost w: World) returns (car: CarState)
      requires Valid() && w == Snapshot(now)
      modifies this`cars, this`fleet, fleet, cfg
      ensures Others(w, id, car) && Sound(car) && Config() == old(Config())
      ensures Happened(id, car, now, Res(Engine.RecordRaw(Now(id, now), CarOf(w, id), name, value), []), w.emitter, w.sleepers)
      ensures fresh(fleet - old(fleet))
    {
      car := Locate(id, now, w);
      RecordRawOnly(id, car, name, value, now);
    }

    method RecordRawOnly(id: string, car: CarState, name: string, value: string, now: nat)
      requires Sound(car)
      modifies car`raw, cfg
      ensures Sound(car) && Config() == old(Config())
      ensures Happened(id, car, now, Res(Engine.RecordRaw(Now(id, now), old(car.View()), name, value), []), emitter.model, sleepers)
    {
      ghost var r := Res(Engine.RecordRaw(Now(id, now), car.View(), name, value), []);
      RecordRaw(id, car, name, value, now);
      Quietly(id, car, now, r);
    }

    lemma {:induction false} Quietly(id: string, car: CarState, now: nat, r: Res)
      requires car.View() == r.car && (r.out == [] || (|r.out| == 1 && r.out[0].Update?))
      ensures Happened(id, car, now, r, emitter.model, sleepers)
    {
      HandsNothing(emitter.model, [], r.out, now, id);
      assert [] + r.out == r.out;
      assert HandAll(emitter.model, r.out, now) == emitter.model && Sleepers(id, r.out) == [];
      assert sleepers + [] == sleepers;
    }

    /** deferredEmit, once its sleep is over: the goroutine ends, and takes the first pending event of
        its type, if there still is one. */
    method DeferredEmit(ghost s: Sleeper, id: string, e: EventType, now: nat)
      requires Valid() && s.carID == id && s.event == e && s in sleepers && s.due <= now
      modifies this`cars, this`fleet, this`sleepers, this`lives, fleet, emitter, emitter.Repr
      ensures Valid() && fresh(emitter.Repr - old(emitter.Repr)) && fresh(fleet - old(fleet))
      ensures Steps(p, old(Snapshot(now)), WakeUp(s), Snapshot(now))
    {
      if id !in cars {
        ghost var w := Snapshot(now);
        EndSleep(s, now);
        TakeWake(p, w, s, Snapshot(now));
        return;
      }
      DeferredEmitFor(s, id, e, now);
    }

    ghost method EndSleep(s: Sleeper, now: nat)
      requires Valid()
      modifies this`sleepers
      ensures Valid() && Snapshot(now) == old(Snapshot(now)).(sleepers := Without(old(sleepers), s))
      ensures Snapshot(now).cars.Keys == cars.Keys
    {
      assert Look(WHOLE);
      sleepers := Without(sleepers, s);
    }

    method DeferredEmitFor(ghost s: Sleeper, id: string, e: EventType, now: nat)
      requires Valid() && s.carID == id && s.event == e && s in sleepers && s.due <= now && id in cars
      modifies this`cars, this`fleet, this`sleepers, this`lives, fleet, emitter, emitter.Repr
      ensures Valid() && fresh(emitter.Repr - old(emitter.Repr)) && fresh(fleet - old(fleet))
      ensures Steps(p, old(Snapshot(now)), WakeUp(s), Snapshot(now))
    {
      ghost var w, x := Snapshot(now), Now(id, now);
      AwakenAndSettle(s, id, e, now, w, x, Timeout(x, CarOf(w, id), e));
      TakeWake(p, w, s, Snapshot(now));
    }

    method AwakenAndSettle(ghost s: Sleeper, id: string, e: EventType, now: nat, ghost w: World, ghost x: Ctx,
                           ghost r: Res)
      requires Valid() && w == Snapshot(now) && x == Now(id, now) && r == Timeout(x, CarOf(w, id), e)
      modifies this`cars, this`fleet, this`sleepers, this`lives, fleet, emitter, emitter.Repr
      ensures Valid() && fresh(emitter.Repr - old(emitter.Repr)) && fresh(fleet - old(fleet))
      ensures Snapshot(now) == Grown(w.(sleepers := Without(w.sleepers, s)), id, r, Event(x.env, Wake(e)), w.file)
    {
      var car := Awaken(id, e, now, w, x, r);
      WakesNoOne(x, CarOf(w, id), e);
      SettleAwake(id, car, now, w, r, Event(x.env, Wake(e)), s);
    }

    method Awaken(id: string, e: EventType, now: nat, ghost w: World, ghost x: Ctx, ghost r: Res)
      returns (car: CarState)
      requires Valid() && w == Snapshot(now)
      requires x.id == id && x.env.now == now && r == Timeout(x, CarOf(w, id), e)
      modifies this`cars, this`fleet, fleet, emitter, emitter.Repr
      ensures Others(w, id, car) && Sound(car) && Happened(id, car, now, r, w.emitter, w.sleepers)
      ensures fresh(emitter.Repr - old(emitter.Repr)) && fresh(fleet - old(fleet))
    {
      car := Locate(id, now, w);
      WakeCar(id, e, car, now, x, r);
    }

    /** The end of an input that a goroutine brought: it is gone. */
    ghost method SettleAwake(id: string, car: CarState, now: nat, w: World, r: Res, e: Event, s: Sleeper)
      requires Others(w, id, car) && Sound(car) && Sleepers(id, r.out) == []
      requires w.now == now && w.connectedAt == connectedAt && w.store == Config()
      requires Happened(id, car, now, r, w.emitter, w.sleepers)
      modifies this`lives, this`sleepers
      ensures Valid() && Snapshot(now) == Grown(w.(sleepers := Without(w.sleepers, s)), id, r, e, cache.file)
    {
      assert w.sleepers + [] == w.sleepers && Without(w.sleepers, s) + [] == Without(w.sleepers, s);
      Settle(id, car, now, w, r, e);
      EndSleep(s, now);
    }

    method WakeCar(id: string, e: EventType, car: CarState, now: nat, ghost x: Ctx, ghost r: Res)
      requires Sound(car) && x.id == id && x.env.now == now && r == Timeout(x, car.View(), e)
      modifies car, emitter, emitter.Repr
      ensures Sound(car) && fresh(emitter.Repr - old(emitter.Repr))
      ensures Happened(id, car, now, r, old(emitter.model), sleepers)
    {
      assert Look(STEP);
      var i := car.FindPending(e);
      if i == |car.pendingEvents| {
        Quietly(id, car, now, r);
      } else {
        car.RemovePending(i);
        HandOver(id, e, car, now, x, r);
      }
    }

    method HandOver(id: string, e: EventType, car: CarState, now: nat, ghost x: Ctx, ghost r: Res)
      requires Sound(car) && x.id == id && x.env.now == now
      requires car.View() == r.car && r.out == [Handed(Engine.BuildPayload(x, r.car, e))]
      modifies emitter, emitter.Repr
      ensures Sound(car) && fresh(emitter.Repr - old(emitter.Repr))
      ensures Happened(id, car, now, r, old(emitter.model), sleepers)
    {
      assert Look(STEP);
      var payload := BuildPayload(id, e, car, now, x);
      HandSingle(emitter.model, r.out, payload, now, id);
      emitter.Emit(payload, now);
      assert sleepers + [] == sleepers;
    }

    // ----- Ticker goroutines -----

    /** The charging goroutine has received a tick; the result goes to EmitImmediate. The car's life
        guarantees that the ticker it may reset is there. */
    method ChargingTick(id: string, now: nat) returns (sent: Option<EventPayload>)
      requires Valid() && LivesApart(p, Snapshot(now)) && id in cars && cars[id].chargeOpens > 0
      modifies this`lives, this`cars, this`fleet, fleet, cfg
      ensures Valid() && fresh(fleet - old(fleet))
      ensures Steps(p, old(Snapshot(now)), TickerFires(id, Charge), Snapshot(now))
      ensures sent == Sent(Tick(Now(id, now), old(CarOf(Snapshot(now), id)), Charge).out)
      ensures sent.Some? <==> CarOf(old(Snapshot(now)), id).chargingState == CHARGING
    {
      ghost var w, x := Snapshot(now), Now(id, now);
      NoNilTicker(p, w, id);
      var car;
      car, sent := ChargingTickAt(id, now, w);
      Settle(id, car, now, w, Tick(x, CarOf(w, id), Charge), Event(x.env, Fire(Charge)));
      TakeTick(p, w, id, Charge, Snapshot(now));
    }

    method ChargingTickAt(id: string, now: nat, ghost w: World) returns (car: CarState, sent: Option<EventPayload>)
      requires Valid() && w == Snapshot(now) && id in cars && CarOf(w, id).chargeOpens > 0
      requires CarOf(w, id).chargingState == CHARGING ==> CarOf(w, id).charge.Some?
      modifies this`cars, this`fleet, fleet, cfg
      ensures Others(w, id, car) && Sound(car) && Config() == old(Config()) && fresh(fleet - old(fleet))
      ensures Happened(id, car, now, Tick(Now(id, now), CarOf(w, id), Charge), w.emitter, w.sleepers)
      ensures sent == Sent(Tick(Now(id, now), CarOf(w, id), Charge).out)
      ensures sent.Some? <==> CarOf(w, id).chargingState == CHARGING
    {
      ghost var x := Now(id, now);
      car := Locate(id, now, w);
      sent := ChargingTickFor(id, car, now, x);
    }

    method ChargingTickFor(id: string, car: CarState, now: nat, ghost x: Ctx) returns (sent: Option<EventPayload>)
      requires Sound(car) && x == Now(id, now) && car.chargeOpens > 0
      requires car.chargingState == CHARGING ==> car.View().charge.Some?
      modifies car`liveActivityTicker, cfg
      ensures Sound(car) && Config() == old(Config())
      ensures Happened(id, car, now, Tick(x, old(car.View()), Charge), emitter.model, sleepers)
      ensures sent == Sent(Tick(x, old(car.View()), Charge).out)
      ensures sent.Some? <==> old(car.View()).chargingState == CHARGING
    {
      assert Look(STEP);
      ghost var r := Tick(x, car.View(), Charge);
      if car.chargingState != CHARGING {
        Quietly(id, car, now, r);
        return None;
      }
      var payload := BuildPayload(id, LiveActivityUpdate, car, now, x);
      var newInterval := ChargingInterval(car);
      car.AdvanceLiveActivity(newInterval, now);
      Quietly(id, car, now, r);
      return Some(payload);
    }

    method DrivingTick(id: string, now: nat) returns (sent: Option<EventPayload>)
      requires Valid() && LivesApart(p, Snapshot(now)) && id in cars && cars[id].driveOpens > 0
      modifies this`lives, this`cars, this`fleet, fleet, cfg
      ensures Valid() && fresh(fleet - old(fleet))
      ensures Steps(p, old(Snapshot(now)), TickerFires(id, Drive), Snapshot(now))
      ensures sent == Sent(Tick(Now(id, now), old(CarOf(Snapshot(now), id)), Drive).out)
      ensures sent.Some? <==> CarOf(old(Snapshot(now)), id).state == DRIVING
    {
      ghost var w, x := Snapshot(now), Now(id, now);
      NoNilTicker(p, w, id);
      var car;
      car, sent := DrivingTickAt(id, now, w);
      Settle(id, car, now, w, Tick(x, CarOf(w, id), Drive), Event(x.env, Fire(Drive)));
      TakeTick(p, w, id, Drive, Snapshot(now));
    }

    method DrivingTickAt(id: string, now: nat, ghost w: World) returns (car: CarState, sent: Option<EventPayload>)
      requires Valid() && w == Snapshot(now) && id in cars && CarOf(w, id).driveOpens > 0
      requires CarOf(w, id).state == DRIVING ==> CarOf(w, id).drive.Some?
      modifies this`cars, this`fleet, fleet, cfg
      ensures Others(w, id, car) && Sound(car) && Config() == old(Config()) && fresh(fleet - old(fleet))
      ensures Happened(id, car, now, Tick(Now(id, now), CarOf(w, id), Drive), w.emitter, w.sleepers)
      ensures sent == Sent(Tick(Now(id, now), CarOf(w, id), Drive).out)
      ensures sent.Some? <==> CarOf(w, id).state == DRIVING
    {
      ghost var x := Now(id, now);
      car := Locate(id, now, w);
      sent := DrivingTickFor(id, car, now, x);
    }

    method DrivingTickFor(id: string, car: CarState, now: nat, ghost x: Ctx) returns (sent: Option<EventPayload>)
      requires Sound(car) && x == Now(id, now) && car.driveOpens > 0
      requires car.state == DRIVING ==> car.View().drive.Some?
      modifies car`drivingTicker, cfg
      ensures Sound(car) && Config() == old(Config())
      ensures Happened(id, car, now, Tick(x, old(car.View()), Drive), emitter.model, sleepers)
      ensures sent == Sent(Tick(x, old(car.View()), Drive).out)
      ensures sent.Some? <==> old(car.View()).state == DRIVING
    {
      assert Look(STEP);
      ghost var r := Tick(x, car.View(), Drive);
      if car.state != DRIVING {
        Quietly(id, car, now, r);
        return None;
      }
      var payload := BuildPayload(id, LiveActivityDrivingUpdate, car, now, x);
      var newInterval := DrivingInterval(car);
      car.AdvanceDriving(newInterval, now);
      Quietly(id, car, now, r);
      return Some(payload);
    }

    // ----- The other steps -----

    method MarkConnected(now: nat)
      requires Valid()
      modifies this`connectedAt
      ensures Valid() && Steps(p, old(Snapshot(now)), Connect, Snapshot(now))
    {
      ghost var w := Snapshot(now);
      connectedAt := Some(now);
      StepsIsTake(p, w, Connect, Snapshot(now));
    }

    method SetRemoteConfig(store: RemoteConfig.Store)
      requires Valid()
      modifies this`cfg
      ensures Valid() && cfg == store
      ensures forall now :: Snapshot(now) == old(Snapshot(now)).(store := Config())
    {
      cfg := store;
    }

    /** A configuration block reaches the store, from a relay response. */
    method ApplyConfig(version: int, values: Option<RemoteConfig.Values>, now: nat)
      requires Valid() && cfg != null
      modifies cfg
      ensures Valid()
      ensures Steps(p, old(Snapshot(now)), Configure(RemoteConfig.Delivery(version, values)), Snapshot(now))
    {
      ghost var w := Snapshot(now);
      var _ := cfg.Apply(version, values);
      StepsIsTake(p, w, Configure(RemoteConfig.Delivery(version, values)), Snapshot(now));
    }

    /** A debounce timer of the emitter is due, and its callback starts. */
    method TimerExpires(t: Events.AfterFunc, id: string, e: EventType, now: nat)
      requires Valid() && emitter.Has(t) && t.key == Key(id, e)
      modifies emitter, t
      ensures Valid() && emitter.Repr == old(emitter.Repr)
      ensures Steps(p, old(Snapshot(now)), Expire(id, e, t.n), Snapshot(now))
    {
      ghost var w := Snapshot(now);
      ExpireTimer(t, now);
      TakeExpire(p, w, id, e, t.key, t.n, Snapshot(now));
    }

    method ExpireTimer(t: Events.AfterFunc, now: nat)
      requires Valid() && emitter.Has(t)
      modifies emitter, t
      ensures Valid() && emitter.Repr == old(emitter.Repr) && Views() == old(Views())
      ensures emitter.model == E.Expired(old(emitter.model), t.key, t.n, now)
    {
      assert Look(WHOLE);
      emitter.Expire(t, now);
    }

    /** The callback has the emitter's mutex; the result goes to SendEvent. */
    method TimerCallback(t: Events.AfterFunc, id: string, e: EventType, now: nat) returns (sent: EventPayload)
      requires Valid() && emitter.Has(t) && t.key == Key(id, e) && t.phase.Waiting?
      modifies emitter, t
      ensures Valid() && emitter.Repr == old(emitter.Repr) && sent == t.payload
      ensures Steps(p, old(Snapshot(now)), Callback(id, e, t.n), Snapshot(now))
    {
      ghost var w := Snapshot(now);
      sent := CallTimer(t, now);
      TakeCallback(p, w, id, e, t.key, t.n, Snapshot(now));
    }

    method CallTimer(t: Events.AfterFunc, now: nat) returns (sent: EventPayload)
      requires Valid() && emitter.Has(t) && t.phase.Waiting?
      modifies emitter, t
      ensures Valid() && emitter.Repr == old(emitter.Repr) && Views() == old(Views()) && sent == t.payload
      ensures emitter.model == E.CalledBack(old(emitter.model), t.key, t.n, now)
    {
      assert Look(WHOLE);
      sent := emitter.Callback(t, now);
    }

    /** Stop: every ticker of every car. */
    method Stop()
      requires Valid()
      modifies fleet
      ensures Valid()
      ensures Views() == map id | id in old(Views()) :: Quiet(old(Views())[id])
    {
      assert Look(WHOLE);
      StopCars();
      assert CarsValid() && emitter.Valid();
    }

    method StopCars()
      requires CarsValid()
      modifies fleet
      ensures CarsValid() && forall id | id in cars :: cars[id].View() == Quiet(old(cars[id].View()))
    {
      var left := cars.Keys;
      while left != {}
        invariant left <= cars.Keys && CarsValid()
        invariant forall id | id in cars :: cars[id].View() == if id in left then old(cars[id].View()) else Quiet(old(cars[id].View()))
      {
        var id :| id in left;
        StopCar(id);
        left := left - {id};
      }
    }

    method StopCar(id: string)
      requires CarsValid() && id in cars
      modifies cars[id]
      ensures CarsValid() && cars[id].View() == Quiet(old(cars[id].View()))
      ensures forall other | other in cars && other != id :: cars[other].View() == old(cars[other].View())
    {
      cars[id].StopTickers();
    }
  }

  method Assemble(cache: C.CarNameCache, p: Params) returns (m: Manager)
    ensures fresh(m) && m.Valid() && m.cfg == null && m.cache == cache && m.p == p && m.origin == cache.file
    ensures m.Snapshot(0) == Start(cache.file)
  {
    var emitter := new Events.EventEmitter();
    m := new Manager(emitter, cache, p);
  }

  /** main's wiring: an emitter and a manager with an empty configuration store. */
  method Wire(cache: C.CarNameCache, p: Params) returns (m: Manager)
    ensures m.Valid() && m.cfg != null && m.cache == cache && m.p == p && m.origin == cache.file
    ensures m.Snapshot(0) == Start(cache.file)
  {
    m := Assemble(cache, p);
    var store := new RemoteConfig.Store();
    m.SetRemoteConfig(store);
  }
}
