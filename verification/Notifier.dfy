/** main.go and the routing in mqtt/client.go: the program as a whole, driven by its callbacks. After
    any calls in any order it is in a state of the transition system, so what is proved about runs
    holds of the objects in memory. */
module Program {
  import opened GoValues
  import opened Models
  import opened Engine
  import opened World
  import opened Machine
  import RemoteConfig
  import C = NameCache
  import E = Debounce
  import H = Handover
  import K = Tickers
  import T = Topics
  import Events

  /** Where onMessage sends a message: a known field of a monitored car to HandleMessage, any other
      field to HandleUnknownMessage, everything else nowhere. */
  ghost predicate Routes(monitored: set<string>, topic: string, payload: string, step: Option<Step>) {
    var parsed := T.ParseTopic(topic);
    if parsed.None? || parsed.value.carID !in monitored then step.None?
    else
      step.Some? &&
      (match step.value
       case Message(id, f, value) => id == parsed.value.carID && T.FieldName(f) == parsed.value.field && value == payload
       case UnknownMessage(id, name, value) =>
         id == parsed.value.carID && name == parsed.value.field && value == payload && forall f: T.Field :: T.FieldName(f) != name
       case _ => false)
  }

  lemma {:induction false} RunSnoc(p: Params, file: C.File, steps: seq<Step>, step: Step)
    ensures Run(p, file, steps + [step]) == Take(p, Run(p, file, steps), step)
  {
    assert (steps + [step])[..|steps|] == steps;
  }

  lemma {:induction false} RunPass(p: Params, file: C.File, steps: seq<Step>, d: nat)
    ensures var w := Run(p, file, steps); Run(p, file, steps + [Pass(d)]) == w.(now := w.now + d)
  {
    RunSnoc(p, file, steps, Pass(d));
  }

  class Notifier {
    const manager: Manager
    const monitored: set<string>
    const known: map<string, T.Field>
    /** The time of the latest callback, and everything that has happened. */
    var clock: nat
    ghost var steps: seq<Step>

    ghost predicate KnowsFields() {
      forall a: Machine.Aspect {:trigger Look(a)} :: a == NAMES ==>
        && (forall f: T.Field :: T.FieldName(f) in known && known[T.FieldName(f)] == f)
        && (forall name | name in known :: T.FieldName(known[name]) == name)
    }

    /** At that time, the manager is where those steps lead. */
    ghost predicate InRun(ss: seq<Step>, now: nat)
      requires manager.Valid()
      reads manager, manager.fleet, manager.emitter, manager.emitter.Repr, manager.cache, manager.cfg
    {
      forall a: Machine.Aspect {:trigger Look(a)} :: a == WORLD ==>
        manager.Snapshot(now) == Run(manager.p, manager.origin, ss)
    }

    ghost predicate Valid()
      reads this, manager, manager.fleet, manager.emitter, manager.emitter.Repr, manager.cache, manager.cfg
    {
      manager.Valid() && manager.cfg != null && KnowsFields() && InRun(steps, clock)
    }

    constructor (cache: C.CarNameCache, p: Params, monitored: set<string>)
      ensures Valid() && steps == [] && clock == 0 && this.monitored == monitored
      ensures manager.cache == cache && manager.p == p && manager.origin == cache.file
    {
      var m := Wire(cache, p);
      var names := T.KnownFields();
      manager, known, this.monitored := m, names, monitored;
      clock, steps := 0, [];
      new;
      EnterRun();
    }

    // ----- Bookkeeping -----

    lemma {:induction false} RoutesKnown(topic: string, payload: string)
      requires KnowsFields() && T.ParseTopic(topic).Some? && T.ParseTopic(topic).value.carID in monitored
      ensures var parsed := T.ParseTopic(topic).value;
              Routes(monitored, topic, payload,
                     Some(if parsed.field in known then Message(parsed.carID, known[parsed.field], payload)
                          else UnknownMessage(parsed.carID, parsed.field, payload)))
    {
      assert Look(NAMES);
    }

    lemma {:induction false} Inside()
      requires Valid()
      ensures manager.Snapshot(clock) == Run(manager.p, manager.origin, steps)
    {
      assert Look(WORLD);
    }

    lemma {:induction false} EnterRun()
      requires manager.Valid() && manager.Snapshot(clock) == Run(manager.p, manager.origin, steps)
      ensures InRun(steps, clock)
    {
    }

    lemma {:induction false} WaitRun(now: nat)
      requires Valid() && clock <= now
      ensures InRun(steps + [Pass(now - clock)], now)
    {
      Inside();
      manager.Later(clock, now);
      RunPass(manager.p, manager.origin, steps, now - clock);
    }

    /** Time has passed since the latest callback. */
    method Wait(now: nat)
      requires Valid() && clock <= now
      modifies this`clock, this`steps
      ensures Valid() && clock == now && steps == old(steps) + [Pass(now - old(clock))]
    {
      WaitRun(now);
      steps, clock := steps + [Pass(now - clock)], now;
    }

    /** The manager has taken a step. */
    ghost method Record(step: Step, w: World)
      requires manager.Valid() && manager.cfg != null && KnowsFields()
      requires w == Run(manager.p, manager.origin, steps) && Steps(manager.p, w, step, manager.Snapshot(clock))
      modifies this`steps
      ensures Valid() && steps == old(steps) + [step]
    {
      RunSnoc(manager.p, manager.origin, steps, step);
      StepsIsTake(manager.p, w, step, manager.Snapshot(clock));
      steps := steps + [step];
    }

    lemma {:induction false} LivesNow()
      requires Valid()
      ensures LivesApart(manager.p, manager.Snapshot(clock))
    {
      Inside();
      EveryCarLeadsALife(manager.p, manager.origin, steps);
    }

    // ----- Callbacks -----

    method OnMessage(topic: string, payload: string, now: nat)
      requires Valid() && clock <= now
      modifies this`clock, this`steps, manager, manager.fleet, manager.cfg, manager.emitter, manager.emitter.Repr, manager.cache
      ensures Valid() && clock == now
      ensures exists step :: Routes(monitored, topic, payload, step) &&
                steps == old(steps) + [Pass(now - old(clock))] + (if step.Some? then [step.value] else [])
    {
      Wait(now);
      ghost var before := steps;
      var parsed := T.ParseTopic(topic);
      if parsed.None? || parsed.value.carID !in monitored {
        assert before + [] == before;
        assert Routes(monitored, topic, payload, None);
        return;
      }
      var id, name := parsed.value.carID, parsed.value.field;
      RoutesKnown(topic, payload);
      if name in known {
        OnKnown(id, known[name], payload);
      } else {
        OnUnknown(id, name, payload);
      }
    }

    method OnKnown(id: string, f: T.Field, payload: string)
      requires Valid()
      modifies this`steps, manager, manager.fleet, manager.cfg, manager.emitter, manager.emitter.Repr, manager.cache
      ensures Valid() && steps == old(steps) + [Message(id, f, payload)]
    {
      Inside();
      ghost var w := manager.Snapshot(clock);
      manager.HandleMessage(id, f, payload, clock);
      Record(Message(id, f, payload), w);
    }

    method OnUnknown(id: string, name: string, payload: string)
      requires Valid()
      modifies this`steps, manager, manager.fleet, manager.cfg
      ensures Valid() && steps == old(steps) + [UnknownMessage(id, name, payload)]
    {
      Inside();
      ghost var w := manager.Snapshot(clock);
      manager.HandleUnknownMessage(id, name, payload, clock);
      Record(UnknownMessage(id, name, payload), w);
    }

    method OnConnect()
      requires Valid()
      modifies this`steps, manager
      ensures Valid() && steps == old(steps) + [Connect]
    {
      Inside();
      ghost var w := manager.Snapshot(clock);
      manager.MarkConnected(clock);
      Record(Connect, w);
    }

    /** A goroutine started by emit has slept long enough. */
    method OnWake(ghost s: Sleeper, id: string, e: EventType)
      requires Valid() && s.carID == id && s.event == e && s in manager.sleepers && s.due <= clock
      modifies this`steps, manager, manager.fleet, manager.emitter, manager.emitter.Repr
      ensures Valid() && steps == old(steps) + [WakeUp(s)]
    {
      Inside();
      ghost var w := manager.Snapshot(clock);
      manager.DeferredEmit(s, id, e, clock);
      Record(WakeUp(s), w);
    }

    /** A Live Activity ticker has fired. Nothing but the run so far is needed to know that the
        goroutine does not meet a nil ticker. */
    method OnChargingTick(id: string) returns (sent: Option<EventPayload>)
      requires Valid() && id in manager.cars && manager.cars[id].chargeOpens > 0
      modifies this`steps, manager, manager.fleet, manager.cfg
      ensures Valid() && steps == old(steps) + [TickerFires(id, Charge)]
      ensures sent.Some? <==> CarOf(old(manager.Snapshot(clock)), id).chargingState == CHARGING
    {
      Inside();
      ghost var w := manager.Snapshot(clock);
      LivesNow();
      sent := manager.ChargingTick(id, clock);
      Record(TickerFires(id, Charge), w);
    }

    method OnDrivingTick(id: string) returns (sent: Option<EventPayload>)
      requires Valid() && id in manager.cars && manager.cars[id].driveOpens > 0
      modifies this`steps, manager, manager.fleet, manager.cfg
      ensures Valid() && steps == old(steps) + [TickerFires(id, Drive)]
      ensures sent.Some? <==> CarOf(old(manager.Snapshot(clock)), id).state == DRIVING
    {
      Inside();
      ghost var w := manager.Snapshot(clock);
      LivesNow();
      sent := manager.DrivingTick(id, clock);
      Record(TickerFires(id, Drive), w);
    }

    /** A debounce timer is due. */
    method OnTimerDue(t: Events.AfterFunc, id: string, e: EventType)
      requires Valid() && manager.emitter.Has(t) && t.key == Key(id, e)
      modifies this`steps, manager.emitter, t
      ensures Valid() && steps == old(steps) + [Expire(id, e, t.n)]
    {
      Inside();
      ghost var w := manager.Snapshot(clock);
      manager.TimerExpires(t, id, e, clock);
      Record(Expire(id, e, t.n), w);
    }

    /** A debounce callback gets the emitter's mutex, and then calls SendEvent with the result. */
    method OnTimer(t: Events.AfterFunc, id: string, e: EventType) returns (sent: EventPayload)
      requires Valid() && manager.emitter.Has(t) && t.key == Key(id, e) && t.phase.Waiting?
      modifies this`steps, manager.emitter, t
      ensures Valid() && steps == old(steps) + [Callback(id, e, t.n)] && sent == t.payload
    {
      Inside();
      ghost var w := manager.Snapshot(clock);
      sent := manager.TimerCallback(t, id, e, clock);
      Record(Callback(id, e, t.n), w);
    }

    /** A relay response carries a configuration block. */
    method OnConfig(version: int, values: Option<RemoteConfig.Values>)
      requires Valid()
      modifies this`steps, manager.cfg
      ensures Valid() && steps == old(steps) + [Configure(RemoteConfig.Delivery(version, values))]
    {
      Inside();
      ghost var w := manager.Snapshot(clock);
      manager.ApplyConfig(version, values, clock);
      Record(Configure(RemoteConfig.Delivery(version, values)), w);
    }

    // ----- What therefore holds of the objects in memory -----

    /** At any time, the stored names are those of the car records. */
    lemma {:induction false} NamesOnDisk(id: string)
      requires Valid() && id in manager.cars
      ensures C.CachedFor(manager.cache.file, id) == C.CachedCar(manager.cars[id].displayName, manager.cars[id].model)
    {
      Inside();
      assert Look(WHOLE);
      CacheAgreesWithMemory(manager.p, manager.origin, steps);
      assert NamesAgree(manager.Snapshot(clock));
      assert CarOf(manager.Snapshot(clock), id) == manager.cars[id].View();
    }

    /** A charging ticker runs exactly while its car record says it charges, a driving ticker exactly
        while the drive is timed. */
    lemma {:induction false} TickersInMemory(id: string)
      requires Valid() && id in manager.cars
      ensures var car := manager.cars[id];
              && (car.liveActivityTicker.Some? <==> car.chargingState == CHARGING)
              && (car.drivingTicker.Some? <==> car.driveStartTime.Some?)
              && (car.drivingTicker.Some? ==> car.state == DRIVING)
    {
      Inside();
      assert Look(WHOLE);
      var w := manager.Snapshot(clock);
      var c0 := Restored(C.CachedFor(w.origin, id));
      EveryCarLeadsALife(manager.p, manager.origin, steps);
      assert CarOf(w, id) == manager.cars[id].View();
      K.LifeCycle(manager.p, id, c0, LifeOf(w, id));
    }

    /** Every event ever raised for a car and type has a debounce timer, or is on the car's list. */
    lemma {:induction false} NothingIsLost(id: string, ev: EventType)
      requires Valid()
      ensures H.Conserved(manager.p, manager.Snapshot(clock), id, ev)
    {
      Inside();
      H.EventsAreConserved(manager.p, manager.origin, steps, id, ev);
    }
  }
}
