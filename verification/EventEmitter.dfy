/** state/events.go as it runs: the emitter's map from keys to timers, updated in place under its
    mutex. Every operation is proved against the protocol of module Debounce. */
module Events {
  import opened GoValues
  import opened Models
  import opened Debounce

  /** A timer made by time.AfterFunc, with what its callback closes over. */
  class AfterFunc {
    const key: string
    const payload: EventPayload
    const emittedAt: nat
    /** The timer is the n-th of its key. */
    ghost const n: nat
    var phase: Phase

    constructor (key: string, payload: EventPayload, emittedAt: nat, ghost n: nat)
      ensures this.key == key && this.n == n && View() == Timer(payload, emittedAt, Armed)
    {
      this.key, this.payload, this.emittedAt, this.n, this.phase := key, payload, emittedAt, n, Armed;
    }

    function View(): Timer
      reads this
    {
      Timer(payload, emittedAt, phase)
    }

    /** Stop has no effect on a timer whose callback has started. */
    method Stop()
      modifies this
      ensures phase == if old(phase).Armed? then Cancelled else old(phase)
    {
      if phase.Armed? {
        phase := Cancelled;
      }
    }
  }

  function Dropped(e: Emitter, key: string): Emitter {
    Silenced(e, key).(timers := e.timers - {key})
  }

  /** e is e0 with some keys dropped. */
  ghost predicate PartlyStopped(e0: Emitter, e: Emitter) {
    && e.sends == e0.sends && e.history.Keys == e0.history.Keys && e.timers.Keys <= e0.timers.Keys
    && (forall key | key in e.timers :: e.timers[key] == e0.timers[key])
    && (forall key | key in e0.history ::
          e.history[key] == if key in e0.timers && key !in e.timers then StopTimer(e0.history[key], e0.timers[key])
                            else e0.history[key])
  }

  lemma {:induction false} PartlyStoppedDrop(e0: Emitter, e: Emitter, key: string)
    requires PartlyStopped(e0, e) && key in e.timers && key in e.history
    ensures PartlyStopped(e0, Dropped(e, key))
  {
  }

  lemma {:induction false} PartlyStoppedAll(e0: Emitter, e: Emitter)
    requires PartlyStopped(e0, e) && e.timers.Keys == {}
    ensures e == Stopped(e0)
  {
    assert e.history == Stopped(e0).history;
  }

  /** `model` is the protocol state; Valid says that the real map and timers are in that state. */
  class EventEmitter {
    var timers: map<string, AfterFunc>
    ghost var model: Emitter
    /** Every timer ever made, by key and place. */
    ghost var made: map<(string, nat), AfterFunc>
    ghost var Repr: set<AfterFunc>

    ghost predicate Mirrors(key: string, n: nat)
      reads this, Repr
    {
      if n < |History(model, key)| then
        && (key, n) in made && made[(key, n)] in Repr
        && made[(key, n)].key == key && made[(key, n)].n == n && made[(key, n)].View() == History(model, key)[n]
      else (key, n) !in made
    }

    ghost predicate Valid()
      reads this, Repr
    {
      && (forall key, n: nat :: Mirrors(key, n))
      && (forall key | key in timers ::
            && key in model.timers && model.timers[key] < |History(model, key)|
            && (key, model.timers[key]) in made && timers[key] == made[(key, model.timers[key])])
      && (forall key | key in model.timers :: key in timers)
    }

    ghost predicate Has(t: AfterFunc)
      reads this
    {
      (t.key, t.n) in made && made[(t.key, t.n)] == t
    }

    constructor ()
      ensures Valid() && model == NO_TIMERS && made == map[] && Repr == {}
    {
      timers, model, made, Repr := map[], NO_TIMERS, map[], {};
    }

    method Emit(payload: EventPayload, now: nat)
      requires Valid()
      modifies this, Repr
      ensures Valid() && fresh(Repr - old(Repr))
      ensures model == Emitted(old(model), payload, now)
    {
      var key := Key(payload.carID, payload.eventType);
      StopExisting(key);
      Install(key, payload, now);
    }

    method StopExisting(key: string)
      requires Valid()
      modifies this`model, Repr
      ensures Valid() && model == Silenced(old(model), key)
    {
      if key in timers {
        assert Mirrors(key, model.timers[key]);
        timers[key].Stop();
      }
      model := Silenced(model, key);
      forall k, m: nat
        ensures Mirrors(k, m)
      {
        assert old(Mirrors(k, m));
      }
    }

    method Install(key: string, payload: EventPayload, now: nat)
      requires Valid()
      modifies this
      ensures Valid() && fresh(Repr - old(Repr))
      ensures model == Installed(old(model), key, payload, now)
    {
      ghost var n := |History(model, key)|;
      assert Mirrors(key, n);
      var t := new AfterFunc(key, payload, now, n);
      timers := timers[key := t];
      Enlist(t, payload, now);
    }

    /** The new timer is the next one of its key. */
    ghost method Enlist(t: AfterFunc, payload: EventPayload, now: nat)
      requires (forall k, m: nat :: Mirrors(k, m)) && t !in Repr
      requires t.n == |History(model, t.key)| && t.View() == Timer(payload, now, Armed)
      modifies this`model, this`made, this`Repr
      ensures forall k, m: nat :: Mirrors(k, m)
      ensures model == Installed(old(model), t.key, payload, now)
      ensures made == old(made)[(t.key, t.n) := t] && Repr == old(Repr) + {t}
    {
      assert Mirrors(t.key, t.n);
      model := Installed(model, t.key, payload, now);
      made := made[(t.key, t.n) := t];
      Repr := Repr + {t};
      forall k, m: nat
        ensures Mirrors(k, m)
      {
        assert old(Mirrors(k, m));
        assert (k, m) != (t.key, t.n) && (k, m) in made ==> made[(k, m)] == old(made[(k, m)]);
      }
    }

    /** The runtime starts the callback of a due timer; it then waits for the mutex. */
    method Expire(t: AfterFunc, now: nat)
      requires Valid() && Has(t)
      modifies t, `model
      ensures Valid() && model == Expired(old(model), t.key, t.n, now)
    {
      assert Mirrors(t.key, t.n);
      if t.phase.Armed? && t.emittedAt + WINDOW <= now {
        t.phase := Waiting;
      }
      model := Expired(model, t.key, t.n, now);
      forall k, m: nat
        ensures Mirrors(k, m)
      {
        assert old(Mirrors(k, m));
      }
    }

    /** The callback gets the mutex, deletes its key's entry and passes its payload to SendEvent. */
    method Callback(t: AfterFunc, now: nat) returns (sent: EventPayload)
      requires Valid() && Has(t) && t.phase.Waiting?
      modifies this, t
      ensures Valid() && made == old(made) && Repr == old(Repr) && model == CalledBack(old(model), t.key, t.n, now)
      ensures sent == t.payload
    {
      assert Mirrors(t.key, t.n);
      timers := timers - {t.key};
      t.phase := Sent(now);
      sent := t.payload;
      model := CalledBack(model, t.key, t.n, now);
      forall k, m: nat
        ensures Mirrors(k, m)
      {
        assert old(Mirrors(k, m));
      }
    }

    /** One round of the loop in Stop. */
    method Drop(key: string)
      requires Valid() && key in timers
      modifies this, Repr
      ensures Valid() && made == old(made) && Repr == old(Repr) && timers == old(timers) - {key}
      ensures model == Dropped(old(model), key)
    {
      StopExisting(key);
      label Stopped:
      timers := timers - {key};
      model := model.(timers := model.timers - {key});
      forall k, m: nat
        ensures Mirrors(k, m)
      {
        assert old@Stopped(Mirrors(k, m));
      }
    }

    method Stop()
      requires Valid()
      modifies this, Repr
      ensures Valid() && made == old(made) && Repr == old(Repr) && timers == map[]
      ensures model == Stopped(old(model))
    {
      ghost var before := model;
      var keys := timers.Keys;
      while keys != {}
        invariant Valid() && made == old(made) && Repr == old(Repr) && timers.Keys == keys && PartlyStopped(before, model)
      {
        var key :| key in keys;
        PartlyStoppedDrop(before, model, key);
        Drop(key);
        keys := keys - {key};
      }
      assert model.timers.Keys == {};
      PartlyStoppedAll(before, model);
    }
  }
}
