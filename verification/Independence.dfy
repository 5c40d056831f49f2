/** Cars are independent: what happens to one car in a run is what happens to it in the run that is
    restricted to that car. */
module Independence {
  import opened GoValues
  import opened Models
  import opened Engine
  import opened World
  import C = NameCache
  import D = Deferral
  import E = Debounce

  // ----- The restricted run -----

  /** The step is this car's own, or one that concerns everyone: configuration, connection, time. */
  predicate Concerns(step: Step, id: string) {
    match step
    case Message(own, _, _) => own == id
    case UnknownMessage(own, _, _) => own == id
    case WakeUp(s) => s.carID == id
    case TickerFires(own, _) => own == id
    case Expire(own, _, _) => own == id
    case Callback(own, _, _) => own == id
    case _ => true
  }

  function Restrict(steps: seq<Step>, id: string): seq<Step> {
    if steps == [] then []
    else Restrict(steps[..|steps| - 1], id) + (if Concerns(steps[|steps| - 1], id) then [steps[|steps| - 1]] else [])
  }

  function OfCar(ss: seq<Sleeper>, id: string): seq<Sleeper> {
    if ss == [] then [] else (if ss[0].carID == id then [ss[0]] else []) + OfCar(ss[1..], id)
  }

  // ----- What the two runs share -----

  ghost predicate SameKey(e: E.Emitter, f: E.Emitter, key: string) {
    && E.History(e, key) == E.History(f, key)
    && (key in e.timers <==> key in f.timers)
    && (key in e.timers ==> e.timers[key] == f.timers[key])
  }

  /** Same clock, connection and configuration; same car, inputs and cached names; same goroutines of
      this car; same debounce timers, with the same sends at the same times, under this car's keys. */
  ghost predicate SameFor(id: string, w: World, v: World) {
    && w.now == v.now && w.connectedAt == v.connectedAt && w.store == v.store
    && (id in w.cars <==> id in v.cars) && CarOf(w, id) == CarOf(v, id) && LifeOf(w, id) == LifeOf(v, id)
    && C.CachedFor(w.file, id) == C.CachedFor(v.file, id)
    && OfCar(w.sleepers, id) == OfCar(v.sleepers, id)
    && (forall ev :: SameKey(w.emitter, v.emitter, Key(id, ev)))
  }

  // ----- Debouncer -----

  lemma {:induction false} EmittedSame(e: E.Emitter, f: E.Emitter, p: EventPayload, now: nat, key: string)
    requires SameKey(e, f, key)
    ensures SameKey(E.Emitted(e, p, now), E.Emitted(f, p, now), key)
  {
  }

  lemma {:induction false} EmittedFrame(e: E.Emitter, f: E.Emitter, p: EventPayload, now: nat, key: string)
    requires SameKey(e, f, key) && key != Key(p.carID, p.eventType)
    ensures SameKey(E.Emitted(e, p, now), f, key)
  {
  }

  lemma {:induction false} HandAllSame(e: E.Emitter, f: E.Emitter, out: seq<Effect>, now: nat, key: string)
    requires SameKey(e, f, key)
    ensures SameKey(HandAll(e, out, now), HandAll(f, out, now), key)
  {
    if out != [] {
      var init, last := out[..|out| - 1], out[|out| - 1];
      HandAllSame(e, f, init, now, key);
      if last.Handed? {
        EmittedSame(HandAll(e, init, now), HandAll(f, init, now), last.payload, now, key);
      }
    }
  }

  /** One car's payloads never touch another car's keys: no event type contains a colon. */
  lemma {:induction false} HandAllFrame(e: E.Emitter, f: E.Emitter, out: seq<Effect>, now: nat, own: string,
                                        id: string, ev: EventType)
    requires SameKey(e, f, Key(id, ev)) && own != id && D.Strays(out, own) == 0
    ensures SameKey(HandAll(e, out, now), f, Key(id, ev))
  {
    if out != [] {
      var init, last := out[..|out| - 1], out[|out| - 1];
      HandAllFrame(e, f, init, now, own, id, ev);
      if last.Handed? {
        if Key(id, ev) == Key(last.payload.carID, last.payload.eventType) {
          KeyInjective(id, ev, last.payload.carID, last.payload.eventType);
        }
        EmittedFrame(HandAll(e, init, now), f, last.payload, now, Key(id, ev));
      }
    }
  }

  lemma {:induction false} TimerSame(e: E.Emitter, f: E.Emitter, k: string, n: nat, now: nat, key: string)
    requires SameKey(e, f, key)
    ensures k == key ==> SameKey(E.Expired(e, k, n, now), E.Expired(f, k, n, now), key) &&
                         SameKey(E.CalledBack(e, k, n, now), E.CalledBack(f, k, n, now), key)
    ensures k != key ==> SameKey(E.Expired(e, k, n, now), f, key) && SameKey(E.CalledBack(e, k, n, now), f, key) &&
                         SameKey(E.Expired(e, k, n, now), E.Expired(f, k, n, now), key) &&
                         SameKey(E.CalledBack(e, k, n, now), E.CalledBack(f, k, n, now), key)
  {
  }

  // ----- Goroutines -----

  lemma {:induction false} OfCarConcat(a: seq<Sleeper>, b: seq<Sleeper>, id: string)
    ensures OfCar(a + b, id) == OfCar(a, id) + OfCar(b, id)
  {
    if a == [] {
      assert a + b == b;
    } else {
      OfCarConcat(a[1..], b, id);
      assert (a + b)[1..] == a[1..] + b;
    }
  }

  lemma {:induction false} OfCarSleepers(own: string, out: seq<Effect>, id: string)
    ensures OfCar(Sleepers(own, out), id) == if own == id then Sleepers(own, out) else []
  {
    if out != [] {
      var init := Sleepers(own, out[..|out| - 1]);
      OfCarSleepers(own, out[..|out| - 1], id);
      OfCarConcat(init, Sleepers(own, out)[|init|..], id);
    }
  }

  lemma {:induction false} OfCarWithout(ss: seq<Sleeper>, s: Sleeper, id: string)
    ensures OfCar(Without(ss, s), id) == if s.carID == id then Without(OfCar(ss, id), s) else OfCar(ss, id)
    ensures s.carID == id ==> (s in ss <==> s in OfCar(ss, id))
  {
    if ss != [] {
      OfCarWithout(ss[1..], s, id);
      assert s in ss <==> s == ss[0] || s in ss[1..];
      if ss[0] != s {
        var rest := Without(ss[1..], s);
        assert ([ss[0]] + rest)[1..] == rest;
        if ss[0].carID == id {
          assert ([ss[0]] + OfCar(ss[1..], id))[1..] == OfCar(ss[1..], id);
        } else {
          assert [] + OfCar(ss[1..], id) == OfCar(ss[1..], id);
          assert [] + OfCar(rest, id) == OfCar(rest, id);
        }
      } else if s.carID == id {
        assert ([s] + OfCar(ss[1..], id))[1..] == OfCar(ss[1..], id);
      } else {
        assert [] + OfCar(ss[1..], id) == OfCar(ss[1..], id);
      }
    }
  }

  // ----- Inputs -----

  lemma {:induction false} FeedSame(p: Params, w: World, v: World, id: string, i: Input)
    requires SameFor(id, w, v)
    ensures SameFor(id, Feed(p, w, id, i), Feed(p, v, id, i))
  {
    var out := Apply(Ctx(p, EnvOf(p, w), id), CarOf(w, id), i).out;
    assert EnvOf(p, w) == EnvOf(p, v);
    OfCarConcat(w.sleepers, Sleepers(id, out), id);
    OfCarConcat(v.sleepers, Sleepers(id, out), id);
    forall ev
      ensures SameKey(Feed(p, w, id, i).emitter, Feed(p, v, id, i).emitter, Key(id, ev))
    {
      HandAllSame(w.emitter, v.emitter, out, w.now, Key(id, ev));
    }
  }

  lemma {:induction false} FeedOther(p: Params, w: World, v: World, own: string, i: Input, id: string)
    requires SameFor(id, w, v) && own != id
    ensures SameFor(id, Feed(p, w, own, i), v)
  {
    var x, c := Ctx(p, EnvOf(p, w), own), CarOf(w, own);
    var out := Apply(x, c, i).out;
    OfCarConcat(w.sleepers, Sleepers(own, out), id);
    OfCarSleepers(own, out, id);
    assert OfCar(w.sleepers, id) + [] == OfCar(w.sleepers, id);
    forall ev
      ensures SameKey(Feed(p, w, own, i).emitter, v.emitter, Key(id, ev))
    {
      D.InputBalanced(x, c, i, ev);
      HandAllFrame(w.emitter, v.emitter, out, w.now, own, id, ev);
    }
  }

  // ----- Steps -----

  lemma {:induction false} BackgroundSame(w: World, v: World, step: Step, id: string)
    requires SameFor(id, w, v) && Concerns(step, id)
    ensures SameFor(id, Background(w, step), Background(v, step))
  {
    match step
    case WakeUp(s) =>
      OfCarWithout(w.sleepers, s, id);
      OfCarWithout(v.sleepers, s, id);
    case Expire(own, e, n) =>
      forall ev
        ensures SameKey(Background(w, step).emitter, Background(v, step).emitter, Key(id, ev))
      {
        TimerSame(w.emitter, v.emitter, Key(own, e), n, w.now, Key(id, ev));
      }
    case Callback(own, e, n) =>
      forall ev
        ensures SameKey(Background(w, step).emitter, Background(v, step).emitter, Key(id, ev))
      {
        TimerSame(w.emitter, v.emitter, Key(own, e), n, w.now, Key(id, ev));
      }
    case _ =>
  }

  lemma {:induction false} BackgroundOther(w: World, v: World, step: Step, id: string)
    requires SameFor(id, w, v) && !Concerns(step, id)
    ensures SameFor(id, Background(w, step), v)
  {
    match step
    case WakeUp(s) => OfCarWithout(w.sleepers, s, id);
    case Expire(own, e, n) =>
      forall ev
        ensures SameKey(Background(w, step).emitter, v.emitter, Key(id, ev))
      {
        OtherKey(own, e, id, ev);
        TimerSame(w.emitter, v.emitter, Key(own, e), n, w.now, Key(id, ev));
      }
    case Callback(own, e, n) =>
      forall ev
        ensures SameKey(Background(w, step).emitter, v.emitter, Key(id, ev))
      {
        OtherKey(own, e, id, ev);
        TimerSame(w.emitter, v.emitter, Key(own, e), n, w.now, Key(id, ev));
      }
    case _ =>
  }

  lemma {:induction false} OtherKey(own: string, e: EventType, id: string, ev: EventType)
    requires own != id
    ensures Key(own, e) != Key(id, ev)
  {
    if Key(own, e) == Key(id, ev) {
      KeyInjective(own, e, id, ev);
    }
  }

  lemma {:induction false} CauseSame(p: Params, w: World, v: World, step: Step, id: string)
    requires SameFor(id, w, v) && Concerns(step, id)
    ensures CauseOf(p, w, step) == CauseOf(p, v, step)
    ensures CauseOf(p, w, step) != Nothing ==> CauseOf(p, w, step).id == id
  {
    if step.WakeUp? {
      OfCarWithout(w.sleepers, step.s, id);
      OfCarWithout(v.sleepers, step.s, id);
    }
  }

  lemma {:induction false} FileSame(file: C.File, other: C.File, step: Step, id: string)
    requires C.CachedFor(file, id) == C.CachedFor(other, id)
    ensures C.CachedFor(FileAfter(file, step), id) == C.CachedFor(FileAfter(other, step), id)
    ensures !Concerns(step, id) ==> C.CachedFor(FileAfter(file, step), id) == C.CachedFor(other, id)
  {
    if step.Message? {
      RewriteBoth(file, other, step.id, C.SetDisplayName(step.value), id);
      RewriteBoth(file, other, step.id, C.SetModel(step.value), id);
    }
  }

  lemma {:induction false} RewriteBoth(file: C.File, other: C.File, own: string, u: C.NameUpdate, id: string)
    requires C.CachedFor(file, id) == C.CachedFor(other, id)
    ensures C.CachedFor(C.Rewritten(file, own, u), id) == C.CachedFor(C.Rewritten(other, own, u), id)
    ensures own != id ==> C.CachedFor(C.Rewritten(file, own, u), id) == C.CachedFor(other, id)
  {
    C.RewriteKeepsOthers(file, own, u);
    C.RewriteKeepsOthers(other, own, u);
  }

  lemma {:induction false} TakeSame(p: Params, w: World, v: World, step: Step, id: string)
    requires SameFor(id, w, v) && Concerns(step, id)
    ensures SameFor(id, Take(p, w, step), Take(p, v, step))
  {
    var w1, v1, cause := Background(w, step), Background(v, step), CauseOf(p, w, step);
    BackgroundSame(w, v, step, id);
    CauseSame(p, w, v, step, id);
    FileSame(w.file, v.file, step, id);
    if cause != Nothing {
      FeedSame(p, w1, v1, id, cause.input);
      WithFile(id, Feed(p, w1, id, cause.input), Feed(p, v1, id, cause.input), FileAfter(w.file, step), FileAfter(v.file, step));
    } else {
      WithFile(id, w1, v1, FileAfter(w.file, step), FileAfter(v.file, step));
    }
  }

  lemma {:induction false} WithFile(id: string, w: World, v: World, file: C.File, other: C.File)
    requires SameFor(id, w, v) && C.CachedFor(file, id) == C.CachedFor(other, id)
    ensures SameFor(id, w.(file := file), v.(file := other))
  {
  }

  lemma {:induction false} TakeOther(p: Params, w: World, v: World, step: Step, id: string)
    requires SameFor(id, w, v) && !Concerns(step, id)
    ensures SameFor(id, Take(p, w, step), v)
  {
    var w1, cause := Background(w, step), CauseOf(p, w, step);
    BackgroundOther(w, v, step, id);
    FileSame(w.file, v.file, step, id);
    assert v == v.(file := v.file);
    if cause != Nothing {
      FeedOther(p, w1, v, cause.id, cause.input, id);
      WithFile(id, Feed(p, w1, cause.id, cause.input), v, FileAfter(w.file, step), v.file);
    } else {
      WithFile(id, w1, v, FileAfter(w.file, step), v.file);
    }
  }

  /** For every interleaving of the messages and timers of any number of cars, one car's state,
      inputs, goroutines, debounce timers and sends equal those of the run restricted to that car. */
  lemma {:induction false} CarsAreIndependent(p: Params, file: C.File, steps: seq<Step>, id: string)
    ensures SameFor(id, Run(p, file, steps), Run(p, file, Restrict(steps, id)))
  {
    if steps != [] {
      var init, step := steps[..|steps| - 1], steps[|steps| - 1];
      CarsAreIndependent(p, file, init, id);
      var w, v := Run(p, file, init), Run(p, file, Restrict(init, id));
      if Concerns(step, id) {
        TakeSame(p, w, v, step, id);
        assert (Restrict(init, id) + [step])[..|Restrict(init, id)|] == Restrict(init, id);
      } else {
        TakeOther(p, w, v, step, id);
        assert Restrict(init, id) + [] == Restrict(init, id);
      }
    }
  }
}
