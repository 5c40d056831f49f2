/** All cars together: the manager's map of cars, the deferred-event goroutines, the debouncer, the
    config store and the name cache, as one transition system. */
module World {
  import opened GoValues
  import opened Models
  import opened Tuning
  import opened Engine
  import RemoteConfig
  import C = NameCache
  import D = Deferral
  import E = Debounce
  import K = Tickers
  import T = Topics

  /** A goroutine started by emit, asleep until `due`. */
  datatype Sleeper = Sleeper(carID: string, event: EventType, due: nat)

  /** `lives` records what each car has received since the manager was made; `origin` is what the
      name cache held then. */
  datatype World = World(
    now: nat, connectedAt: Option<nat>, store: RemoteConfig.StoreState,
    cars: map<string, Car>, sleepers: seq<Sleeper>, emitter: E.Emitter, file: C.File,
    lives: map<string, seq<Event>>, origin: C.File)

  datatype Step =
    | Message(id: string, field: T.Field, value: string)
    | UnknownMessage(id: string, name: string, value: string)
    | WakeUp(s: Sleeper)
    | TickerFires(id: string, kind: Kind)
    | Expire(id: string, event: EventType, n: nat)
    | Callback(id: string, event: EventType, n: nat)
    | Configure(delivery: RemoteConfig.Delivery)
    | Connect
    | Pass(d: nat)

  function EnvOf(p: Params, w: World): Env {
    Env(w.now, w.connectedAt, KnobsOf(Some(w.store.values), p.parseFloat))
  }

  /** getOrCreate. */
  function CarOf(w: World, id: string): Car {
    if id in w.cars then w.cars[id] else NEW_CAR
  }

  function LifeOf(w: World, id: string): seq<Event> {
    if id in w.lives then w.lives[id] else []
  }

  function Sleepers(id: string, out: seq<Effect>): seq<Sleeper> {
    if out == [] then []
    else Sleepers(id, out[..|out| - 1]) +
         (if out[|out| - 1].Deferred? then [Sleeper(id, out[|out| - 1].event, out[|out| - 1].due)] else [])
  }

  function HandAll(e: E.Emitter, out: seq<Effect>, now: nat): E.Emitter {
    if out == [] then e
    else
      var e' := HandAll(e, out[..|out| - 1], now);
      if out[|out| - 1].Handed? then E.Emitted(e', out[|out| - 1].payload, now) else e'
  }

  function Without(ss: seq<Sleeper>, s: Sleeper): seq<Sleeper> {
    if ss == [] then [] else if ss[0] == s then ss[1..] else [ss[0]] + Without(ss[1..], s)
  }

  /** One input to one car, under the manager's mutex. */
  function Feed(p: Params, w: World, id: string, i: Input): World {
    var env := EnvOf(p, w);
    var r := Apply(Ctx(p, env, id), CarOf(w, id), i);
    w.(cars := w.cars[id := r.car],
       lives := w.lives[id := LifeOf(w, id) + [Event(env, i)]],
       sleepers := w.sleepers + Sleepers(id, r.out),
       emitter := HandAll(w.emitter, r.out, w.now))
  }

  function NamesWritten(file: C.File, id: string, f: T.Field, value: string): C.File {
    match f
    case DisplayName => C.Rewritten(file, id, C.SetDisplayName(value))
    case Model => C.Rewritten(file, id, C.SetModel(value))
    case _ => file
  }

  predicate Awake(w: World, s: Sleeper) {
    s in w.sleepers && s.due <= w.now
  }

  /** What a step does to everything but the cars: the goroutine that wakes up is gone, a callback
      starts or runs, a configuration is applied, the connection is made, time passes. */
  function Background(w: World, step: Step): World {
    match step
    case WakeUp(s) => if Awake(w, s) then w.(sleepers := Without(w.sleepers, s)) else w
    case Expire(id, e, n) => w.(emitter := E.Expired(w.emitter, Key(id, e), n, w.now))
    case Callback(id, e, n) => w.(emitter := E.CalledBack(w.emitter, Key(id, e), n, w.now))
    case Configure(d) => w.(store := RemoteConfig.Applied(w.store, d))
    case Connect => w.(connectedAt := Some(w.now))
    case Pass(d) => w.(now := w.now + d)
    case _ => w
  }

  datatype Cause = Nothing | Cause(id: string, input: Input)

  /** The car a step concerns and the input that car gets. */
  function CauseOf(p: Params, w: World, step: Step): Cause {
    match step
    case Message(id, f, value) => Cause(id, Msg(f, value))
    case UnknownMessage(id, name, value) =>
      if EnvOf(p, w).knobs.rawEnabled then Cause(id, Unknown(name, value)) else Nothing
    case WakeUp(s) => if Awake(w, s) && s.carID in w.cars then Cause(s.carID, Wake(s.event)) else Nothing
    case TickerFires(id, kind) => if id in w.cars then Cause(id, Fire(kind)) else Nothing
    case _ => Nothing
  }

  function FileAfter(file: C.File, step: Step): C.File {
    if step.Message? then NamesWritten(file, step.id, step.field, step.value) else file
  }

  function Take(p: Params, w: World, step: Step): World {
    var w1 := Background(w, step);
    var cause := CauseOf(p, w, step);
    var w2 := if cause == Nothing then w1 else Feed(p, w1, cause.id, cause.input);
    w2.(file := FileAfter(w.file, step))
  }

  function Restored(cc: C.CachedCar): Car {
    RestoredCar(cc.displayName, cc.model)
  }

  /** NewManager on a cache file. */
  function Start(file: C.File): World {
    World(0, None, RemoteConfig.EMPTY, map id | id in C.Loaded(file) :: Restored(C.Loaded(file)[id]),
          [], E.NO_TIMERS, file, map[], file)
  }

  function Run(p: Params, file: C.File, steps: seq<Step>): World {
    if steps == [] then Start(file) else Take(p, Run(p, file, steps[..|steps| - 1]), steps[|steps| - 1])
  }

  /** What a car has done since the manager was made. */
  function LogOf(p: Params, w: World, id: string): Res {
    Life(p, id, Restored(C.CachedFor(w.origin, id)), LifeOf(w, id))
  }

  // ----- Every car of the world leads a life -----

  /** Each car is what its own history of inputs makes of it, and nothing else. */
  ghost predicate LivesApart(p: Params, w: World) {
    forall id :: CarOf(w, id) == LogOf(p, w, id).car && (id !in w.cars ==> LifeOf(w, id) == [])
  }

  lemma {:induction false} InputLives(p: Params, w: World, id: string, i: Input)
    requires LivesApart(p, w)
    ensures LivesApart(p, Feed(p, w, id, i))
  {
    var w' := Feed(p, w, id, i);
    forall other
      ensures CarOf(w', other) == LogOf(p, w', other).car && (other !in w'.cars ==> LifeOf(w', other) == [])
    {
      if other == id {
        LifeSnoc(p, id, Restored(C.CachedFor(w.origin, id)), LifeOf(w, id), Event(EnvOf(p, w), i));
      } else {
        assert CarOf(w', other) == CarOf(w, other) && LifeOf(w', other) == LifeOf(w, other);
      }
    }
  }

  lemma {:induction false} SameLives(p: Params, w: World, w': World)
    requires LivesApart(p, w)
    requires w'.cars == w.cars && w'.lives == w.lives && w'.origin == w.origin
    ensures LivesApart(p, w')
  {
    forall id
      ensures CarOf(w', id) == LogOf(p, w', id).car && (id !in w'.cars ==> LifeOf(w', id) == [])
    {
      assert CarOf(w', id) == CarOf(w, id) && LogOf(p, w', id) == LogOf(p, w, id);
    }
  }

  lemma {:induction false} BackgroundKeepsCars(w: World, step: Step)
    ensures var w1 := Background(w, step);
            w1.cars == w.cars && w1.lives == w.lives && w1.origin == w.origin && w1.file == w.file
  {
  }

  lemma {:induction false} TakeLives(p: Params, w: World, step: Step)
    requires LivesApart(p, w)
    ensures LivesApart(p, Take(p, w, step))
  {
    var w1 := Background(w, step);
    var cause := CauseOf(p, w, step);
    BackgroundKeepsCars(w, step);
    SameLives(p, w, w1);
    var w2 := if cause == Nothing then w1 else Feed(p, w1, cause.id, cause.input);
    if cause != Nothing {
      InputLives(p, w1, cause.id, cause.input);
    }
    SameLives(p, w2, Take(p, w, step));
  }

  lemma {:induction false} StartLives(p: Params, file: C.File)
    ensures LivesApart(p, Start(file))
  {
    forall id
      ensures CarOf(Start(file), id) == LogOf(p, Start(file), id).car
    {
      assert Restored(C.NO_NAMES) == NEW_CAR;
    }
  }

  /** In every run, every car is the result of its own inputs, from a fresh car with cached names: so
      everything proved about lives holds of every car of every run. */
  lemma {:induction false} EveryCarLeadsALife(p: Params, file: C.File, steps: seq<Step>)
    ensures LivesApart(p, Run(p, file, steps)) && Run(p, file, steps).origin == file
    ensures forall id :: K.Fresh(Restored(C.CachedFor(file, id)))
  {
    if steps == [] {
      StartLives(p, file);
    } else {
      var w, step := Run(p, file, steps[..|steps| - 1]), steps[|steps| - 1];
      EveryCarLeadsALife(p, file, steps[..|steps| - 1]);
      TakeLives(p, w, step);
      TakeKeepsOrigin(p, w, step);
    }
  }

  lemma {:induction false} TakeKeepsOrigin(p: Params, w: World, step: Step)
    ensures Take(p, w, step).origin == w.origin
  {
    BackgroundKeepsCars(w, step);
  }

  // ----- Names -----

  /** The cache file agrees with memory. */
  ghost predicate NamesAgree(w: World) {
    forall id :: C.CachedFor(w.file, id) == C.CachedCar(CarOf(w, id).displayName, CarOf(w, id).model)
  }

  lemma {:induction false} InputNames(x: Ctx, c: Car, i: Input)
    ensures var d := Apply(x, c, i).car;
            && d.displayName == (if i.Msg? && i.field == T.DisplayName then i.value else c.displayName)
            && d.model == (if i.Msg? && i.field == T.Model then i.value else c.model)
  {
    match i
    case Msg(f, value) =>
      var c1 := Received(x, c, f, value);
      var first := f !in c.initialized;
      D.AssignNames(x.p, c1, f, value, first);
      D.PerformKeepsNaming(x, Res(Assign(x.p, c1, f, value, first), []), Plan(x, c1, f, value, first));
    case Unknown(_, _) =>
    case Wake(e) => D.WakeKeepsNaming(x, c, e);
    case Fire(kind) => D.FireKeepsNaming(x, c, kind);
  }

  lemma {:induction false} FeedNames(p: Params, w: World, id: string, i: Input, other: string)
    ensures var c, d := CarOf(w, other), CarOf(Feed(p, w, id, i), other);
            && d.displayName == (if other == id && i.Msg? && i.field == T.DisplayName then i.value else c.displayName)
            && d.model == (if other == id && i.Msg? && i.field == T.Model then i.value else c.model)
  {
    InputNames(Ctx(p, EnvOf(p, w), id), CarOf(w, id), i);
  }

  /** The names of a car after a step: those of the message, if it carries one to this car. */
  lemma {:induction false} TakeCarNames(p: Params, w: World, step: Step, id: string)
    ensures var c, d := CarOf(w, id), CarOf(Take(p, w, step), id);
            && d.displayName == (if step.Message? && step.id == id && step.field == T.DisplayName then step.value else c.displayName)
            && d.model == (if step.Message? && step.id == id && step.field == T.Model then step.value else c.model)
  {
    var w1 := Background(w, step);
    var cause := CauseOf(p, w, step);
    BackgroundKeepsCars(w, step);
    if cause != Nothing {
      FeedNames(p, w1, cause.id, cause.input, id);
    }
  }

  lemma {:induction false} TakeNames(p: Params, w: World, step: Step, id: string)
    requires NamesAgree(w)
    ensures var w' := Take(p, w, step);
            C.CachedFor(w'.file, id) == C.CachedCar(CarOf(w', id).displayName, CarOf(w', id).model)
  {
    assert C.CachedFor(w.file, id) == C.CachedCar(CarOf(w, id).displayName, CarOf(w, id).model);
    TakeCarNames(p, w, step, id);
    if step.Message? {
      C.RewriteKeepsOthers(w.file, step.id, C.SetDisplayName(step.value));
      C.RewriteKeepsOthers(w.file, step.id, C.SetModel(step.value));
    }
  }

  /** After every run, from a file in any format, the cache holds exactly the names in memory. */
  lemma {:induction false} CacheAgreesWithMemory(p: Params, file: C.File, steps: seq<Step>)
    ensures NamesAgree(Run(p, file, steps))
  {
    if steps != [] {
      var w, step := Run(p, file, steps[..|steps| - 1]), steps[|steps| - 1];
      CacheAgreesWithMemory(p, file, steps[..|steps| - 1]);
      forall id
        ensures C.CachedFor(Run(p, file, steps).file, id) ==
                C.CachedCar(CarOf(Run(p, file, steps), id).displayName, CarOf(Run(p, file, steps), id).model)
      {
        TakeNames(p, w, step, id);
      }
    }
  }

  /** So a restart from the file calls every car by the same name. */
  lemma {:induction false} RestartKeepsNames(p: Params, file: C.File, steps: seq<Step>, id: string)
    ensures var w := Run(p, file, steps);
            var before, after := CarOf(w, id), CarOf(Start(w.file), id);
            DisplayNameForCar(id, after.displayName, after.model) == DisplayNameForCar(id, before.displayName, before.model)
  {
    CacheAgreesWithMemory(p, file, steps);
    var w := Run(p, file, steps);
    assert C.CachedFor(w.file, id) == C.CachedCar(CarOf(w, id).displayName, CarOf(w, id).model);
    CacheAgreesWithMemory(p, w.file, []);
    assert C.CachedFor(Start(w.file).file, id) == C.CachedCar(CarOf(Start(w.file), id).displayName, CarOf(Start(w.file), id).model);
  }

  // ----- What inputs meet -----

  function Elapsed(steps: seq<Step>): nat {
    if steps == [] then 0
    else Elapsed(steps[..|steps| - 1]) + (if steps[|steps| - 1].Pass? then steps[|steps| - 1].d else 0)
  }

  /** When the connection was last made. */
  function LastConnect(steps: seq<Step>): Option<nat> {
    if steps == [] then None
    else if steps[|steps| - 1].Connect? then Some(Elapsed(steps[..|steps| - 1]))
    else LastConnect(steps[..|steps| - 1])
  }

  function Deliveries(steps: seq<Step>): seq<RemoteConfig.Delivery> {
    if steps == [] then []
    else
      Deliveries(steps[..|steps| - 1]) + (if steps[|steps| - 1].Configure? then [steps[|steps| - 1].delivery] else [])
  }

  lemma {:induction false} TakeEnv(p: Params, w: World, step: Step)
    ensures var w' := Take(p, w, step);
            && w'.now == (if step.Pass? then w.now + step.d else w.now)
            && w'.connectedAt == (if step.Connect? then Some(w.now) else w.connectedAt)
            && w'.store == (if step.Configure? then RemoteConfig.Applied(w.store, step.delivery) else w.store)
  {
  }

  /** In every run an input meets the time that has passed, the last connection made, and the
      configuration of the greatest usable version delivered so far. */
  lemma {:induction false} EnvIsHistory(p: Params, file: C.File, steps: seq<Step>)
    ensures var w := Run(p, file, steps);
            && w.now == Elapsed(steps) && w.connectedAt == LastConnect(steps)
            && w.store == RemoteConfig.ApplyAll(RemoteConfig.EMPTY, Deliveries(steps))
            && RemoteConfig.IsGreatest(w.store, Deliveries(steps))
            && EnvOf(p, w).knobs == KnobsOf(Some(w.store.values), p.parseFloat)
  {
    if steps != [] {
      var init, step := steps[..|steps| - 1], steps[|steps| - 1];
      EnvIsHistory(p, file, init);
      TakeEnv(p, Run(p, file, init), step);
      if step.Configure? {
        assert (Deliveries(init) + [step.delivery])[..|Deliveries(init)|] == Deliveries(init);
      } else {
        assert Deliveries(init) + [] == Deliveries(init);
      }
    }
    RemoteConfig.FinalIsGreatest(Deliveries(steps));
  }
}
