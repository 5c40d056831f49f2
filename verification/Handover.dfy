/** No event is lost between being raised and being sent, in any interleaving of messages, deferred
    timers and debounce callbacks of any number of cars. */
module Handover {
  import opened GoValues
  import opened Models
  import opened Engine
  import opened World
  import C = NameCache
  import D = Deferral
  import E = Debounce

  // ----- The debouncer as the manager drives it -----

  lemma {:induction false} EmittedLength(e: E.Emitter, p: EventPayload, now: nat, key: string)
    ensures |E.History(E.Emitted(e, p, now), key)| ==
            |E.History(e, key)| + (if key == Key(p.carID, p.eventType) then 1 else 0)
  {
  }

  /** Handing a car's payloads over lengthens the histories of that car's keys, and no others. */
  lemma {:induction false} HandAllLengths(e: E.Emitter, out: seq<Effect>, now: nat, own: string, id: string,
                                          ev: EventType)
    requires D.Strays(out, own) == 0
    ensures |E.History(HandAll(e, out, now), Key(id, ev))| ==
            |E.History(e, Key(id, ev))| + (if id == own then D.Hands(out, ev) else 0)
  {
    if out != [] {
      var init, last := out[..|out| - 1], out[|out| - 1];
      HandAllLengths(e, init, now, own, id, ev);
      if last.Handed? {
        EmittedLength(HandAll(e, init, now), last.payload, now, Key(id, ev));
        if Key(id, ev) == Key(last.payload.carID, last.payload.eventType) {
          KeyInjective(id, ev, last.payload.carID, last.payload.eventType);
        }
      }
    }
  }

  predicate HandsOver(out: seq<Effect>) {
    exists i :: 0 <= i < |out| && out[i].Handed?
  }

  /** What a step makes a car do. */
  function StepOut(p: Params, w: World, step: Step): seq<Effect> {
    var w1, cause := Background(w, step), CauseOf(p, w, step);
    if cause == Nothing then [] else Apply(Ctx(p, EnvOf(p, w1), cause.id), CarOf(w1, cause.id), cause.input).out
  }

  /** A debounce timer that is due runs its whole callback before another one starts, before time
      passes its deadline, and before a payload is handed over at that very moment. */
  ghost predicate PromptTimers(p: Params, w: World, step: Step) {
    match step
    case Expire(_, _, _) => E.NoneWaiting(w.emitter)
    case Callback(_, _, _) => true
    case Pass(d) => E.NoneWaiting(w.emitter) && E.DueFrom(w.emitter, w.now + d)
    case _ => HandsOver(StepOut(p, w, step)) ==> E.Calm(w.emitter, w.now)
  }

  ghost predicate PromptSteps(p: Params, file: C.File, steps: seq<Step>) {
    steps == [] ||
    (PromptSteps(p, file, steps[..|steps| - 1]) &&
     PromptTimers(p, Run(p, file, steps[..|steps| - 1]), steps[|steps| - 1]))
  }

  /** Handing payloads over is a series of emits. */
  lemma {:induction false} HandTrace(actions: seq<E.Action>, out: seq<Effect>, now: nat) returns (more: seq<E.Action>)
    requires E.NeverStops(actions) && E.Run(actions).now == now
    ensures E.NeverStops(more) && E.Run(more) == E.State(now, HandAll(E.Run(actions).e, out, now))
    ensures E.Calm(E.Run(actions).e, now) ==> E.Calm(E.Run(more).e, now)
    ensures E.PromptRun(actions) && (HandsOver(out) ==> E.Calm(E.Run(actions).e, now)) ==> E.PromptRun(more)
  {
    if out == [] {
      more := actions;
    } else {
      var init, last := out[..|out| - 1], out[|out| - 1];
      more := HandTrace(actions, init, now);
      assert HandsOver(init) || last.Handed? ==> HandsOver(out) by {
        assert forall i | 0 <= i < |init| :: init[i] == out[i];
        assert last == out[|out| - 1];
      }
      if last.Handed? {
        more := ThenHand(more, last.payload, now);
      }
    }
  }

  lemma {:induction false} ThenHand(actions: seq<E.Action>, payload: EventPayload, now: nat)
    returns (more: seq<E.Action>)
    requires E.NeverStops(actions) && E.Run(actions).now == now
    ensures E.NeverStops(more) && E.Run(more) == E.State(now, E.Emitted(E.Run(actions).e, payload, now))
    ensures E.Calm(E.Run(actions).e, now) ==> E.Calm(E.Run(more).e, now)
    ensures E.PromptRun(actions) && E.Calm(E.Run(actions).e, now) ==> E.PromptRun(more)
  {
    more := E.Then(actions, E.Emit(payload));
    if E.Calm(E.Run(actions).e, now) {
      E.CalmEmit(E.Run(actions).e, payload, now);
    }
  }

  /** What a step of the program does to the debouncer besides handing over. */
  lemma {:induction false} BackgroundTrace(p: Params, actions: seq<E.Action>, w: World, step: Step)
    returns (more: seq<E.Action>)
    requires E.NeverStops(actions) && E.Run(actions) == E.State(w.now, w.emitter)
    ensures E.NeverStops(more)
    ensures E.Run(more) == E.State(Background(w, step).now, Background(w, step).emitter)
    ensures E.PromptRun(actions) && PromptTimers(p, w, step) ==> E.PromptRun(more)
  {
    match step
    case Expire(id, e, n) => more := E.Then(actions, E.Expire(Key(id, e), n));
    case Callback(id, e, n) => more := E.Then(actions, E.Callback(Key(id, e), n));
    case Pass(d) => more := E.Then(actions, E.Pass(d));
    case _ => more := actions;
  }

  lemma {:induction false} CauseTrace(p: Params, actions: seq<E.Action>, w: World, step: Step)
    returns (more: seq<E.Action>)
    requires E.NeverStops(actions) && E.Run(actions) == E.State(Background(w, step).now, Background(w, step).emitter)
    ensures E.NeverStops(more) && E.Run(more) == E.State(Take(p, w, step).now, Take(p, w, step).emitter)
    ensures E.PromptRun(actions) && PromptTimers(p, w, step) ==> E.PromptRun(more)
  {
    more := actions;
    if CauseOf(p, w, step) != Nothing {
      more := HandTrace(actions, StepOut(p, w, step), Background(w, step).now);
    }
  }

  /** In every run the debouncer itself makes a run of the debounce protocol, without Stop, and one
      with prompt callbacks if its timers were prompt: so everything proved about those holds of the
      debouncer of the program. */
  lemma {:induction false} DebouncerTrace(p: Params, file: C.File, steps: seq<Step>) returns (actions: seq<E.Action>)
    ensures E.NeverStops(actions)
    ensures E.Run(actions) == E.State(Run(p, file, steps).now, Run(p, file, steps).emitter)
    ensures PromptSteps(p, file, steps) ==> E.PromptRun(actions)
  {
    if steps == [] {
      actions := [];
    } else {
      var w, step := Run(p, file, steps[..|steps| - 1]), steps[|steps| - 1];
      actions := DebouncerTrace(p, file, steps[..|steps| - 1]);
      actions := BackgroundTrace(p, actions, w, step);
      actions := CauseTrace(p, actions, w, step);
    }
  }

  /** In every run of the program with prompt debounce timers, at every moment and for every car and
      type: what went out, and what the newest timer is still to send, is one payload per burst of
      hand-overs, the last, one window after it. */
  lemma {:induction false} BurstsAreSentOnce(p: Params, file: C.File, steps: seq<Step>, id: string, ev: EventType)
    requires PromptSteps(p, file, steps)
    ensures var h := E.History(Run(p, file, steps).emitter, Key(id, ev));
            E.SentLog(h) + E.Coming(h) == E.BurstSends(E.EmitLog(h))
  {
    var actions := DebouncerTrace(p, file, steps);
    E.RefinesReference(actions, Key(id, ev));
  }

  /** And two sends of one car and type are at least a second apart. */
  lemma {:induction false} EventsApart(p: Params, file: C.File, steps: seq<Step>, id: string, ev: EventType, i: nat,
                                       j: nat)
    requires PromptSteps(p, file, steps)
    requires var h := E.History(Run(p, file, steps).emitter, Key(id, ev));
             i < j < |h| && h[i].phase.Sent? && h[j].phase.Sent?
    ensures var h := E.History(Run(p, file, steps).emitter, Key(id, ev));
            h[i].phase.at + 1_000_000_000 <= h[j].phase.at
  {
    var actions := DebouncerTrace(p, file, steps);
    E.SendsApart(actions, Key(id, ev), i, j);
  }

  // ----- When hand-overs are sent -----

  /** The payloads of one car and type among the effects, with the time they were handed over. */
  function HandedTo(out: seq<Effect>, id: string, ev: EventType, now: nat): seq<E.Emission> {
    if out == [] then []
    else
      var last := out[|out| - 1];
      HandedTo(out[..|out| - 1], id, ev, now) +
      (if last.Handed? && last.payload.carID == id && last.payload.eventType == ev then [E.Emission(last.payload, now)] else [])
  }

  /** The hand-overs of one car and type in a run. */
  function HandLog(p: Params, file: C.File, steps: seq<Step>, id: string, ev: EventType): seq<E.Emission> {
    if steps == [] then []
    else
      var init := steps[..|steps| - 1];
      var w := Run(p, file, init);
      HandLog(p, file, init, id, ev) + HandedTo(StepOut(p, w, steps[|steps| - 1]), id, ev, w.now)
  }

  /** The timers are those of the hand-overs. */
  ghost predicate Logged(h: seq<E.Timer>, log: seq<E.Emission>) {
    |h| == |log| && forall n | 0 <= n < |h| :: h[n].payload == log[n].payload && h[n].emittedAt == log[n].at
  }

  lemma {:induction false} EmitLogged(e: E.Emitter, payload: EventPayload, now: nat, key: string, log: seq<E.Emission>)
    requires Logged(E.History(e, key), log)
    ensures Logged(E.History(E.Emitted(e, payload, now), key),
                   if key == Key(payload.carID, payload.eventType) then log + [E.Emission(payload, now)] else log)
  {
  }

  lemma {:induction false} HandAllLogged(e: E.Emitter, out: seq<Effect>, now: nat, id: string, ev: EventType,
                                         log: seq<E.Emission>)
    requires Logged(E.History(e, Key(id, ev)), log)
    ensures Logged(E.History(HandAll(e, out, now), Key(id, ev)), log + HandedTo(out, id, ev, now))
  {
    if out == [] {
      assert log + [] == log;
    } else {
      var init, last := out[..|out| - 1], out[|out| - 1];
      var before := log + HandedTo(init, id, ev, now);
      HandAllLogged(e, init, now, id, ev, log);
      if last.Handed? {
        EmitLogged(HandAll(e, init, now), last.payload, now, Key(id, ev), before);
        if Key(id, ev) == Key(last.payload.carID, last.payload.eventType) {
          KeyInjective(id, ev, last.payload.carID, last.payload.eventType);
        }
      }
      LogConcat(log, HandedTo(init, id, ev, now), HandedTo(out, id, ev, now)[|HandedTo(init, id, ev, now)|..]);
    }
  }

  lemma {:induction false} LogConcat(a: seq<E.Emission>, b: seq<E.Emission>, c: seq<E.Emission>)
    ensures a + b + c == a + (b + c) && a + b + [] == a + b
  {
  }

  lemma {:induction false} BackgroundLogged(w: World, step: Step, key: string, log: seq<E.Emission>)
    requires Logged(E.History(w.emitter, key), log)
    ensures Logged(E.History(Background(w, step).emitter, key), log)
  {
  }

  lemma {:induction false} TakeLogged(p: Params, w: World, step: Step, id: string, ev: EventType, log: seq<E.Emission>)
    requires Logged(E.History(w.emitter, Key(id, ev)), log)
    ensures Logged(E.History(Take(p, w, step).emitter, Key(id, ev)), log + HandedTo(StepOut(p, w, step), id, ev, w.now))
  {
    var w1 := Background(w, step);
    BackgroundLogged(w, step, Key(id, ev), log);
    if CauseOf(p, w, step) == Nothing {
      assert log + [] == log;
    } else {
      assert w1.now == w.now;
      HandAllLogged(w1.emitter, StepOut(p, w, step), w.now, id, ev, log);
    }
  }

  /** In every run the debounce timers of a car and type are its hand-overs, in order. */
  lemma {:induction false} TimersAreHandOvers(p: Params, file: C.File, steps: seq<Step>, id: string, ev: EventType)
    ensures Logged(E.History(Run(p, file, steps).emitter, Key(id, ev)), HandLog(p, file, steps, id, ev))
  {
    if steps != [] {
      var init := steps[..|steps| - 1];
      TimersAreHandOvers(p, file, init, id, ev);
      TakeLogged(p, Run(p, file, init), steps[|steps| - 1], id, ev, HandLog(p, file, init, id, ev));
    }
  }

  /** The n-th hand-over of a log is followed by another one inside a second. */
  predicate Followed(log: seq<E.Emission>, n: nat)
    requires n < |log|
  {
    n + 1 < |log| && log[n + 1].at < log[n].at + 1_000_000_000
  }

  /** What must have been sent by now. */
  ghost predicate OnTheSecond(sends: seq<E.Send>, key: string, log: seq<E.Emission>, n: nat, now: nat)
    requires n < |log|
  {
    && (forall s | s in sends && s.key == key && s.n == n :: !Followed(log, n) && s.at == log[n].at + 1_000_000_000)
    && (!Followed(log, n) && log[n].at + 1_000_000_000 < now ==> E.Send(key, n, log[n].at + 1_000_000_000) in sends)
  }

  /** In every run of the program with prompt debounce callbacks, times in nanoseconds: hand-overs of one
      car and type come in order of time; one that is followed by another inside a second is never sent,
      and any other one is sent exactly one second after it was handed over. */
  lemma {:induction false} SentAfterOneSecond(p: Params, file: C.File, steps: seq<Step>, id: string, ev: EventType)
    requires PromptSteps(p, file, steps)
    ensures var w, log := Run(p, file, steps), HandLog(p, file, steps, id, ev);
            && (forall i, j | 0 <= i <= j < |log| :: log[i].at <= log[j].at <= w.now)
            && (forall n | 0 <= n < |log| :: OnTheSecond(w.emitter.sends, Key(id, ev), log, n, w.now))
            && (forall s | s in w.emitter.sends && s.key == Key(id, ev) :: s.n < |log|)
  {
    var w, log, key := Run(p, file, steps), HandLog(p, file, steps, id, ev), Key(id, ev);
    var actions := DebouncerTrace(p, file, steps);
    E.PromptRunSettles(actions);
    E.AtMostOnce(actions);
    TimersAreHandOvers(p, file, steps, id, ev);
    SettledOnTheSecond(w.emitter, key, log, w.now);
  }

  lemma {:induction false} SettledOnTheSecond(e: E.Emitter, key: string, log: seq<E.Emission>, now: nat)
    requires E.SettledHistory(E.History(e, key), now) && E.SentOnce(e) && Logged(E.History(e, key), log)
    ensures forall i, j | 0 <= i <= j < |log| :: log[i].at <= log[j].at <= now
    ensures forall n | 0 <= n < |log| :: OnTheSecond(e.sends, key, log, n, now)
    ensures forall s | s in e.sends && s.key == key :: s.n < |log|
  {
    var h := E.History(e, key);
    forall i, j | 0 <= i <= j < |log|
      ensures log[i].at <= log[j].at <= now
    {
      E.EmitsInOrder(h, i, j, now);
      assert E.Settled(h, j, now);
      assert h[i].emittedAt == log[i].at && h[j].emittedAt == log[j].at;
    }
    forall n | 0 <= n < |log|
      ensures OnTheSecond(e.sends, key, log, n, now)
    {
      SettledOne(e, key, log, n, now);
    }
  }

  lemma {:induction false} SettledOne(e: E.Emitter, key: string, log: seq<E.Emission>, n: nat, now: nat)
    requires E.SettledHistory(E.History(e, key), now) && E.SentOnce(e) && Logged(E.History(e, key), log)
    requires n < |log|
    ensures OnTheSecond(e.sends, key, log, n, now)
  {
    var h := E.History(e, key);
    assert E.Settled(h, n, now) && h[n].emittedAt == log[n].at;
    assert n + 1 < |h| ==> h[n + 1].emittedAt == log[n + 1].at;
  }

  // ----- Sleeping goroutines -----

  /** When the goroutines of one car and type wake up, in the order they were started. */
  function Alarms(ss: seq<Sleeper>, id: string, ev: EventType): seq<nat> {
    if ss == [] then []
    else Alarms(ss[..|ss| - 1], id, ev) +
         (if ss[|ss| - 1].carID == id && ss[|ss| - 1].event == ev then [ss[|ss| - 1].due] else [])
  }

  function DropFirst(ds: seq<nat>, d: nat): (r: seq<nat>)
    ensures |r| == if d in ds then |ds| - 1 else |ds|
  {
    if ds == [] then [] else if ds[0] == d then ds[1..] else [ds[0]] + DropFirst(ds[1..], d)
  }

  lemma {:induction false} AlarmsConcat(a: seq<Sleeper>, b: seq<Sleeper>, id: string, ev: EventType)
    ensures Alarms(a + b, id, ev) == Alarms(a, id, ev) + Alarms(b, id, ev)
  {
    if b == [] {
      assert a + b == a;
    } else {
      AlarmsConcat(a, b[..|b| - 1], id, ev);
      assert (a + b)[..|a + b| - 1] == a + b[..|b| - 1];
    }
  }

  lemma {:induction false} AlarmsFirst(ss: seq<Sleeper>, id: string, ev: EventType)
    requires ss != []
    ensures Alarms(ss, id, ev) == (if ss[0].carID == id && ss[0].event == ev then [ss[0].due] else []) + Alarms(ss[1..], id, ev)
  {
    assert ss == [ss[0]] + ss[1..];
    AlarmsConcat([ss[0]], ss[1..], id, ev);
    assert [ss[0]][..0] == [];
  }

  lemma {:induction false} AlarmsWithout(ss: seq<Sleeper>, s: Sleeper, id: string, ev: EventType)
    ensures Alarms(Without(ss, s), id, ev) ==
            if s in ss && s.carID == id && s.event == ev then DropFirst(Alarms(ss, id, ev), s.due) else Alarms(ss, id, ev)
    ensures s in ss && s.carID == id && s.event == ev ==> s.due in Alarms(ss, id, ev)
  {
    if ss != [] {
      AlarmsFirst(ss, id, ev);
      if ss[0] != s {
        var rest := Without(ss[1..], s);
        AlarmsWithout(ss[1..], s, id, ev);
        AlarmsFirst([ss[0]] + rest, id, ev);
        assert ([ss[0]] + rest)[1..] == rest;
        assert s in ss <==> s in ss[1..];
        if s in ss && s.carID == id && s.event == ev {
          DropFirstCons(if ss[0].carID == id && ss[0].event == ev then [ss[0].due] else [], Alarms(ss[1..], id, ev), s.due);
        }
      } else if s.carID == id && s.event == ev {
        DropFirstHead(s.due, Alarms(ss[1..], id, ev));
      }
    }
  }

  lemma {:induction false} DropFirstHead(d: nat, ds: seq<nat>)
    ensures DropFirst([d] + ds, d) == ds
  {
    assert ([d] + ds)[1..] == ds;
  }

  lemma {:induction false} DropFirstCons(head: seq<nat>, ds: seq<nat>, d: nat)
    requires |head| <= 1 && d !in head
    ensures DropFirst(head + ds, d) == head + DropFirst(ds, d)
  {
    if head == [] {
      assert head + ds == ds && head + DropFirst(ds, d) == DropFirst(ds, d);
    } else {
      assert (head + ds)[1..] == ds;
    }
  }

  lemma {:induction false} SleepersAlarms(own: string, out: seq<Effect>, id: string, ev: EventType)
    ensures Alarms(Sleepers(own, out), id, ev) == if id == own then D.Defers(out, ev) else []
  {
    if out != [] {
      SleepersAlarms(own, out[..|out| - 1], id, ev);
      var tail := Sleepers(own, out)[|Sleepers(own, out[..|out| - 1])|..];
      AlarmsConcat(Sleepers(own, out[..|out| - 1]), tail, id, ev);
      if tail != [] {
        assert tail[..0] == [];
      }
    }
  }

  lemma {:induction false} AlarmsMembers(ss: seq<Sleeper>, id: string, ev: EventType, d: nat)
    ensures d in Alarms(ss, id, ev) <==> Sleeper(id, ev, d) in ss
  {
    if ss != [] {
      AlarmsMembers(ss[..|ss| - 1], id, ev, d);
      assert ss == ss[..|ss| - 1] + [ss[|ss| - 1]];
    }
  }

  // ----- What each step does to one car and type -----

  /** Conservation for one car and type: raised = handed to the debouncer + still pending. */
  ghost predicate Conserved(p: Params, w: World, id: string, ev: EventType) {
    D.Raises(LogOf(p, w, id).out, ev) == |E.History(w.emitter, Key(id, ev))| + |D.Dues(CarOf(w, id).pending, ev)|
  }

  lemma {:induction false} InputConserves(p: Params, w: World, own: string, i: Input, id: string, ev: EventType)
    requires LivesApart(p, w) && Conserved(p, w, id, ev)
    ensures Conserved(p, Feed(p, w, own, i), id, ev)
  {
    var w' := Feed(p, w, own, i);
    if id == own {
      OwnInputConserves(p, w, i, id, ev);
    } else {
      FeedHands(p, w, own, i, id, ev);
      assert LogOf(p, w', id) == LogOf(p, w, id) && CarOf(w', id) == CarOf(w, id);
    }
  }

  /** What an input adds to the debouncer's history of one key. */
  lemma {:induction false} FeedHands(p: Params, w: World, own: string, i: Input, id: string, ev: EventType)
    ensures |E.History(Feed(p, w, own, i).emitter, Key(id, ev))| ==
            |E.History(w.emitter, Key(id, ev))| +
            (if id == own then D.Hands(Apply(Ctx(p, EnvOf(p, w), own), CarOf(w, own), i).out, ev) else 0)
  {
    var x, c := Ctx(p, EnvOf(p, w), own), CarOf(w, own);
    D.InputBalanced(x, c, i, ev);
    HandAllLengths(w.emitter, Apply(x, c, i).out, w.now, own, id, ev);
  }

  lemma {:induction false} OwnInputConserves(p: Params, w: World, i: Input, id: string, ev: EventType)
    requires LivesApart(p, w) && Conserved(p, w, id, ev)
    ensures Conserved(p, Feed(p, w, id, i), id, ev)
  {
    var env := EnvOf(p, w);
    var x, c := Ctx(p, env, id), CarOf(w, id);
    var r := Apply(x, c, i);
    D.InputBalanced(x, c, i, ev);
    FeedHands(p, w, id, i, id, ev);
    LifeSnoc(p, id, Restored(C.CachedFor(w.origin, id)), LifeOf(w, id), Event(env, i));
    D.Concat(LogOf(p, w, id).out, r.out, ev, id);
  }

  lemma {:induction false} BackgroundKeepsLengths(w: World, step: Step, key: string)
    ensures |E.History(Background(w, step).emitter, key)| == |E.History(w.emitter, key)|
  {
  }

  lemma {:induction false} SameConserved(p: Params, w: World, w': World, id: string, ev: EventType)
    requires Conserved(p, w, id, ev)
    requires w'.cars == w.cars && w'.lives == w.lives && w'.origin == w.origin
    requires |E.History(w'.emitter, Key(id, ev))| == |E.History(w.emitter, Key(id, ev))|
    ensures Conserved(p, w', id, ev)
  {
    assert LogOf(p, w', id) == LogOf(p, w, id) && CarOf(w', id) == CarOf(w, id);
  }

  lemma {:induction false} TakeConserves(p: Params, w: World, step: Step, id: string, ev: EventType)
    requires LivesApart(p, w) && Conserved(p, w, id, ev)
    ensures Conserved(p, Take(p, w, step), id, ev)
  {
    var w1 := Background(w, step);
    var cause := CauseOf(p, w, step);
    BackgroundKeepsCars(w, step);
    BackgroundKeepsLengths(w, step, Key(id, ev));
    SameLives(p, w, w1);
    SameConserved(p, w, w1, id, ev);
    var w2 := if cause == Nothing then w1 else Feed(p, w1, cause.id, cause.input);
    if cause != Nothing {
      InputConserves(p, w1, cause.id, cause.input, id, ev);
    }
    SameConserved(p, w2, Take(p, w, step), id, ev);
  }

  lemma {:induction false} SameRecord(p: Params, w: World, w': World, id: string)
    requires w' == w.(file := w'.file)
    ensures LogOf(p, w', id) == LogOf(p, w, id) && CarOf(w', id) == CarOf(w, id)
  {
  }

  /** In every run, for every car and type: raised = handed to the debouncer + still pending. */
  lemma {:induction false} EventsAreConserved(p: Params, file: C.File, steps: seq<Step>, id: string, ev: EventType)
    ensures Conserved(p, Run(p, file, steps), id, ev)
  {
    if steps != [] {
      EventsAreConserved(p, file, steps[..|steps| - 1], id, ev);
      EveryCarLeadsALife(p, file, steps[..|steps| - 1]);
      TakeConserves(p, Run(p, file, steps[..|steps| - 1]), steps[|steps| - 1], id, ev);
    }
  }

  // ----- Pending entries and their goroutines -----

  function DuesIn(w: World, id: string, ev: EventType): seq<nat> {
    D.Dues(CarOf(w, id).pending, ev)
  }

  function AlarmsIn(w: World, id: string, ev: EventType): seq<nat> {
    Alarms(w.sleepers, id, ev)
  }

  /** The step wakes a goroutine of this car and type. */
  predicate Wakes(w: World, step: Step, id: string, ev: EventType) {
    step.WakeUp? && Awake(w, step.s) && step.s.carID == id && step.s.event == ev
  }

  /** What a step defers, for one car and type. */
  function Added(p: Params, w: World, step: Step, id: string, ev: EventType): seq<nat> {
    var cause := CauseOf(p, w, step);
    if cause == Nothing || cause.id != id then [] else D.Defers(StepOut(p, w, step), ev)
  }

  lemma {:induction false} FeedMoves(p: Params, w: World, own: string, i: Input, id: string, ev: EventType)
    ensures var w' := Feed(p, w, own, i);
            var added := if own == id then D.Defers(Apply(Ctx(p, EnvOf(p, w), id), CarOf(w, id), i).out, ev) else [];
            && AlarmsIn(w', id, ev) == AlarmsIn(w, id, ev) + added
            && (forall d | d in added :: d == w.now + DEFER_DELAY)
            && (if own == id && i == Wake(ev) then
                  added == [] && DuesIn(w', id, ev) == if DuesIn(w, id, ev) == [] then [] else DuesIn(w, id, ev)[1..]
                else
                  DuesIn(w', id, ev) == DuesIn(w, id, ev) + added || DuesIn(w', id, ev) == [])
  {
    var x, c := Ctx(p, EnvOf(p, w), own), CarOf(w, own);
    var out := Apply(x, c, i).out;
    D.InputDues(x, c, i, ev);
    AlarmsConcat(w.sleepers, Sleepers(own, out), id, ev);
    SleepersAlarms(own, out, id, ev);
    if own != id {
      assert CarOf(Feed(p, w, own, i), id) == CarOf(w, id);
    }
  }

  /** What a step does to the wake-up times of one car and type, in the pending list and asleep: it
      wakes a goroutine, which takes the oldest pending entry, or it adds entries and goroutines in
      equal number, and may then clear all entries. */
  ghost predicate Moved(before: seq<nat>, after: seq<nat>, alarms: seq<nat>, alarms': seq<nat>, added: seq<nat>,
                        woken: Option<nat>, now: nat) {
    if woken.Some? then
      && woken.value in alarms && alarms' == DropFirst(alarms, woken.value)
      && after == if before == [] then [] else before[1..]
    else
      && alarms' == alarms + added
      && (after == before + added || after == [])
      && (forall d | d in added :: d == now + DEFER_DELAY)
  }

  function Woken(w: World, step: Step, id: string, ev: EventType): Option<nat> {
    if Wakes(w, step, id, ev) then Some(step.s.due) else None
  }

  lemma {:induction false} TakeMoves(p: Params, w: World, step: Step, id: string, ev: EventType)
    ensures var w' := Take(p, w, step);
            Moved(DuesIn(w, id, ev), DuesIn(w', id, ev), AlarmsIn(w, id, ev), AlarmsIn(w', id, ev),
                  Added(p, w, step, id, ev), Woken(w, step, id, ev), w.now)
  {
    if CauseOf(p, w, step) == Nothing {
      QuietMoves(p, w, step, id, ev);
    } else {
      CausedMoves(p, w, step, id, ev);
    }
  }

  lemma {:induction false} QuietMoves(p: Params, w: World, step: Step, id: string, ev: EventType)
    requires CauseOf(p, w, step) == Nothing
    ensures var w' := Take(p, w, step);
            Moved(DuesIn(w, id, ev), DuesIn(w', id, ev), AlarmsIn(w, id, ev), AlarmsIn(w', id, ev),
                  [], Woken(w, step, id, ev), w.now)
  {
    BackgroundMoves(w, step, id, ev);
    SameRecord(p, Background(w, step), Take(p, w, step), id);
    assert AlarmsIn(w, id, ev) + [] == AlarmsIn(w, id, ev) && DuesIn(w, id, ev) + [] == DuesIn(w, id, ev);
  }

  lemma {:induction false} CausedMoves(p: Params, w: World, step: Step, id: string, ev: EventType)
    requires CauseOf(p, w, step) != Nothing
    ensures var w' := Take(p, w, step);
            Moved(DuesIn(w, id, ev), DuesIn(w', id, ev), AlarmsIn(w, id, ev), AlarmsIn(w', id, ev),
                  Added(p, w, step, id, ev), Woken(w, step, id, ev), w.now)
  {
    var cause := CauseOf(p, w, step);
    FedMoves(p, w, step, id, ev);
    SameRecord(p, Feed(p, Background(w, step), cause.id, cause.input), Take(p, w, step), id);
  }

  lemma {:induction false} FedMoves(p: Params, w: World, step: Step, id: string, ev: EventType)
    requires CauseOf(p, w, step) != Nothing
    ensures var cause := CauseOf(p, w, step);
            var w2 := Feed(p, Background(w, step), cause.id, cause.input);
            Moved(DuesIn(w, id, ev), DuesIn(w2, id, ev), AlarmsIn(w, id, ev), AlarmsIn(w2, id, ev),
                  Added(p, w, step, id, ev), Woken(w, step, id, ev), w.now)
  {
    var w1, cause := Background(w, step), CauseOf(p, w, step);
    var w2 := Feed(p, w1, cause.id, cause.input);
    BackgroundMoves(w, step, id, ev);
    FeedMoves(p, w1, cause.id, cause.input, id, ev);
    CauseMoves(p, w, step, id, ev);
    ComposeMoves(DuesIn(w, id, ev), DuesIn(w2, id, ev), AlarmsIn(w, id, ev), AlarmsIn(w1, id, ev), AlarmsIn(w2, id, ev),
                 Added(p, w, step, id, ev), Woken(w, step, id, ev), w.now);
  }

  /** First the goroutine that wakes up is gone, then the car moves. */
  lemma {:induction false} ComposeMoves(before: seq<nat>, after: seq<nat>, alarms: seq<nat>, alarms1: seq<nat>,
                                        alarms': seq<nat>, added: seq<nat>, woken: Option<nat>, now: nat)
    requires if woken.Some? then woken.value in alarms && alarms1 == DropFirst(alarms, woken.value) else alarms1 == alarms
    requires alarms' == alarms1 + added && forall d | d in added :: d == now + DEFER_DELAY
    requires if woken.Some? then added == [] && after == (if before == [] then [] else before[1..])
             else after == before + added || after == []
    ensures Moved(before, after, alarms, alarms', added, woken, now)
  {
    assert alarms1 + [] == alarms1;
  }

  lemma {:induction false} BackgroundMoves(w: World, step: Step, id: string, ev: EventType)
    ensures var w1 := Background(w, step);
            && DuesIn(w1, id, ev) == DuesIn(w, id, ev)
            && (if Wakes(w, step, id, ev) then
                  step.s.due in AlarmsIn(w, id, ev) && AlarmsIn(w1, id, ev) == DropFirst(AlarmsIn(w, id, ev), step.s.due)
                else AlarmsIn(w1, id, ev) == AlarmsIn(w, id, ev))
  {
    BackgroundKeepsCars(w, step);
    if step.WakeUp? && Awake(w, step.s) {
      AlarmsWithout(w.sleepers, step.s, id, ev);
    } else {
      assert Background(w, step).sleepers == w.sleepers;
    }
  }

  /** A goroutine of this car and type wakes up exactly when the car gets that wake-up as its input,
      or is unknown. */
  lemma {:induction false} CauseMoves(p: Params, w: World, step: Step, id: string, ev: EventType)
    requires CauseOf(p, w, step) != Nothing
    ensures Wakes(w, step, id, ev) <==> CauseOf(p, w, step) == Cause(id, Wake(ev))
    ensures Background(w, step).now == w.now
  {
  }

  lemma {:induction false} StartMoves(file: C.File, id: string, ev: EventType)
    ensures DuesIn(Start(file), id, ev) == [] && AlarmsIn(Start(file), id, ev) == []
  {
    assert CarOf(Start(file), id).pending == [];
  }

  /** In every run and any firing order, a car never has more pending entries of a type than
      goroutines to wake up for them. */
  lemma {:induction false} EveryEntryIsCovered(p: Params, file: C.File, steps: seq<Step>, id: string, ev: EventType)
    ensures |DuesIn(Run(p, file, steps), id, ev)| <= |AlarmsIn(Run(p, file, steps), id, ev)|
  {
    if steps == [] {
      StartMoves(file, id, ev);
    } else {
      EveryEntryIsCovered(p, file, steps[..|steps| - 1], id, ev);
      TakeMoves(p, Run(p, file, steps[..|steps| - 1]), steps[|steps| - 1], id, ev);
    }
  }

  // ----- Goroutines that wake up in deadline order -----

  /** No goroutine overtakes an earlier one of its own car and type. */
  ghost predicate InOrder(w: World, step: Step) {
    step.WakeUp? && Awake(w, step.s) ==>
      forall d | d in AlarmsIn(w, step.s.carID, step.s.event) :: step.s.due <= d
  }

  ghost predicate OrderedRun(p: Params, file: C.File, steps: seq<Step>) {
    steps == [] ||
    (OrderedRun(p, file, steps[..|steps| - 1]) && InOrder(Run(p, file, steps[..|steps| - 1]), steps[|steps| - 1]))
  }

  /** The pending entries, oldest first, are the latest of the outstanding goroutines, in order. */
  ghost predicate OwnTimers(dues: seq<nat>, alarms: seq<nat>, now: nat) {
    && |dues| <= |alarms| && alarms[|alarms| - |dues|..] == dues
    && (forall i, j | 0 <= i <= j < |alarms| :: alarms[i] <= alarms[j])
    && (forall d | d in alarms :: d <= now + DEFER_DELAY)
  }

  lemma {:induction false} OwnTimersWake(dues: seq<nat>, alarms: seq<nat>, now: nat, due: nat)
    requires OwnTimers(dues, alarms, now)
    requires due in alarms && forall d | d in alarms :: due <= d
    ensures OwnTimers(if dues == [] then [] else dues[1..], DropFirst(alarms, due), now)
  {
    assert alarms[0] in alarms;
    assert DropFirst(alarms, due) == alarms[1..];
    assert forall d | d in alarms[1..] :: d in alarms;
  }

  lemma {:induction false} OwnTimersAdd(dues: seq<nat>, alarms: seq<nat>, now: nat, added: seq<nat>)
    requires OwnTimers(dues, alarms, now)
    requires forall d | d in added :: d == now + DEFER_DELAY
    ensures OwnTimers(dues + added, alarms + added, now) && OwnTimers([], alarms + added, now)
  {
    var all := alarms + added;
    forall i, j | 0 <= i <= j < |all|
      ensures all[i] <= all[j]
    {
      if j >= |alarms| {
        assert all[j] == added[j - |alarms|] && added[j - |alarms|] in added;
        assert if i < |alarms| then all[i] in alarms else all[i] in added;
      }
    }
    assert all[|all| - |dues + added|..] == dues + added;
  }

  lemma {:induction false} OwnTimersLater(dues: seq<nat>, alarms: seq<nat>, now: nat, later: nat)
    requires OwnTimers(dues, alarms, now) && now <= later
    ensures OwnTimers(dues, alarms, later)
  {
  }

  lemma {:induction false} TakeClock(p: Params, w: World, step: Step)
    ensures Take(p, w, step).now == if step.Pass? then w.now + step.d else w.now
  {
  }

  lemma {:induction false} TimersInOrder(p: Params, file: C.File, steps: seq<Step>, id: string, ev: EventType)
    requires OrderedRun(p, file, steps)
    ensures var w := Run(p, file, steps); OwnTimers(DuesIn(w, id, ev), AlarmsIn(w, id, ev), w.now)
  {
    if steps == [] {
      StartMoves(file, id, ev);
    } else {
      var w, step := Run(p, file, steps[..|steps| - 1]), steps[|steps| - 1];
      var dues, alarms := DuesIn(w, id, ev), AlarmsIn(w, id, ev);
      TimersInOrder(p, file, steps[..|steps| - 1], id, ev);
      TakeMoves(p, w, step, id, ev);
      TakeClock(p, w, step);
      if Wakes(w, step, id, ev) {
        OwnTimersWake(dues, alarms, w.now, step.s.due);
      } else {
        OwnTimersAdd(dues, alarms, w.now, Added(p, w, step, id, ev));
        OwnTimersLater(DuesIn(Take(p, w, step), id, ev), AlarmsIn(Take(p, w, step), id, ev), w.now, Take(p, w, step).now);
      }
    }
  }

  /** When goroutines of one car and type wake up in deadline order, every pending entry's own timer
      is still outstanding, even where stale timers have taken newer entries. */
  lemma {:induction false} OwnTimerOutstanding(p: Params, file: C.File, steps: seq<Step>, id: string, entry: Pending)
    requires OrderedRun(p, file, steps)
    requires entry in CarOf(Run(p, file, steps), id).pending
    ensures Sleeper(id, entry.event, entry.due) in Run(p, file, steps).sleepers
  {
    var w := Run(p, file, steps);
    TimersInOrder(p, file, steps, id, entry.event);
    EntryDue(CarOf(w, id).pending, entry);
    var alarms := AlarmsIn(w, id, entry.event);
    assert entry.due in alarms[|alarms| - |DuesIn(w, id, entry.event)|..];
    AlarmsMembers(w.sleepers, id, entry.event, entry.due);
  }

  lemma {:induction false} EntryDue(ps: seq<Pending>, entry: Pending)
    requires entry in ps
    ensures entry.due in D.Dues(ps, entry.event)
  {
    if ps[|ps| - 1] != entry {
      assert ps == ps[..|ps| - 1] + [ps[|ps| - 1]];
      EntryDue(ps[..|ps| - 1], entry);
    }
  }

  /** Time does not pass a sleeping goroutine's deadline. */
  ghost predicate NeverLate(w: World, step: Step) {
    step.Pass? ==> forall s | s in w.sleepers :: w.now + step.d <= s.due
  }

  ghost predicate PunctualRun(p: Params, file: C.File, steps: seq<Step>) {
    steps == [] ||
    (PunctualRun(p, file, steps[..|steps| - 1]) && NeverLate(Run(p, file, steps[..|steps| - 1]), steps[|steps| - 1]))
  }

  lemma {:induction false} SleepersFuture(id: string, out: seq<Effect>, now: nat)
    requires forall e :: forall d | d in D.Defers(out, e) :: now <= d
    ensures forall s | s in Sleepers(id, out) :: now <= s.due
  {
    forall s | s in Sleepers(id, out)
      ensures now <= s.due
    {
      SleepersCar(id, out, s);
      AlarmsMembers(Sleepers(id, out), id, s.event, s.due);
      SleepersAlarms(id, out, id, s.event);
    }
  }

  lemma {:induction false} SleepersCar(id: string, out: seq<Effect>, s: Sleeper)
    requires s in Sleepers(id, out)
    ensures s.carID == id
  {
    if s in Sleepers(id, out[..|out| - 1]) {
      SleepersCar(id, out[..|out| - 1], s);
    }
  }

  lemma {:induction false} WithoutMembers(ss: seq<Sleeper>, s: Sleeper)
    ensures forall t | t in Without(ss, s) :: t in ss
  {
    if ss != [] && ss[0] != s {
      WithoutMembers(ss[1..], s);
    }
  }

  lemma {:induction false} NoSleeperIsLate(p: Params, file: C.File, steps: seq<Step>)
    requires PunctualRun(p, file, steps)
    ensures forall s | s in Run(p, file, steps).sleepers :: Run(p, file, steps).now <= s.due
  {
    if steps != [] {
      var w, step := Run(p, file, steps[..|steps| - 1]), steps[|steps| - 1];
      NoSleeperIsLate(p, file, steps[..|steps| - 1]);
      TakeSleepers(p, w, step);
    }
  }

  lemma {:induction false} TakeSleepers(p: Params, w: World, step: Step)
    requires NeverLate(w, step)
    requires forall s | s in w.sleepers :: w.now <= s.due
    ensures forall s | s in Take(p, w, step).sleepers :: Take(p, w, step).now <= s.due
  {
    var w1, cause := Background(w, step), CauseOf(p, w, step);
    if step.WakeUp? {
      WithoutMembers(w.sleepers, step.s);
    }
    TakeClock(p, w, step);
    if cause != Nothing {
      var x, c := Ctx(p, EnvOf(p, w1), cause.id), CarOf(w1, cause.id);
      forall e
        ensures forall d | d in D.Defers(Apply(x, c, cause.input).out, e) :: w.now <= d
      {
        D.InputDues(x, c, cause.input, e);
      }
      SleepersFuture(cause.id, Apply(x, c, cause.input).out, w.now);
    }
  }

  /** Goroutines that wake up on time wake up in deadline order. */
  lemma {:induction false} PunctualIsOrdered(p: Params, file: C.File, steps: seq<Step>)
    requires PunctualRun(p, file, steps)
    ensures OrderedRun(p, file, steps)
  {
    if steps != [] {
      var init, step := steps[..|steps| - 1], steps[|steps| - 1];
      var w := Run(p, file, init);
      PunctualIsOrdered(p, file, init);
      NoSleeperIsLate(p, file, init);
      if step.WakeUp? {
        forall d | d in AlarmsIn(w, step.s.carID, step.s.event)
          ensures w.now <= d
        {
          AlarmsMembers(w.sleepers, step.s.carID, step.s.event, d);
        }
      }
    }
  }

  /** With goroutines that wake up on time, no event stays pending for more than 30 seconds. */
  lemma {:induction false} PendingAtMostThirtySeconds(p: Params, file: C.File, steps: seq<Step>, id: string,
                                                      entry: Pending)
    requires PunctualRun(p, file, steps)
    requires entry in CarOf(Run(p, file, steps), id).pending
    ensures Run(p, file, steps).now <= entry.due <= Run(p, file, steps).now + 30_000_000_000
  {
    PunctualIsOrdered(p, file, steps);
    OwnTimerOutstanding(p, file, steps, id, entry);
    NoSleeperIsLate(p, file, steps);
    var w := Run(p, file, steps);
    TimersInOrder(p, file, steps, id, entry.event);
    AlarmsMembers(w.sleepers, id, entry.event, entry.due);
  }

  // ----- End to end -----

  /** Every goroutine of the car and type has woken up, and every debounce timer of them has run out. */
  ghost predicate Quiet(w: World, id: string, ev: EventType) {
    AlarmsIn(w, id, ev) == [] && E.AtRest(w.emitter, Key(id, ev))
  }

  /** Once that is so, for any car and type, whatever the others do: exactly as many payloads went to
      the debouncer as events were raised; each of them was sent, or dropped in favour of a later one;
      the last one was sent; and none was sent twice. */
  lemma {:induction false} NoSilentLoss(p: Params, file: C.File, steps: seq<Step>, id: string, ev: EventType)
    requires Quiet(Run(p, file, steps), id, ev)
    ensures var w := Run(p, file, steps);
            var h := E.History(w.emitter, Key(id, ev));
            && |h| == D.Raises(LogOf(p, w, id).out, ev)
            && (forall n | 0 <= n < |h| :: h[n].payload.carID == id && h[n].payload.eventType == ev)
            && (forall n | 0 <= n < |h| :: h[n].phase.Sent? || (h[n].phase.Cancelled? && n + 1 < |h|))
            && (h != [] ==> h[|h| - 1].phase.Sent?)
            && E.SentOnce(w.emitter)
  {
    var w := Run(p, file, steps);
    var h := E.History(w.emitter, Key(id, ev));
    EventsAreConserved(p, file, steps, id, ev);
    EveryEntryIsCovered(p, file, steps, id, ev);
    var actions := DebouncerTrace(p, file, steps);
    E.AtMostOnce(actions);
    E.NewestNeverDropped(actions);
    E.OwnKeysOnly(actions);
    QuietHistory(w.emitter, id, ev);
  }

  lemma {:induction false} QuietHistory(e: E.Emitter, id: string, ev: EventType)
    requires E.Tracked(e) && E.KeyedRight(e) && E.AtRest(e, Key(id, ev))
    ensures var h := E.History(e, Key(id, ev));
            && (forall n | 0 <= n < |h| :: h[n].payload.carID == id && h[n].payload.eventType == ev)
            && (forall n | 0 <= n < |h| :: h[n].phase.Sent? || (h[n].phase.Cancelled? && n + 1 < |h|))
  {
    var h := E.History(e, Key(id, ev));
    forall n | 0 <= n < |h|
      ensures h[n].payload.carID == id && h[n].payload.eventType == ev
      ensures h[n].phase.Sent? || (h[n].phase.Cancelled? && n + 1 < |h|)
    {
      KeyInjective(h[n].payload.carID, h[n].payload.eventType, id, ev);
      assert !h[n].Live();
    }
  }
}
