/** What raising, deferring and flushing do to one car's pending list. */
module Deferral {
  import opened GoValues
  import opened Models
  import opened Tuning
  import opened Engine
  import T = Topics

  // ----- Accounts of an effect list, per event type -----

  function Raises(out: seq<Effect>, e: EventType): nat {
    if out == [] then 0
    else Raises(out[..|out| - 1], e) + (if out[|out| - 1].Raised? && out[|out| - 1].event == e then 1 else 0)
  }

  function Hands(out: seq<Effect>, e: EventType): nat {
    if out == [] then 0
    else Hands(out[..|out| - 1], e) + (if out[|out| - 1].Handed? && out[|out| - 1].payload.eventType == e then 1 else 0)
  }

  /** The wake-up times of the events deferred. */
  function Defers(out: seq<Effect>, e: EventType): seq<nat> {
    if out == [] then []
    else Defers(out[..|out| - 1], e) + (if out[|out| - 1].Deferred? && out[|out| - 1].event == e then [out[|out| - 1].due] else [])
  }

  /** The wake-up times of the pending entries, oldest entry first. */
  function Dues(ps: seq<Pending>, e: EventType): seq<nat> {
    if ps == [] then []
    else Dues(ps[..|ps| - 1], e) + (if ps[|ps| - 1].event == e then [ps[|ps| - 1].due] else [])
  }

  /** How many payloads handed over are not this car's. */
  function Strays(out: seq<Effect>, id: string): nat {
    if out == [] then 0
    else Strays(out[..|out| - 1], id) + (if out[|out| - 1].Handed? && out[|out| - 1].payload.carID != id then 1 else 0)
  }

  lemma {:induction false} Snoc(out: seq<Effect>, a: Effect, e: EventType, id: string)
    ensures Strays(out + [a], id) == Strays(out, id) + (if a.Handed? && a.payload.carID != id then 1 else 0)
    ensures Raises(out + [a], e) == Raises(out, e) + (if a.Raised? && a.event == e then 1 else 0)
    ensures Hands(out + [a], e) == Hands(out, e) + (if a.Handed? && a.payload.eventType == e then 1 else 0)
    ensures Defers(out + [a], e) == Defers(out, e) + (if a.Deferred? && a.event == e then [a.due] else [])
  {
    assert (out + [a])[..|out|] == out;
  }

  lemma {:induction false} Concat(a: seq<Effect>, b: seq<Effect>, e: EventType, id: string)
    ensures Strays(a + b, id) == Strays(a, id) + Strays(b, id)
    ensures Raises(a + b, e) == Raises(a, e) + Raises(b, e)
    ensures Hands(a + b, e) == Hands(a, e) + Hands(b, e)
    ensures Defers(a + b, e) == Defers(a, e) + Defers(b, e)
  {
    if b == [] {
      assert a + b == a;
    } else {
      var init, last := b[..|b| - 1], b[|b| - 1];
      Concat(a, init, e, id);
      assert b == init + [last];
      assert a + b == (a + init) + [last];
      Snoc(a + init, last, e, id);
      Snoc(init, last, e, id);
    }
  }

  lemma {:induction false} DuesSnoc(ps: seq<Pending>, p: Pending, e: EventType)
    ensures Dues(ps + [p], e) == Dues(ps, e) + (if p.event == e then [p.due] else [])
  {
    assert (ps + [p])[..|ps|] == ps;
  }

  lemma {:induction false} DuesConcat(a: seq<Pending>, b: seq<Pending>, e: EventType)
    ensures Dues(a + b, e) == Dues(a, e) + Dues(b, e)
  {
    if b == [] {
      assert a + b == a;
    } else {
      var init, last := b[..|b| - 1], b[|b| - 1];
      DuesConcat(a, init, e);
      assert b == init + [last];
      assert a + b == (a + init) + [last];
      DuesSnoc(a + init, last, e);
      DuesSnoc(init, last, e);
      var due := if last.event == e then [last.due] else [];
      assert Dues(a, e) + Dues(init, e) + due == Dues(a, e) + (Dues(init, e) + due);
    }
  }

  // ----- Raising -----

  /** The result of raising events on a car whose pending list was ps, seen from one type: each one
      was handed over, or was not ready and now waits at the end of the list, with a timer. */
  ghost predicate Raising(x: Ctx, ps: seq<Pending>, r: Res, e: EventType) {
    && Dues(r.car.pending, e) == Dues(ps, e) + Defers(r.out, e)
    && Raises(r.out, e) == Hands(r.out, e) + |Defers(r.out, e)|
    && (Defers(r.out, e) != [] ==> !Ready(e, r.car))
    && (forall d | d in Defers(r.out, e) :: d == x.env.now + DEFER_DELAY)
    && Strays(r.out, x.id) == 0
  }

  lemma {:induction false} RaisingHand(x: Ctx, ps: seq<Pending>, r: Res, raised: EventType, geofence: string,
                                       payload: EventPayload, e: EventType)
    requires Raising(x, ps, r, e)
    requires payload.eventType == raised && payload.carID == x.id
    ensures Raising(x, ps, Res(r.car, r.out + [Raised(raised, geofence), Handed(payload)]), e)
  {
    var a, b := Raised(raised, geofence), Handed(payload);
    Snoc(r.out, a, e, x.id);
    Snoc(r.out + [a], b, e, x.id);
    assert r.out + [a, b] == r.out + [a] + [b];
  }

  /** The effects of one deferral, seen from one type. */
  lemma {:induction false} DeferredOut(out: seq<Effect>, raised: EventType, geofence: string, due: nat, e: EventType,
                                       id: string)
    ensures var longer := out + [Raised(raised, geofence), Deferred(raised, due)];
            && Strays(longer, id) == Strays(out, id) && Hands(longer, e) == Hands(out, e)
            && Raises(longer, e) == Raises(out, e) + (if raised == e then 1 else 0)
            && Defers(longer, e) == if raised == e then Defers(out, e) + [due] else Defers(out, e)
  {
    var a, b := Raised(raised, geofence), Deferred(raised, due);
    Snoc(out, a, e, id);
    Snoc(out + [a], b, e, id);
    assert out + [a, b] == out + [a] + [b];
    assert Defers(out, e) + [] == Defers(out, e);
  }

  lemma {:induction false} RaisingDefer(x: Ctx, ps: seq<Pending>, r: Res, raised: EventType, geofence: string,
                                        c: Car, e: EventType)
    requires Raising(x, ps, r, e)
    requires !Ready(raised, c) && Ready(e, c) == Ready(e, r.car)
    requires c.pending == r.car.pending + [Pending(raised, x.env.now + DEFER_DELAY)]
    ensures Raising(x, ps, Res(c, r.out + [Raised(raised, geofence), Deferred(raised, x.env.now + DEFER_DELAY)]), e)
  {
    var due := x.env.now + DEFER_DELAY;
    DeferredOut(r.out, raised, geofence, due, e, x.id);
    DuesSnoc(r.car.pending, Pending(raised, due), e);
    if raised == e {
      OneMoreDue(Dues(ps, e), Defers(r.out, e), due);
    } else {
      assert Dues(r.car.pending, e) + [] == Dues(r.car.pending, e);
    }
  }

  lemma {:induction false} OneMoreDue(before: seq<nat>, added: seq<nat>, due: nat)
    requires forall d | d in added :: d == due
    ensures before + added + [due] == before + (added + [due])
    ensures forall d | d in added + [due] :: d == due
  {
  }

  lemma {:induction false} RaisingEmit(x: Ctx, ps: seq<Pending>, r: Res, raised: EventType, e: EventType)
    requires Raising(x, ps, r, e)
    ensures Raising(x, ps, Emit(x, r, raised), e)
  {
    if Immediate(raised, r.car) {
      RaisingHand(x, ps, r, raised, r.car.geofence, BuildPayload(x, r.car, raised), e);
    } else {
      RaisingDefer(x, ps, r, raised, r.car.geofence, Emit(x, r, raised).car, e);
    }
  }

  /** An event is handed over at once exactly if it is a charging update, or the car has a name and a
      battery level and, for a software update, the version is known; otherwise it waits for 30 s. */
  lemma {:induction false} DefersExactly(x: Ctx, r: Res, e: EventType)
    ensures var c, s := r.car, Emit(x, r, e);
            var known := (c.displayName != "" || c.model != "") && T.BatteryLevel in c.initialized &&
                         (e.SoftwareUpdate? ==> c.updateVersion != "");
            && |s.out| == |r.out| + 2 && s.out[|r.out|] == Raised(e, c.geofence)
            && (if e.LiveActivityUpdate? || known then
                  s.car == c && s.out[|r.out| + 1].Handed? && s.out[|r.out| + 1].payload.eventType == e
                else
                  s.car == c.(pending := c.pending + [Pending(e, x.env.now + 30_000_000_000)]) &&
                  s.out[|r.out| + 1] == Deferred(e, x.env.now + 30_000_000_000))
  {
  }

  predicate Neutral(a: Effect) {
    a.Opened? || a.Closed? || a.Update? || a.Panicked?
  }

  lemma {:induction false} RaisingNeutral(x: Ctx, ps: seq<Pending>, r: Res, r': Res, extra: seq<Effect>, e: EventType)
    requires Raising(x, ps, r, e)
    requires r'.out == r.out + extra && forall i | 0 <= i < |extra| :: Neutral(extra[i])
    requires r'.car.pending == r.car.pending && Ready(e, r'.car) == Ready(e, r.car)
    ensures Raising(x, ps, r', e)
  {
    Concat(r.out, extra, e, x.id);
    NeutralOut(extra, e, x.id);
  }

  /** Starting and stopping tickers is invisible to the pending list. */
  lemma {:induction false} RaisingTicker(x: Ctx, ps: seq<Pending>, r: Res, op: Op, e: EventType)
    requires Raising(x, ps, r, e)
    requires !op.Raise? && !op.Flush?
    ensures Raising(x, ps, Perform(x, r, op), e)
  {
    RaisingNeutral(x, ps, r, Perform(x, r, op), SwitchOut(x, r.car, op), e);
  }

  lemma {:induction false} NeutralOut(out: seq<Effect>, e: EventType, id: string)
    requires forall i | 0 <= i < |out| :: Neutral(out[i])
    ensures Raises(out, e) == 0 && Hands(out, e) == 0 && Defers(out, e) == [] && Strays(out, id) == 0
  {
    if out != [] {
      NeutralOut(out[..|out| - 1], e, id);
    }
  }

  lemma {:induction false} RaisingAll(x: Ctx, ps: seq<Pending>, r: Res, ops: seq<Op>, e: EventType)
    requires Raising(x, ps, r, e)
    requires Flush !in ops
    ensures Raising(x, ps, PerformAll(x, r, ops), e)
  {
    if ops != [] {
      var init, op := ops[..|ops| - 1], ops[|ops| - 1];
      RaisingAll(x, ps, r, init, e);
      assert op in ops;
      if op.Raise? {
        RaisingEmit(x, ps, PerformAll(x, r, init), op.event, e);
      } else {
        RaisingTicker(x, ps, PerformAll(x, r, init), op, e);
      }
    }
  }

  // ----- The shape of a plan -----

  /** The messages that end in a flush: an unparsable battery level returns before it. */
  predicate Flushes(f: T.Field, value: string) {
    (f == T.BatteryLevel && Atoi(value).Some?) || f == T.DisplayName || f == T.Model || f == T.UpdateVersion
  }

  /** The operations of a plan before the flush. */
  function BeforeFlush(x: Ctx, c: Car, f: T.Field, value: string, first: bool): seq<Op> {
    if f == T.BatteryLevel && Atoi(value).Some? && !first then
      RaiseAll(BatteryThresholds(x.p, Atoi(value).value, c.lowFired, c.highFired).events)
    else if Flushes(f, value) then []
    else Plan(x, c, f, value, first)
  }

  lemma {:induction false} PlanShape(x: Ctx, c: Car, f: T.Field, value: string, first: bool)
    ensures Plan(x, c, f, value, first) == BeforeFlush(x, c, f, value, first) + (if Flushes(f, value) then [Flush] else [])
  {
    if Flushes(f, value) {
      assert [] + [Flush] == [Flush];
    } else {
      var ops := Plan(x, c, f, value, first);
      assert ops + [] == ops;
    }
  }

  lemma {:induction false} NoFlushBefore(x: Ctx, c: Car, f: T.Field, value: string, first: bool)
    ensures Flush !in BeforeFlush(x, c, f, value, first)
  {
    if f == T.BatteryLevel && Atoi(value).Some? && !first {
      RaiseAllOnlyRaises(BatteryThresholds(x.p, Atoi(value).value, c.lowFired, c.highFired).events);
    }
  }

  lemma {:induction false} RaiseAllOnlyRaises(events: seq<EventType>)
    ensures |RaiseAll(events)| == |events|
    ensures forall i | 0 <= i < |events| :: RaiseAll(events)[i] == Raise(events[i])
  {
    if events != [] {
      RaiseAllOnlyRaises(events[..|events| - 1]);
    }
  }

  lemma {:induction false} PerformSnoc(x: Ctx, r: Res, ops: seq<Op>, op: Op)
    ensures PerformAll(x, r, ops + [op]) == Perform(x, PerformAll(x, r, ops), op)
  {
    assert (ops + [op])[..|ops|] == ops;
  }

  /** The result of a message just before its flush, if it ends in one. */
  function Unflushed(x: Ctx, c: Car, f: T.Field, value: string): Res {
    var c1 := Received(x, c, f, value);
    var first := f !in c.initialized;
    PerformAll(x, Res(Assign(x.p, c1, f, value, first), []), BeforeFlush(x, c1, f, value, first))
  }

  lemma {:induction false} PerformShape(x: Ctx, r: Res, ops: seq<Op>, all: seq<Op>, flushes: bool)
    requires all == ops + (if flushes then [Flush] else [])
    ensures PerformAll(x, r, all) == if flushes then FlushPending(x, PerformAll(x, r, ops)) else PerformAll(x, r, ops)
  {
    if flushes {
      PerformSnoc(x, r, ops, Flush);
    } else {
      assert ops + [] == ops;
    }
  }

  lemma {:induction false} MessageShape(x: Ctx, c: Car, f: T.Field, value: string)
    ensures HandleMessage(x, c, f, value) ==
            if Flushes(f, value) then FlushPending(x, Unflushed(x, c, f, value)) else Unflushed(x, c, f, value)
  {
    var c1 := Received(x, c, f, value);
    var first := f !in c.initialized;
    PlanShape(x, c1, f, value, first);
    PerformShape(x, Res(Assign(x.p, c1, f, value, first), []), BeforeFlush(x, c1, f, value, first),
                 Plan(x, c1, f, value, first), Flushes(f, value));
  }

  lemma {:induction false} MessageRaising(x: Ctx, c: Car, f: T.Field, value: string, e: EventType)
    ensures Raising(x, c.pending, Unflushed(x, c, f, value), e)
  {
    var c1 := Received(x, c, f, value);
    var first := f !in c.initialized;
    var r0 := Res(Assign(x.p, c1, f, value, first), []);
    AssignKeepsPending(x.p, c1, f, value, first);
    assert Raising(x, c.pending, r0, e);
    NoFlushBefore(x, c1, f, value, first);
    RaisingAll(x, c.pending, r0, BeforeFlush(x, c1, f, value, first), e);
  }

  lemma {:induction false} AssignKeepsPending(p: Params, c: Car, f: T.Field, value: string, first: bool)
    ensures Assign(p, c, f, value, first).pending == c.pending
    ensures Assign(p, c, f, value, first).initialized == c.initialized
  {
  }

  // ----- Flushing and waking up -----

  lemma {:induction false} FlushFacts(x: Ctx, c: Car, ps: seq<Pending>, e: EventType)
    ensures var out := FlushOut(x, c, ps);
            Raises(out, e) == 0 && Defers(out, e) == [] && Strays(out, x.id) == 0 &&
            Hands(out, e) == if Ready(e, c) then |Dues(ps, e)| else 0
    ensures Dues(StillPending(c, ps), e) == if Ready(e, c) then [] else Dues(ps, e)
  {
    if ps != [] {
      var init, last := ps[..|ps| - 1], ps[|ps| - 1];
      FlushFacts(x, c, init, e);
      if Ready(last.event, c) {
        var payload := BuildPayload(x, c, last.event);
        Snoc(FlushOut(x, c, init), Handed(payload), e, x.id);
      } else {
        DuesSnoc(StillPending(c, init), last, e);
      }
    }
  }

  /** The pending events that are ready, or are not, oldest first. */
  function Sifted(c: Car, ps: seq<Pending>, ready: bool): seq<Pending> {
    if ps == [] then []
    else (if Ready(ps[0].event, c) == ready then [ps[0]] else []) + Sifted(c, ps[1..], ready)
  }

  lemma {:induction false} SiftedSnoc(c: Car, ps: seq<Pending>, p: Pending, ready: bool)
    ensures Sifted(c, ps + [p], ready) == Sifted(c, ps, ready) + (if Ready(p.event, c) == ready then [p] else [])
  {
    if ps == [] {
      assert ps + [p] == [p];
    } else {
      SiftedSnoc(c, ps[1..], p, ready);
      assert (ps + [p])[1..] == ps[1..] + [p];
    }
  }

  /** A flush hands over exactly the ready events, oldest first, and keeps the others in order. */
  lemma {:induction false} FlushSifts(x: Ctx, c: Car, ps: seq<Pending>)
    ensures StillPending(c, ps) == Sifted(c, ps, false)
    ensures var out, ready := FlushOut(x, c, ps), Sifted(c, ps, true);
            |out| == |ready| && forall i | 0 <= i < |out| :: out[i].Handed? && out[i].payload.eventType == ready[i].event
  {
    if ps != [] {
      var init, last := ps[..|ps| - 1], ps[|ps| - 1];
      FlushSifts(x, c, init);
      assert ps == init + [last];
      SiftedSnoc(c, init, last, true);
      SiftedSnoc(c, init, last, false);
      assert Sifted(c, init, false) + [] == Sifted(c, init, false) && Sifted(c, init, true) + [] == Sifted(c, init, true);
    }
  }

  lemma {:induction false} DuesEmpty(ps: seq<Pending>, e: EventType)
    ensures Dues(ps, e) == [] <==> forall p | p in ps :: p.event != e
  {
    if ps != [] {
      DuesEmpty(ps[..|ps| - 1], e);
      assert ps == ps[..|ps| - 1] + [ps[|ps| - 1]];
      assert ps[|ps| - 1] in ps;
    }
  }

  lemma {:induction false} DuesAround(a: seq<Pending>, p: Pending, b: seq<Pending>, e: EventType)
    ensures Dues(a + b, e) == Dues(a, e) + Dues(b, e)
    ensures Dues(a + [p] + b, e) == Dues(a, e) + (if p.event == e then [p.due] else []) + Dues(b, e)
  {
    DuesConcat(a, b, e);
    DuesConcat(a + [p], b, e);
    DuesSnoc(a, p, e);
  }

  lemma {:induction false} DuesWithoutFirst(ps: seq<Pending>, i: nat, f: EventType)
    requires i < |ps| && forall k | 0 <= k < i :: ps[k].event != ps[i].event
    ensures f == ps[i].event ==> Dues(ps, f) != []
    ensures Dues(ps[..i] + ps[i + 1..], f) == if f == ps[i].event then Dues(ps, f)[1..] else Dues(ps, f)
  {
    var a, p, b := ps[..i], ps[i], ps[i + 1..];
    assert ps == a + [p] + b;
    DuesAround(a, p, b, f);
    if f == p.event {
      DuesEmpty(a, f);
      assert Dues(ps, f) == [p.due] + Dues(b, f);
    }
  }

  /** A timer that wakes up takes the oldest pending entry of its type, and leaves the rest in order. */
  lemma {:induction false} TimeoutDues(x: Ctx, c: Car, e: EventType, f: EventType)
    ensures var dues := Dues(c.pending, f);
            Dues(Timeout(x, c, e).car.pending, f) == if f == e && dues != [] then dues[1..] else dues
  {
    var ps := c.pending;
    var i := FirstPending(ps, e);
    if i < |ps| {
      DuesWithoutFirst(ps, i, f);
    } else {
      DuesEmpty(ps, e);
    }
  }

  lemma {:induction false} TimeoutOut(x: Ctx, c: Car, e: EventType, f: EventType)
    ensures var out := Timeout(x, c, e).out;
            Raises(out, f) == 0 && Defers(out, f) == [] && Strays(out, x.id) == 0 &&
            Hands(out, f) == if f == e && Dues(c.pending, e) != [] then 1 else 0
  {
    var ps := c.pending;
    var i := FirstPending(ps, e);
    DuesEmpty(ps, e);
    if i < |ps| {
      assert ps[i] in ps;
      var payload := BuildPayload(x, c.(pending := ps[..i] + ps[i + 1..]), e);
      assert [Handed(payload)] == [] + [Handed(payload)];
      Snoc([], Handed(payload), f, x.id);
    }
  }

  lemma {:induction false} TickOut(x: Ctx, c: Car, kind: Kind, e: EventType)
    ensures var r := Tick(x, c, kind);
            Raises(r.out, e) == 0 && Hands(r.out, e) == 0 && Defers(r.out, e) == [] && Strays(r.out, x.id) == 0 &&
            r.car.pending == c.pending
  {
    NeutralOut(Tick(x, c, kind).out, e, x.id);
  }

  // ----- What any input does -----

  /** What an input with the given effects does to one type's pending entries, given by their wake-up
      times: what was pending or is raised is handed over or still pending; a message adds its own at
      the end and may then clear them all. */
  ghost predicate Moves(x: Ctx, before: seq<nat>, after: seq<nat>, out: seq<Effect>, e: EventType) {
    && Raises(out, e) + |before| == Hands(out, e) + |after|
    && Strays(out, x.id) == 0
    && (after == before + Defers(out, e) || after == [])
    && (forall d | d in Defers(out, e) :: d == x.env.now + DEFER_DELAY)
  }

  lemma {:induction false} RaisingMoves(x: Ctx, ps: seq<Pending>, r: Res, e: EventType)
    requires Raising(x, ps, r, e)
    ensures Moves(x, Dues(ps, e), Dues(r.car.pending, e), r.out, e)
  {
  }

  lemma {:induction false} FlushMoves(x: Ctx, ps: seq<Pending>, r: Res, e: EventType)
    requires Raising(x, ps, r, e)
    ensures var s := FlushPending(x, r);
            Moves(x, Dues(ps, e), Dues(s.car.pending, e), s.out, e)
  {
    var flushed := FlushOut(x, r.car, r.car.pending);
    FlushFacts(x, r.car, r.car.pending, e);
    Concat(r.out, flushed, e, x.id);
    assert Defers(r.out, e) + [] == Defers(r.out, e);
  }

  lemma {:induction false} MessageMoves(x: Ctx, c: Car, f: T.Field, value: string, e: EventType)
    ensures var s := HandleMessage(x, c, f, value);
            Moves(x, Dues(c.pending, e), Dues(s.car.pending, e), s.out, e)
  {
    MessageShape(x, c, f, value);
    MessageRaising(x, c, f, value, e);
    if Flushes(f, value) {
      FlushMoves(x, c.pending, Unflushed(x, c, f, value), e);
    } else {
      RaisingMoves(x, c.pending, Unflushed(x, c, f, value), e);
    }
  }

  lemma {:induction false} WakeMoves(x: Ctx, c: Car, f: EventType, e: EventType)
    ensures var s, before := Timeout(x, c, f), Dues(c.pending, e);
            var after := Dues(s.car.pending, e);
            && Raises(s.out, e) + |before| == Hands(s.out, e) + |after|
            && Strays(s.out, x.id) == 0 && Defers(s.out, e) == []
            && after == if f == e && before != [] then before[1..] else before
  {
    TimeoutDues(x, c, f, e);
    TimeoutOut(x, c, f, e);
  }

  /** Conservation for one input: what was pending or is raised is handed over or still pending. */
  lemma {:induction false} InputBalanced(x: Ctx, c: Car, i: Input, e: EventType)
    ensures var r := Apply(x, c, i);
            Raises(r.out, e) + |Dues(c.pending, e)| == Hands(r.out, e) + |Dues(r.car.pending, e)| &&
            Strays(r.out, x.id) == 0
  {
    match i
    case Msg(f, value) => MessageMoves(x, c, f, value, e);
    case Unknown(_, _) =>
    case Wake(f) => WakeMoves(x, c, f, e);
    case Fire(kind) => TickOut(x, c, kind, e);
  }

  /** What one input does to the wake-up times of the pending entries of one type: a message adds
      its own at the end and may then clear them all; a wake-up takes the first. */
  lemma {:induction false} InputDues(x: Ctx, c: Car, i: Input, e: EventType)
    ensures var r := Apply(x, c, i);
            var before, after, added := Dues(c.pending, e), Dues(r.car.pending, e), Defers(r.out, e);
            && (if i == Wake(e) then after == (if before == [] then [] else before[1..]) && added == []
                else after == before + added || after == [])
            && (forall d | d in added :: d == x.env.now + 30_000_000_000)
  {
    match i
    case Msg(f, value) => MessageMoves(x, c, f, value, e);
    case Unknown(_, _) => assert Dues(c.pending, e) + [] == Dues(c.pending, e);
    case Wake(f) =>
      WakeMoves(x, c, f, e);
      assert Dues(c.pending, e) + [] == Dues(c.pending, e);
    case Fire(kind) =>
      TickOut(x, c, kind, e);
      assert Dues(c.pending, e) + [] == Dues(c.pending, e);
  }

  // ----- No ready event waits -----

  /** Every pending event of the car waits for data. */
  ghost predicate AllWaitForData(c: Car) {
    forall p | p in c.pending :: !Ready(p.event, c)
  }

  lemma {:induction false} WaitByType(c: Car)
    ensures AllWaitForData(c) <==> TypesWait(c)
  {
    forall e: EventType
      ensures Dues(c.pending, e) == [] <==> forall p | p in c.pending :: p.event != e
    {
      DuesEmpty(c.pending, e);
    }
  }

  /** An unparsable first battery level: it marks the battery as known, which can make pending
      events ready, and returns before the flush. */
  ghost predicate StrandsEvents(c: Car, i: Input) {
    && i.Msg? && i.field == T.BatteryLevel && Atoi(i.value).None?
    && T.BatteryLevel !in c.initialized
    && (c.displayName != "" || c.model != "")
    && exists p :: p in c.pending && (p.event == SoftwareUpdate ==> c.updateVersion != "")
  }

  /** The two cars agree on everything readiness depends on. */
  ghost predicate SameNaming(c: Car, d: Car) {
    c.displayName == d.displayName && c.model == d.model && c.updateVersion == d.updateVersion && c.initialized == d.initialized
  }

  /** Ticker operations and raising leave the naming alone. */
  lemma {:induction false} PerformKeepsNaming(x: Ctx, r: Res, ops: seq<Op>)
    ensures SameNaming(PerformAll(x, r, ops).car, r.car)
  {
    if ops != [] {
      PerformKeepsNaming(x, r, ops[..|ops| - 1]);
      PerformOneKeepsNaming(x, PerformAll(x, r, ops[..|ops| - 1]), ops[|ops| - 1]);
    }
  }

  lemma {:induction false} PerformOneKeepsNaming(x: Ctx, r: Res, op: Op)
    ensures SameNaming(Perform(x, r, op).car, r.car)
  {
  }

  lemma {:induction false} AssignKeepsNaming(p: Params, c: Car, f: T.Field, value: string, first: bool)
    requires !Flushes(f, value)
    ensures SameNaming(Assign(p, c, f, value, first), c)
  {
    AssignNames(p, c, f, value, first);
    AssignKeepsPending(p, c, f, value, first);
  }

  lemma {:induction false} AssignNames(p: Params, c: Car, f: T.Field, value: string, first: bool)
    ensures var d := Assign(p, c, f, value, first);
            && d.displayName == (if f == T.DisplayName then value else c.displayName)
            && d.model == (if f == T.Model then value else c.model)
            && d.updateVersion == (if f == T.UpdateVersion then value else c.updateVersion)
  {
  }

  lemma {:induction false} UnflushedReadiness(x: Ctx, c: Car, f: T.Field, value: string)
    requires !Flushes(f, value)
    ensures SameNaming(Unflushed(x, c, f, value).car, c.(initialized := c.initialized + {f}))
  {
    var c1 := Received(x, c, f, value);
    var first := f !in c.initialized;
    PerformKeepsNaming(x, Res(Assign(x.p, c1, f, value, first), []), BeforeFlush(x, c1, f, value, first));
    AssignKeepsNaming(x.p, c1, f, value, first);
  }

  /** From a car on which no ready event waits, an input leads to one on which some ready event
      waits exactly if it is an unparsable first battery level that strands one. */
  lemma {:induction false} ReadyWaitsStep(x: Ctx, c: Car, i: Input)
    requires AllWaitForData(c)
    ensures AllWaitForData(Apply(x, c, i).car) <==> !StrandsEvents(c, i)
  {
    WaitByType(c);
    WaitByType(Apply(x, c, i).car);
    if i.Msg? {
      MessageWaits(x, c, i.field, i.value);
    } else {
      forall e: EventType
        ensures Dues(Apply(x, c, i).car.pending, e) != [] ==> Dues(c.pending, e) != []
        ensures Ready(e, Apply(x, c, i).car) == Ready(e, c)
      {
        OtherInputWaits(x, c, i, e);
      }
    }
  }

  lemma {:induction false} OtherInputWaits(x: Ctx, c: Car, i: Input, e: EventType)
    requires !i.Msg?
    ensures Dues(Apply(x, c, i).car.pending, e) != [] ==> Dues(c.pending, e) != []
    ensures SameNaming(Apply(x, c, i).car, c)
  {
    match i
    case Unknown(_, _) =>
    case Wake(f) =>
      WakeKeepsNaming(x, c, f);
      TimeoutDues(x, c, f, e);
    case Fire(kind) => FireKeepsNaming(x, c, kind);
  }

  lemma {:induction false} WakeKeepsNaming(x: Ctx, c: Car, e: EventType)
    ensures SameNaming(Timeout(x, c, e).car, c)
  {
  }

  lemma {:induction false} FireKeepsNaming(x: Ctx, c: Car, kind: Kind)
    ensures SameNaming(Tick(x, c, kind).car, c) && Tick(x, c, kind).car.pending == c.pending
  {
  }

  /** No type with a pending entry is ready. */
  ghost predicate TypesWait(c: Car) {
    forall e: EventType :: Dues(c.pending, e) != [] ==> !Ready(e, c)
  }

  lemma {:induction false} FlushWaits(x: Ctx, r: Res)
    ensures TypesWait(FlushPending(x, r).car)
  {
    var c := FlushPending(x, r).car;
    forall e: EventType
      ensures Dues(c.pending, e) != [] ==> !Ready(e, c)
    {
      FlushFacts(x, r.car, r.car.pending, e);
    }
  }

  lemma {:induction false} UnflushedWaits(x: Ctx, c: Car, f: T.Field, value: string)
    requires TypesWait(c) && !Flushes(f, value) && f != T.BatteryLevel
    ensures TypesWait(Unflushed(x, c, f, value).car)
  {
    var r := Unflushed(x, c, f, value);
    UnflushedReadiness(x, c, f, value);
    forall e: EventType
      ensures Dues(r.car.pending, e) != [] ==> !Ready(e, r.car)
    {
      MessageRaising(x, c, f, value, e);
      assert Ready(e, r.car) == Ready(e, c);
      assert Dues(r.car.pending, e) == Dues(c.pending, e) + Defers(r.out, e);
    }
  }

  lemma {:induction false} MessageWaits(x: Ctx, c: Car, f: T.Field, value: string)
    requires TypesWait(c)
    ensures TypesWait(HandleMessage(x, c, f, value).car) <==> !StrandsEvents(c, Msg(f, value))
  {
    MessageShape(x, c, f, value);
    if Flushes(f, value) {
      FlushWaits(x, Unflushed(x, c, f, value));
    } else if f == T.BatteryLevel {
      UnparsedLevelWaits(x, c, value);
    } else {
      UnflushedWaits(x, c, f, value);
    }
  }

  lemma {:induction false} UnparsedLevelWaits(x: Ctx, c: Car, value: string)
    requires TypesWait(c) && Atoi(value).None?
    ensures TypesWait(Unflushed(x, c, T.BatteryLevel, value).car) <==> !StrandsEvents(c, Msg(T.BatteryLevel, value))
  {
    var r := Unflushed(x, c, T.BatteryLevel, value);
    assert r.car.pending == c.pending;
    forall e: EventType
      ensures Ready(e, r.car) == ((c.displayName != "" || c.model != "") && (e == SoftwareUpdate ==> c.updateVersion != ""))
      ensures Dues(c.pending, e) == [] <==> forall p | p in c.pending :: p.event != e
    {
      UnflushedReadiness(x, c, T.BatteryLevel, value);
      DuesEmpty(c.pending, e);
    }
    if StrandsEvents(c, Msg(T.BatteryLevel, value)) {
      var p :| p in c.pending && (p.event == SoftwareUpdate ==> c.updateVersion != "");
      assert Dues(r.car.pending, p.event) != [] && Ready(p.event, r.car);
    }
  }

  /** After every prefix of the history, all pending events wait for data. */
  ghost predicate AlwaysWait(p: Params, id: string, c0: Car, history: seq<Event>) {
    AllWaitForData(Life(p, id, c0, history).car) &&
    (history == [] || AlwaysWait(p, id, c0, history[..|history| - 1]))
  }

  /** Some input of the history strands events. */
  ghost predicate SomeStrands(p: Params, id: string, c0: Car, history: seq<Event>) {
    history != [] &&
    (SomeStrands(p, id, c0, history[..|history| - 1]) ||
     StrandsEvents(Life(p, id, c0, history[..|history| - 1]).car, history[|history| - 1].input))
  }

  /** Between inputs no ready event ever waits, in every life that starts with nothing pending,
      exactly when no input strands one. */
  lemma {:induction false} NoReadyEventWaits(p: Params, id: string, c0: Car, history: seq<Event>)
    requires c0.pending == []
    ensures AlwaysWait(p, id, c0, history) <==> !SomeStrands(p, id, c0, history)
  {
    if history != [] {
      var init, last := history[..|history| - 1], history[|history| - 1];
      NoReadyEventWaits(p, id, c0, init);
      if AlwaysWait(p, id, c0, init) {
        ReadyWaitsStep(Ctx(p, last.env, id), Life(p, id, c0, init).car, last.input);
      }
    }
  }

  /** In particular when every battery level parses. */
  lemma {:induction false} ParsedLevelsStrandNothing(p: Params, id: string, c0: Car, history: seq<Event>)
    requires forall e | e in history && e.input.Msg? && e.input.field == T.BatteryLevel :: Atoi(e.input.value).Some?
    ensures !SomeStrands(p, id, c0, history)
  {
    if history != [] {
      ParsedLevelsStrandNothing(p, id, c0, history[..|history| - 1]);
      assert history[|history| - 1] in history;
    }
  }

  /** So in every life that strands nothing an enriched car holds only software updates, and only while
      the version is unknown. */
  lemma {:induction false} EnrichedHoldsUpdatesOnly(p: Params, id: string, c0: Car, history: seq<Event>)
    requires c0.pending == [] && !SomeStrands(p, id, c0, history)
    ensures var c := Life(p, id, c0, history).car;
            Enriched(c) ==> forall e | e in c.pending :: e.event == SoftwareUpdate && c.updateVersion == ""
  {
    NoReadyEventWaits(p, id, c0, history);
    var c := Life(p, id, c0, history).car;
    forall e | Enriched(c) && e in c.pending
      ensures e.event == SoftwareUpdate && c.updateVersion == ""
    {
      assert !Ready(e.event, c);
    }
  }

  /** It does happen: a car known by name that plugs in, and then reports its first battery level
      as "?", keeps its ready event waiting. */
  lemma {:induction false} StrandedEvent(p: Params, id: string)
    ensures var env := Env(0, None, DEFAULTS);
            var history := [Event(env, Msg(T.PluggedIn, "false"))] + [Event(env, Msg(T.PluggedIn, "true"))] +
                           [Event(env, Msg(T.BatteryLevel, "?"))];
            var c := Life(p, id, RestoredCar("Daily", ""), history).car;
            c.pending == [Pending(ChargerConnected, DEFER_DELAY)] && Ready(ChargerConnected, c)
  {
    var env := Env(0, None, DEFAULTS);
    var x := Ctx(p, env, id);
    var a, b, d := Event(env, Msg(T.PluggedIn, "false")), Event(env, Msg(T.PluggedIn, "true")), Event(env, Msg(T.BatteryLevel, "?"));
    var c0 := RestoredCar("Daily", "");
    LifeSnoc(p, id, c0, [], a);
    assert [] + [a] == [a];
    LifeSnoc(p, id, c0, [a], b);
    LifeSnoc(p, id, c0, [a] + [b], d);
    var c1 := StrandedStart(x, c0);
    StrandedPlugIn(x, c1);
    var c2 := HandleMessage(x, c1, T.PluggedIn, "true").car;
    assert Atoi("?") == None;
    assert HandleMessage(x, c2, T.BatteryLevel, "?").car == Received(x, c2, T.BatteryLevel, "?");
  }

  lemma {:induction false} StrandedStart(x: Ctx, c0: Car) returns (c1: Car)
    requires c0 == RestoredCar("Daily", "")
    ensures c1 == HandleMessage(x, c0, T.PluggedIn, "false").car
    ensures !c1.pluggedIn && c1.pending == [] && c1.initialized == {T.DisplayName, T.PluggedIn} && c1.displayName != ""
  {
    c1 := HandleMessage(x, c0, T.PluggedIn, "false").car;
    assert |"Daily"| == 5 && |"false"| == 5;
  }

  lemma {:induction false} StrandedPlugIn(x: Ctx, c: Car)
    requires !c.pluggedIn && c.pending == [] && c.initialized == {T.DisplayName, T.PluggedIn} && x.env.now == 0
    ensures var c' := HandleMessage(x, c, T.PluggedIn, "true").car;
            c'.pending == [Pending(ChargerConnected, DEFER_DELAY)] && SameNaming(c', c)
  {
    var c1 := Received(x, c, T.PluggedIn, "true");
    assert c1.initialized == c.initialized;
    assert Plan(x, c1, T.PluggedIn, "true", false) == [Raise(ChargerConnected)];
    DeferredOnly(x, Res(Assign(x.p, c1, T.PluggedIn, "true", false), []), ChargerConnected);
  }

  lemma {:induction false} DeferredOnly(x: Ctx, r: Res, e: EventType)
    requires r.car.pending == [] && x.env.now == 0 && T.BatteryLevel !in r.car.initialized && e != LiveActivityUpdate
    ensures PerformAll(x, r, [Raise(e)]).car == r.car.(pending := [Pending(e, DEFER_DELAY)])
  {
    assert [Raise(e)][..0] == [];
    assert [] + [Pending(e, DEFER_DELAY)] == [Pending(e, DEFER_DELAY)];
  }
}
