/** state/events.go: the debounce protocol, as a state machine over its atomic steps.
    A time.AfterFunc timer is armed, then its callback may start and wait for the mutex, and
    Stop only takes effect before that. */
module Debounce {
  import opened GoValues
  import opened Models

  const WINDOW := SECOND

  datatype Phase = Armed | Waiting | Sent(at: nat) | Cancelled

  datatype Timer = Timer(payload: EventPayload, emittedAt: nat, phase: Phase) {
    function Due(): nat {
      emittedAt + WINDOW
    }

    predicate Live() {
      phase.Armed? || phase.Waiting?
    }
  }

  /** One call of SendEvent by the callback of the n-th timer of a key. */
  datatype Send = Send(key: string, n: nat, at: nat)

  /** Every timer ever created, per key and in creation order; the Go map from keys to timers
      (a timer is named by its place in its key's history); and the calls of SendEvent so far. */
  datatype Emitter = Emitter(history: map<string, seq<Timer>>, timers: map<string, nat>, sends: seq<Send>)

  const NO_TIMERS := Emitter(map[], map[], [])

  function History(e: Emitter, key: string): seq<Timer> {
    if key in e.history then e.history[key] else []
  }

  /** time.Timer.Stop on the n-th timer: only an armed timer is affected. */
  function StopTimer(h: seq<Timer>, n: nat): (r: seq<Timer>)
    ensures |r| == |h|
    ensures forall k | 0 <= k < |h| ::
              r[k] == if k == n && h[k].phase.Armed? then Timer(h[k].payload, h[k].emittedAt, Cancelled) else h[k]
  {
    if n < |h| && h[n].phase.Armed? then h[n := h[n].(phase := Cancelled)] else h
  }

  /** Stop the timer that the map has for a key, if any. */
  function Silenced(e: Emitter, key: string): Emitter {
    if key in e.timers then e.(history := e.history[key := StopTimer(History(e, key), e.timers[key])]) else e
  }

  /** Install a new timer for a key. */
  function Installed(e: Emitter, key: string, p: EventPayload, now: nat): Emitter {
    e.(history := e.history[key := History(e, key) + [Timer(p, now, Armed)]],
       timers := e.timers[key := |History(e, key)|])
  }

  function Rearmed(e: Emitter, key: string, p: EventPayload, now: nat): Emitter {
    Installed(Silenced(e, key), key, p, now)
  }

  function Emitted(e: Emitter, p: EventPayload, now: nat): Emitter {
    Rearmed(e, Key(p.carID, p.eventType), p, now)
  }

  /** The runtime starts the callback of a timer that is due; it now waits for the mutex. */
  function Expired(e: Emitter, key: string, n: nat, now: nat): Emitter {
    var h := History(e, key);
    if n < |h| && h[n].phase.Armed? && h[n].Due() <= now then
      e.(history := e.history[key := h[n := h[n].(phase := Waiting)]])
    else e
  }

  /** The callback gets the mutex: it deletes its key's entry, whoever owns it, and sends. */
  function CalledBack(e: Emitter, key: string, n: nat, now: nat): Emitter {
    var h := History(e, key);
    if n < |h| && h[n].phase.Waiting? then
      Emitter(e.history[key := h[n := h[n].(phase := Sent(now))]], e.timers - {key}, e.sends + [Send(key, n, now)])
    else e
  }

  function Stopped(e: Emitter): Emitter {
    Emitter(
      map key | key in e.history :: if key in e.timers then StopTimer(e.history[key], e.timers[key]) else e.history[key],
      map[], e.sends)
  }

  // ----- Runs: any interleaving of emits, expiries, callbacks and the passing of time -----

  datatype Action = Emit(p: EventPayload) | Expire(key: string, n: nat) | Callback(key: string, n: nat) | Pass(d: nat) | Stop

  datatype State = State(now: nat, e: Emitter)

  function Act(s: State, a: Action): State {
    match a
    case Emit(p) => s.(e := Emitted(s.e, p, s.now))
    case Expire(key, n) => s.(e := Expired(s.e, key, n, s.now))
    case Callback(key, n) => s.(e := CalledBack(s.e, key, n, s.now))
    case Pass(d) => s.(now := s.now + d)
    case Stop => s.(e := Stopped(s.e))
  }

  function Run(actions: seq<Action>): State {
    if actions == [] then State(0, NO_TIMERS)
    else Act(Run(actions[..|actions| - 1]), actions[|actions| - 1])
  }

  /** No timer sends twice. */
  ghost predicate NoRepeats(sends: seq<Send>) {
    forall i, j | 0 <= i < j < |sends| :: sends[i].key != sends[j].key || sends[i].n != sends[j].n
  }

  /** The sends are exactly the timers in phase Sent, each once. */
  ghost predicate SentOnce(e: Emitter) {
    && NoRepeats(e.sends)
    && (forall s | s in e.sends :: s.n < |History(e, s.key)| && History(e, s.key)[s.n].phase == Sent(s.at))
    && (forall key, n | 0 <= n < |History(e, key)| && History(e, key)[n].phase.Sent? ::
          Send(key, n, History(e, key)[n].phase.at) in e.sends)
  }

  /** h' differs from h in timers that have not sent only. */
  ghost predicate SameSent(h: seq<Timer>, h': seq<Timer>) {
    && |h| <= |h'|
    && (forall n | 0 <= n < |h| :: h[n].phase.Sent? || h'[n].phase.Sent? ==> h[n] == h'[n])
    && (forall n | |h| <= n < |h'| :: !h'[n].phase.Sent?)
  }

  lemma {:induction false} SentOnceFrame(e: Emitter, e': Emitter)
    requires SentOnce(e) && e'.sends == e.sends
    requires forall key :: SameSent(History(e, key), History(e', key))
    ensures SentOnce(e')
  {
    forall s | s in e'.sends
      ensures s.n < |History(e', s.key)| && History(e', s.key)[s.n].phase == Sent(s.at)
    {
      assert SameSent(History(e, s.key), History(e', s.key));
    }
    forall key, n | 0 <= n < |History(e', key)| && History(e', key)[n].phase.Sent?
      ensures Send(key, n, History(e', key)[n].phase.at) in e'.sends
    {
      assert SameSent(History(e, key), History(e', key));
      assert n < |History(e, key)| && History(e, key)[n].phase.Sent?;
    }
  }

  lemma {:induction false} SentOnceCallback(e: Emitter, key: string, n: nat, now: nat)
    requires SentOnce(e)
    ensures SentOnce(CalledBack(e, key, n, now))
  {
    var e' := CalledBack(e, key, n, now);
    if e' != e {
      var h, h' := History(e, key), History(e', key);
      assert forall k | k != key :: History(e', k) == History(e, k);
      assert forall s | s in e.sends :: !(s.key == key && s.n == n);
      forall s | s in e'.sends
        ensures s.n < |History(e', s.key)| && History(e', s.key)[s.n].phase == Sent(s.at)
      {
        assert s in e.sends || s == Send(key, n, now);
      }
      forall k, m | 0 <= m < |History(e', k)| && History(e', k)[m].phase.Sent?
        ensures Send(k, m, History(e', k)[m].phase.at) in e'.sends
      {
        if k == key && m == n {
          assert e'.sends[|e.sends|] == Send(key, n, now);
        } else {
          assert History(e, k)[m] == History(e', k)[m];
        }
      }
      NoRepeatsSnoc(e.sends, Send(key, n, now));
    }
  }

  lemma {:induction false} NoRepeatsSnoc(sends: seq<Send>, s: Send)
    requires NoRepeats(sends)
    requires forall t | t in sends :: !(t.key == s.key && t.n == s.n)
    ensures NoRepeats(sends + [s])
  {
    forall i, j | 0 <= i < j < |sends + [s]|
      ensures (sends + [s])[i].key != (sends + [s])[j].key || (sends + [s])[i].n != (sends + [s])[j].n
    {
      assert sends[i] in sends;
    }
  }

  lemma {:induction false} SentOnceStep(s: State, a: Action)
    requires SentOnce(s.e)
    ensures SentOnce(Act(s, a).e)
  {
    if a.Callback? {
      SentOnceCallback(s.e, a.key, a.n, s.now);
    } else {
      forall key
        ensures SameSent(History(s.e, key), History(Act(s, a).e, key))
      {
      }
      SentOnceFrame(s.e, Act(s, a).e);
    }
  }

  /** Whatever the scheduling, and even across Stop, each emitted payload is sent at most once. */
  lemma {:induction false} AtMostOnce(actions: seq<Action>)
    ensures SentOnce(Run(actions).e)
  {
    if actions != [] {
      AtMostOnce(actions[..|actions| - 1]);
      SentOnceStep(Run(actions[..|actions| - 1]), actions[|actions| - 1]);
    }
  }

  /** The map entry of a key, if any, is the key's newest timer, still live; a dropped payload has
      a successor under the same key. */
  ghost predicate Tracked(e: Emitter) {
    && (forall key | key in e.timers ::
          var h := History(e, key);
          h != [] && e.timers[key] == |h| - 1 && h[|h| - 1].Live())
    && (forall key, n | 0 <= n < |History(e, key)| && History(e, key)[n].phase.Cancelled? :: n + 1 < |History(e, key)|)
  }

  lemma {:induction false} TrackedEmit(e: Emitter, key: string, p: EventPayload, now: nat)
    requires Tracked(e)
    ensures Tracked(Rearmed(e, key, p, now))
  {
    var e' := Rearmed(e, key, p, now);
    forall k
      ensures k != key ==> History(e', k) == History(e, k) && (k in e'.timers <==> k in e.timers)
    {
    }
    assert |History(e', key)| == |History(e, key)| + 1;
  }

  lemma {:induction false} TrackedExpire(e: Emitter, key: string, n: nat, now: nat)
    requires Tracked(e)
    ensures Tracked(Expired(e, key, n, now))
  {
    assert forall k | k != key :: History(Expired(e, key, n, now), k) == History(e, k);
  }

  lemma {:induction false} TrackedCallback(e: Emitter, key: string, n: nat, now: nat)
    requires Tracked(e)
    ensures Tracked(CalledBack(e, key, n, now))
  {
    var e' := CalledBack(e, key, n, now);
    assert forall k | k != key :: History(e', k) == History(e, k);
    forall k | k in e'.timers
      ensures History(e', k) != [] && e'.timers[k] == |History(e', k)| - 1 && History(e', k)[|History(e', k)| - 1].Live()
    {
      assert k in e.timers && (k == key ==> e' == e);
    }
    forall k, m | 0 <= m < |History(e', k)| && History(e', k)[m].phase.Cancelled?
      ensures m + 1 < |History(e', k)|
    {
      assert History(e, k)[m].phase.Cancelled?;
    }
  }

  lemma {:induction false} TrackedStep(s: State, a: Action)
    requires Tracked(s.e) && !a.Stop?
    ensures Tracked(Act(s, a).e)
  {
    match a
    case Emit(p) => TrackedEmit(s.e, Key(p.carID, p.eventType), p, s.now);
    case Expire(key, n) => TrackedExpire(s.e, key, n, s.now);
    case Callback(key, n) => TrackedCallback(s.e, key, n, s.now);
    case Pass(d) =>
  }

  ghost predicate NeverStops(actions: seq<Action>) {
    forall a | a in actions :: !a.Stop?
  }

  /** No timer of the key is live. */
  ghost predicate AtRest(e: Emitter, key: string) {
    forall n | 0 <= n < |History(e, key)| :: !History(e, key)[n].Live()
  }

  /** Under every race of callbacks with Emit (absent Stop): the map entry is the newest timer, a
      payload is dropped only if a later one was emitted under its key, and once no timer of a key is
      live any more, its newest payload has been sent. */
  lemma {:induction false} NewestNeverDropped(actions: seq<Action>)
    requires NeverStops(actions)
    ensures Tracked(Run(actions).e)
    ensures forall key | AtRest(Run(actions).e, key) && History(Run(actions).e, key) != [] ::
              History(Run(actions).e, key)[|History(Run(actions).e, key)| - 1].phase.Sent?
  {
    if actions != [] {
      NewestNeverDropped(actions[..|actions| - 1]);
      TrackedStep(Run(actions[..|actions| - 1]), actions[|actions| - 1]);
    }
    var e := Run(actions).e;
    forall key | AtRest(e, key) && History(e, key) != []
      ensures History(e, key)[|History(e, key)| - 1].phase.Sent?
    {
      assert !History(e, key)[|History(e, key)| - 1].Live();
    }
  }

  /** Every timer carries a payload of its own key. */
  ghost predicate KeyedRight(e: Emitter) {
    forall key, n | 0 <= n < |History(e, key)| ::
      Key(History(e, key)[n].payload.carID, History(e, key)[n].payload.eventType) == key
  }

  lemma {:induction false} KeyedRearm(e: Emitter, key: string, p: EventPayload, now: nat)
    requires KeyedRight(e) && key == Key(p.carID, p.eventType)
    ensures KeyedRight(Rearmed(e, key, p, now))
  {
    var e' := Rearmed(e, key, p, now);
    forall k, n | 0 <= n < |History(e', k)|
      ensures Key(History(e', k)[n].payload.carID, History(e', k)[n].payload.eventType) == k
    {
      assert n < |History(e, k)| ==> History(e', k)[n].payload == History(e, k)[n].payload;
    }
  }

  lemma {:induction false} KeyedStep(s: State, a: Action)
    requires KeyedRight(s.e)
    ensures KeyedRight(Act(s, a).e)
  {
    if a.Emit? {
      KeyedRearm(s.e, Key(a.p.carID, a.p.eventType), a.p, s.now);
    } else {
      var e' := Act(s, a).e;
      forall key, n | 0 <= n < |History(e', key)|
        ensures Key(History(e', key)[n].payload.carID, History(e', key)[n].payload.eventType) == key
      {
        assert History(e', key)[n].payload == History(s.e, key)[n].payload;
      }
    }
  }

  lemma {:induction false} OwnKeysOnly(actions: seq<Action>)
    ensures KeyedRight(Run(actions).e)
  {
    if actions != [] {
      OwnKeysOnly(actions[..|actions| - 1]);
      KeyedStep(Run(actions[..|actions| - 1]), actions[|actions| - 1]);
    }
  }

  // ----- Callbacks that run atomically at their deadlines -----

  ghost predicate NoneWaiting(e: Emitter) {
    forall key, n | 0 <= n < |History(e, key)| :: !History(e, key)[n].phase.Waiting?
  }

  /** Every armed timer is due at time t or later. */
  ghost predicate DueFrom(e: Emitter, t: nat) {
    forall key, n | 0 <= n < |History(e, key)| && History(e, key)[n].phase.Armed? :: t <= History(e, key)[n].Due()
  }

  /** Every timer has yet to run out: an Emit now is prompt. */
  ghost predicate Calm(e: Emitter, now: nat) {
    NoneWaiting(e) && DueFrom(e, now + 1)
  }

  /** A timer that is due runs its whole callback before anything else happens: time does not pass
      its deadline, and an Emit at that very moment comes after it. */
  ghost predicate Prompt(s: State, a: Action) {
    match a
    case Emit(_) => Calm(s.e, s.now)
    case Expire(_, _) => NoneWaiting(s.e)
    case Callback(_, _) => true
    case Pass(d) => NoneWaiting(s.e) && DueFrom(s.e, s.now + d)
    case Stop => false
  }

  lemma {:induction false} CalmEmit(e: Emitter, p: EventPayload, now: nat)
    requires Calm(e, now)
    ensures Calm(Emitted(e, p, now), now)
  {
    var key, e' := Key(p.carID, p.eventType), Emitted(e, p, now);
    forall k, n | 0 <= n < |History(e', k)|
      ensures !History(e', k)[n].phase.Waiting?
      ensures History(e', k)[n].phase.Armed? ==> now + 1 <= History(e', k)[n].Due()
    {
      assert n < |History(e, k)| ==> !History(e, k)[n].phase.Waiting?;
    }
  }

  ghost predicate PromptRun(actions: seq<Action>) {
    actions == [] ||
    (PromptRun(actions[..|actions| - 1]) && Prompt(Run(actions[..|actions| - 1]), actions[|actions| - 1]))
  }

  /** What the n-th timer of a key must look like at time now: cancelled if the next emit came
      within the window, otherwise sent at its deadline, or live until then. */
  ghost predicate Settled(h: seq<Timer>, n: nat, now: nat)
    requires n < |h|
  {
    && h[n].emittedAt <= now
    && (if n + 1 < |h| then
          h[n].emittedAt <= h[n + 1].emittedAt &&
          h[n].phase == if h[n + 1].emittedAt < h[n].Due() then Cancelled else Sent(h[n].Due())
        else
          h[n].phase == Sent(h[n].Due()) || (h[n].Live() && now <= h[n].Due()))
    && (h[n].phase.Waiting? ==> now == h[n].Due())
    && (h[n].phase.Sent? ==> h[n].phase.at <= now)
  }

  ghost predicate SettledHistory(h: seq<Timer>, now: nat) {
    forall n | 0 <= n < |h| :: Settled(h, n, now)
  }

  ghost predicate AllSettled(s: State) {
    && Tracked(s.e)
    && (forall key :: SettledHistory(History(s.e, key), s.now))
    && (forall key | History(s.e, key) != [] && History(s.e, key)[|History(s.e, key)| - 1].Live() :: key in s.e.timers)
  }

  lemma {:induction false} SettledEmit(h: seq<Timer>, p: EventPayload, now: nat)
    requires SettledHistory(h, now)
    requires h != [] ==> !h[|h| - 1].phase.Waiting? && (h[|h| - 1].phase.Armed? ==> now < h[|h| - 1].Due())
    ensures SettledHistory((if h == [] then h else StopTimer(h, |h| - 1)) + [Timer(p, now, Armed)], now)
  {
    var h' := (if h == [] then h else StopTimer(h, |h| - 1)) + [Timer(p, now, Armed)];
    forall n | 0 <= n < |h'|
      ensures Settled(h', n, now)
    {
      if n < |h| {
        assert Settled(h, n, now);
        assert n + 1 < |h| ==> h'[n + 1].emittedAt == h[n + 1].emittedAt;
      }
    }
  }

  lemma {:induction false} SettledUpdate(h: seq<Timer>, n: nat, phase: Phase, now: nat)
    requires SettledHistory(h, now) && n < |h| && h[n].Live() && now == h[n].Due()
    requires phase == Waiting || phase == Sent(now)
    ensures SettledHistory(h[n := h[n].(phase := phase)], now)
  {
    var h' := h[n := h[n].(phase := phase)];
    assert Settled(h, n, now);
    forall i | 0 <= i < |h'|
      ensures Settled(h', i, now)
    {
      assert Settled(h, i, now);
      assert i + 1 < |h| ==> h'[i + 1].emittedAt == h[i + 1].emittedAt;
    }
  }

  lemma {:induction false} PromptRearm(e: Emitter, key: string, p: EventPayload, now: nat)
    requires AllSettled(State(now, e)) && NoneWaiting(e) && DueFrom(e, now + 1)
    ensures AllSettled(State(now, Rearmed(e, key, p, now)))
  {
    var h, e' := History(e, key), Rearmed(e, key, p, now);
    TrackedEmit(e, key, p, now);
    assert key !in e.timers && h != [] ==> !h[|h| - 1].Live();
    assert key !in e.timers && h != [] ==> StopTimer(h, |h| - 1) == h;
    assert SettledHistory(h, now);
    SettledEmit(h, p, now);
    forall k
      ensures SettledHistory(History(e', k), now)
    {
      assert SettledHistory(History(e, k), now);
    }
  }

  lemma {:induction false} PromptEmit(s: State, p: EventPayload)
    requires AllSettled(s) && Prompt(s, Emit(p))
    ensures AllSettled(Act(s, Emit(p)))
  {
    PromptRearm(s.e, Key(p.carID, p.eventType), p, s.now);
  }

  lemma {:induction false} PromptTimer(s: State, a: Action)
    requires AllSettled(s) && Prompt(s, a) && (a.Expire? || a.Callback?)
    ensures AllSettled(Act(s, a))
  {
    var e, e' := s.e, Act(s, a).e;
    var h := History(e, a.key);
    TrackedStep(s, a);
    if e' != e {
      assert Settled(h, a.n, s.now);
      SettledUpdate(h, a.n, if a.Expire? then Waiting else Sent(s.now), s.now);
      forall k
        ensures SettledHistory(History(e', k), s.now)
      {
        assert SettledHistory(History(e, k), s.now);
      }
    }
  }

  lemma {:induction false} PromptStep(s: State, a: Action)
    requires AllSettled(s) && Prompt(s, a)
    ensures AllSettled(Act(s, a))
  {
    match a
    case Emit(p) => PromptEmit(s, p);
    case Expire(_, _) => PromptTimer(s, a);
    case Callback(_, _) => PromptTimer(s, a);
    case Pass(d) =>
      var later := s.now + d;
      forall key
        ensures SettledHistory(History(s.e, key), later)
      {
        var h := History(s.e, key);
        assert SettledHistory(h, s.now);
        forall n | 0 <= n < |h|
          ensures Settled(h, n, later)
        {
          assert Settled(h, n, s.now);
        }
      }
  }

  lemma {:induction false} PromptRunSettles(actions: seq<Action>)
    requires PromptRun(actions)
    ensures AllSettled(Run(actions))
  {
    if actions != [] {
      PromptRunSettles(actions[..|actions| - 1]);
      PromptStep(Run(actions[..|actions| - 1]), actions[|actions| - 1]);
    }
  }

  /** The reference debouncer, on the emit log of one key: a maximal burst with gaps under the
      window sends its last payload once, one window after its last emit. */
  datatype Emission = Emission(payload: EventPayload, at: nat)

  function BurstSends(log: seq<Emission>): seq<Emission> {
    if log == [] then []
    else
      var rest := BurstSends(log[1..]);
      if |log| > 1 && log[1].at < log[0].at + WINDOW then rest
      else [Emission(log[0].payload, log[0].at + WINDOW)] + rest
  }

  function EmitLog(h: seq<Timer>): seq<Emission> {
    if h == [] then [] else [Emission(h[0].payload, h[0].emittedAt)] + EmitLog(h[1..])
  }

  function SentLog(h: seq<Timer>): seq<Emission> {
    if h == [] then []
    else if h[0].phase.Sent? then [Emission(h[0].payload, h[0].phase.at)] + SentLog(h[1..])
    else SentLog(h[1..])
  }

  /** What the newest timer of a key is still to send, at its deadline. */
  function Coming(h: seq<Timer>): seq<Emission> {
    if h != [] && h[|h| - 1].Live() then [Emission(h[|h| - 1].payload, h[|h| - 1].Due())] else []
  }

  lemma {:induction false} SettledHistoryIsReference(h: seq<Timer>, now: nat)
    requires SettledHistory(h, now)
    ensures SentLog(h) + Coming(h) == BurstSends(EmitLog(h))
  {
    if h != [] {
      var rest := h[1..];
      forall n | 0 <= n < |rest|
        ensures Settled(rest, n, now)
      {
        assert Settled(h, n + 1, now);
      }
      SettledHistoryIsReference(rest, now);
      assert Settled(h, 0, now);
      EmitLogParts(h);
      assert rest != [] ==> Coming(h) == Coming(rest);
    }
  }

  lemma {:induction false} EmitLogParts(h: seq<Timer>)
    requires h != []
    ensures EmitLog(h)[0] == Emission(h[0].payload, h[0].emittedAt) && EmitLog(h)[1..] == EmitLog(h[1..])
    ensures |EmitLog(h)| > 1 <==> |h| > 1
    ensures |h| > 1 ==> EmitLog(h)[1] == Emission(h[1].payload, h[1].emittedAt)
  {
    assert |h| > 1 ==> EmitLog(h[1..])[0] == Emission(h[1].payload, h[1].emittedAt);
  }

  /** With prompt callbacks the debouncer refines the reference at every moment: for every key, what
      it has sent, and the one payload its newest timer is still to send, are what the reference
      computes from the emits alone. */
  lemma {:induction false} RefinesReference(actions: seq<Action>, key: string)
    requires PromptRun(actions)
    ensures var h := History(Run(actions).e, key); SentLog(h) + Coming(h) == BurstSends(EmitLog(h))
  {
    PromptRunSettles(actions);
    SettledHistoryIsReference(History(Run(actions).e, key), Run(actions).now);
  }

  /** Once the newest timer of the key has run out, all of it has been sent. */
  lemma {:induction false} AtRestAllIsSent(actions: seq<Action>, key: string)
    requires PromptRun(actions)
    requires var h := History(Run(actions).e, key); h == [] || !h[|h| - 1].Live()
    ensures var h := History(Run(actions).e, key); SentLog(h) == BurstSends(EmitLog(h))
  {
    RefinesReference(actions, key);
    var h := History(Run(actions).e, key);
    assert SentLog(h) + [] == SentLog(h);
  }

  /** With prompt callbacks two sends of one key are at least the window apart. */
  lemma {:induction false} SendsApart(actions: seq<Action>, key: string, i: nat, j: nat)
    requires PromptRun(actions)
    requires i < j < |History(Run(actions).e, key)|
    requires History(Run(actions).e, key)[i].phase.Sent? && History(Run(actions).e, key)[j].phase.Sent?
    ensures History(Run(actions).e, key)[i].phase.at + WINDOW <= History(Run(actions).e, key)[j].phase.at
  {
    PromptRunSettles(actions);
    SettledApart(History(Run(actions).e, key), i, j, Run(actions).now);
  }

  lemma {:induction false} SettledApart(h: seq<Timer>, i: nat, j: nat, now: nat)
    requires SettledHistory(h, now)
    requires i < j < |h| && h[i].phase.Sent? && h[j].phase.Sent?
    ensures h[i].phase.at + WINDOW <= h[j].phase.at
  {
    assert Settled(h, i, now) && Settled(h, j, now);
    EmitsInOrder(h, i + 1, j, now);
  }

  lemma {:induction false} EmitsInOrder(h: seq<Timer>, i: nat, j: nat, now: nat)
    requires i <= j < |h|
    requires SettledHistory(h, now)
    ensures h[i].emittedAt <= h[j].emittedAt
    decreases j - i
  {
    if i < j {
      assert Settled(h, i, now);
      EmitsInOrder(h, i + 1, j, now);
    }
  }

  // ----- One send per burst, exactly -----

  /** The n-th timer is cancelled exactly if the next emit of the key came inside its window. */
  predicate CutRight(h: seq<Timer>, n: nat)
    requires n + 1 < |h|
  {
    h[n].phase.Cancelled? <==> h[n + 1].emittedAt < h[n].Due()
  }

  /** Payloads are dropped within their bursts, and only there. */
  ghost predicate OnePerBurst(h: seq<Timer>) {
    forall n | 0 <= n < |h| - 1 :: CutRight(h, n)
  }

  /** The guard an Emit should meet: it finds a timer to stop exactly if the window of the key's last
      emit is still open. */
  predicate Timely(s: State, key: string) {
    var h := History(s.e, key);
    h == [] || (s.now < h[|h| - 1].Due() <==> key in s.e.timers && h[|h| - 1].phase.Armed?)
  }

  predicate EmitsUnder(a: Action, key: string) {
    a.Emit? && Key(a.p.carID, a.p.eventType) == key
  }

  /** Every Emit of the key met that guard. */
  ghost predicate TimelyEmits(actions: seq<Action>, key: string) {
    actions == [] ||
    (var init, a := actions[..|actions| - 1], actions[|actions| - 1];
     TimelyEmits(init, key) && (EmitsUnder(a, key) ==> Timely(Run(init), key)))
  }

  /** The timers agree in what OnePerBurst asks of them. */
  predicate SameMark(t: Timer, u: Timer) {
    t.emittedAt == u.emittedAt && (t.phase.Cancelled? <==> u.phase.Cancelled?)
  }

  lemma {:induction false} SameBursts(h: seq<Timer>, h': seq<Timer>)
    requires |h'| == |h| && forall n | 0 <= n < |h| :: SameMark(h'[n], h[n])
    ensures OnePerBurst(h') <==> OnePerBurst(h)
  {
    forall n | 0 <= n < |h| - 1
      ensures CutRight(h', n) <==> CutRight(h, n)
    {
      assert SameMark(h'[n], h[n]) && SameMark(h'[n + 1], h[n + 1]);
    }
    if OnePerBurst(h') {
      assert forall n | 0 <= n < |h| - 1 :: CutRight(h', n);
    }
  }

  /** One more emit. */
  lemma {:induction false} LongerBursts(h: seq<Timer>, t: Timer)
    requires h != []
    ensures OnePerBurst(h + [t]) <==>
            OnePerBurst(h) && (h[|h| - 1].phase.Cancelled? <==> t.emittedAt < h[|h| - 1].Due())
  {
    var all, last := h + [t], |h| - 1;
    forall n | 0 <= n < last
      ensures CutRight(all, n) <==> CutRight(h, n)
    {
    }
    if OnePerBurst(all) {
      assert CutRight(all, last);
      assert forall n | 0 <= n < last :: CutRight(all, n);
    }
  }

  /** What an Emit does to the last timer of its key. */
  lemma {:induction false} RearmMarks(e: Emitter, key: string, p: EventPayload, now: nat)
    requires Tracked(e) && History(e, key) != []
    ensures var h, last := History(e, key), |History(e, key)| - 1;
            var phase := if key in e.timers && h[last].phase.Armed? then Cancelled else h[last].phase;
            History(Rearmed(e, key, p, now), key) == h[last := h[last].(phase := phase)] + [Timer(p, now, Armed)]
    ensures !History(e, key)[|History(e, key)| - 1].phase.Cancelled?
  {
    var h := History(e, key);
    assert h[|h| - 1 := h[|h| - 1]] == h;
  }

  lemma {:induction false} BurstEmit(e: Emitter, key: string, p: EventPayload, now: nat)
    requires Tracked(e)
    ensures OnePerBurst(History(Rearmed(e, key, p, now), key)) <==> OnePerBurst(History(e, key)) && Timely(State(now, e), key)
  {
    var h := History(e, key);
    if h == [] {
      assert |History(Rearmed(e, key, p, now), key)| == 1;
    } else {
      RearmMarks(e, key, p, now);
      var last := |h| - 1;
      var phase := if key in e.timers && h[last].phase.Armed? then Cancelled else h[last].phase;
      BurstStopped(h, phase, p, now);
    }
  }

  lemma {:induction false} BurstStopped(h: seq<Timer>, phase: Phase, p: EventPayload, now: nat)
    requires h != [] && !h[|h| - 1].phase.Cancelled?
    ensures OnePerBurst(h[|h| - 1 := h[|h| - 1].(phase := phase)] + [Timer(p, now, Armed)]) <==>
            OnePerBurst(h) && (phase.Cancelled? <==> now < h[|h| - 1].Due())
  {
    var last := |h| - 1;
    var cut := h[last := h[last].(phase := phase)];
    LongerBursts(cut, Timer(p, now, Armed));
    if last > 0 {
      LongerBursts(h[..last], h[last]);
      LongerBursts(h[..last], cut[last]);
      assert h == h[..last] + [h[last]] && cut == h[..last] + [cut[last]];
    }
  }

  lemma {:induction false} TimerMarks(h: seq<Timer>, n: nat, phase: Phase)
    requires n < |h| && !h[n].phase.Cancelled? && !phase.Cancelled?
    ensures OnePerBurst(h[n := h[n].(phase := phase)]) <==> OnePerBurst(h)
  {
    SameBursts(h, h[n := h[n].(phase := phase)]);
  }

  lemma {:induction false} BurstOther(s: State, key: string, a: Action)
    requires !a.Stop? && !EmitsUnder(a, key)
    ensures OnePerBurst(History(Act(s, a).e, key)) <==> OnePerBurst(History(s.e, key))
  {
    var h := History(s.e, key);
    match a
    case Expire(k, n) => if k == key && n < |h| && h[n].phase.Armed? { TimerMarks(h, n, Waiting); }
    case Callback(k, n) => if k == key && n < |h| && h[n].phase.Waiting? { TimerMarks(h, n, Sent(s.now)); }
    case _ =>
  }

  /** In every run without Stop, under every race and delay, and for every key: a payload is dropped
      within its burst, and only there, exactly if every Emit of the key met its guard. */
  lemma {:induction false} OneSendPerBurst(actions: seq<Action>, key: string)
    requires NeverStops(actions)
    ensures OnePerBurst(History(Run(actions).e, key)) <==> TimelyEmits(actions, key)
  {
    if actions != [] {
      var init, a := actions[..|actions| - 1], actions[|actions| - 1];
      OneSendPerBurst(init, key);
      NewestNeverDropped(init);
      if EmitsUnder(a, key) {
        BurstEmit(Run(init).e, key, a.p, Run(init).now);
      } else {
        BurstOther(Run(init), key, a);
      }
    }
  }

  function Payloads(log: seq<Emission>): seq<EventPayload> {
    if log == [] then [] else [log[0].payload] + Payloads(log[1..])
  }

  /** Then, once no timer of the key is live, one payload per burst has been sent, its last, in order:
      those of the reference, however late the callbacks were. */
  lemma {:induction false} TimelyPayloads(actions: seq<Action>, key: string)
    requires NeverStops(actions) && TimelyEmits(actions, key)
    requires AtRest(Run(actions).e, key)
    ensures var h := History(Run(actions).e, key); Payloads(SentLog(h)) == Payloads(BurstSends(EmitLog(h)))
  {
    OneSendPerBurst(actions, key);
    NewestNeverDropped(actions);
    var h := History(Run(actions).e, key);
    assert h != [] ==> !h[|h| - 1].phase.Cancelled?;
    BurstPayloads(h);
  }

  lemma {:induction false} BurstPayloads(h: seq<Timer>)
    requires OnePerBurst(h) && (h != [] ==> !h[|h| - 1].phase.Cancelled?)
    requires forall n | 0 <= n < |h| :: !h[n].Live()
    ensures Payloads(SentLog(h)) == Payloads(BurstSends(EmitLog(h)))
  {
    if h != [] {
      var rest := h[1..];
      forall n | 0 <= n < |rest| - 1
        ensures CutRight(rest, n)
      {
        assert CutRight(h, n + 1);
      }
      BurstPayloads(rest);
      EmitLogParts(h);
      assert |h| > 1 ==> CutRight(h, 0);
      PayloadsCons(Emission(h[0].payload, h[0].Due()), BurstSends(EmitLog(rest)));
      if h[0].phase.Sent? {
        PayloadsCons(Emission(h[0].payload, h[0].phase.at), SentLog(rest));
      }
    }
  }

  lemma {:induction false} PayloadsCons(e: Emission, log: seq<Emission>)
    ensures Payloads([e] + log) == [e.payload] + Payloads(log)
  {
    assert ([e] + log)[1..] == log;
  }

  lemma {:induction false} LastIsPrompt(actions: seq<Action>)
    requires PromptRun(actions) && actions != []
    ensures PromptRun(actions[..|actions| - 1]) && !actions[|actions| - 1].Stop?
  {
    assert Prompt(Run(actions[..|actions| - 1]), actions[|actions| - 1]);
  }

  lemma {:induction false} NoStopInside(actions: seq<Action>, i: nat)
    requires PromptRun(actions) && i < |actions|
    ensures !actions[i].Stop?
  {
    LastIsPrompt(actions);
    if i < |actions| - 1 {
      NoStopInside(actions[..|actions| - 1], i);
    }
  }

  lemma {:induction false} PromptRunsNeverStop(actions: seq<Action>)
    requires PromptRun(actions)
    ensures NeverStops(actions)
  {
    forall i | 0 <= i < |actions|
      ensures !actions[i].Stop?
    {
      NoStopInside(actions, i);
    }
  }

  /** Prompt callbacks are enough. */
  lemma {:induction false} PromptRunsAreTimely(actions: seq<Action>, key: string)
    requires PromptRun(actions)
    ensures TimelyEmits(actions, key)
  {
    PromptRunsNeverStop(actions);
    PromptRunSettles(actions);
    OneSendPerBurst(actions, key);
    var h := History(Run(actions).e, key);
    assert SettledHistory(h, Run(actions).now);
    forall n | 0 <= n < |h| - 1
      ensures CutRight(h, n)
    {
      assert Settled(h, n, Run(actions).now);
    }
  }

  // ----- What the race costs -----

  /** A callback that lost the race for the mutex deletes the entry of the newer timer, so a third
      emit does not meet its guard and cannot stop that one: both are sent, half a window apart,
      although the third emit came inside the second one's window. */
  lemma {:induction false} RaceSendsBoth(p: EventPayload) returns (actions: seq<Action>)
    ensures NeverStops(actions)
    ensures var h := History(Run(actions).e, Key(p.carID, p.eventType));
            |h| == 3 && h[2].emittedAt < h[1].Due() &&
            h[1].phase == Sent(h[1].Due()) && h[2].phase == Sent(h[1].Due() + WINDOW / 2)
    ensures var h := History(Run(actions).e, Key(p.carID, p.eventType));
            |BurstSends(EmitLog(h))| == 2 && |SentLog(h)| == 3 && !OnePerBurst(h)
    ensures !TimelyEmits(actions, Key(p.carID, p.eventType))
  {
    var key := Key(p.carID, p.eventType);
    actions := RacePlay(p, key);
    RaceLogs(p);
    var h := History(Run(actions).e, key);
    assert !CutRight(h, 1);
    OneSendPerBurst(actions, key);
  }

  /** The history the race leads to. */
  function RaceHistory(p: EventPayload): seq<Timer> {
    [Timer(p, 0, Sent(WINDOW)), Timer(p, WINDOW, Sent(2 * WINDOW)), Timer(p, WINDOW + WINDOW / 2, Sent(2 * WINDOW + WINDOW / 2))]
  }

  /** The first callback starts, the second emit overtakes it to the mutex, and the callback then
      takes that emit's map entry away. */
  lemma {:induction false} RaceOpening(p: EventPayload, key: string) returns (actions: seq<Action>)
    requires key == Key(p.carID, p.eventType)
    ensures NeverStops(actions)
    ensures Local(Run(actions), key) == View(WINDOW, [Timer(p, 0, Sent(WINDOW)), Timer(p, WINDOW, Armed)], None)
  {
    actions := ThenEmit([], key, p);
    actions := ThenPass(actions, key, WINDOW);
    actions := ThenExpire(actions, key, 0);
    assert Local(Run(actions), key) == View(WINDOW, [Timer(p, 0, Waiting)], Some(0));
    actions := ThenEmit(actions, key, p);
    assert Local(Run(actions), key) == View(WINDOW, [Timer(p, 0, Waiting), Timer(p, WINDOW, Armed)], Some(1));
    actions := ThenCallback(actions, key, 0);
  }

  /** A third emit finds no entry. */
  lemma {:induction false} RaceThird(p: EventPayload, key: string, opening: seq<Action>, h: seq<Timer>)
    returns (actions: seq<Action>)
    requires key == Key(p.carID, p.eventType) && NeverStops(opening)
    requires |h| == 2 && Local(Run(opening), key) == View(WINDOW, h, None)
    ensures NeverStops(actions)
    ensures Local(Run(actions), key) ==
            View(WINDOW + WINDOW / 2, h + [Timer(p, WINDOW + WINDOW / 2, Armed)], Some(2))
  {
    actions := ThenPass(opening, key, WINDOW / 2);
    actions := ThenEmit(actions, key, p);
  }

  /** The n-th timer is armed and due after d. */
  predicate DueIn(v: View, n: nat, d: nat) {
    n < |v.h| && v.h[n].phase.Armed? && v.h[n].Due() == v.now + d
  }

  function AfterSend(v: View, n: nat, d: nat): View
    requires DueIn(v, n, d)
  {
    View(v.now + d, v.h[n := v.h[n].(phase := Sent(v.now + d))], None)
  }

  /** An armed timer sends when its time has come, whatever the map says. */
  lemma {:induction false} ThenDue(opening: seq<Action>, key: string, v: View, n: nat, d: nat)
    returns (actions: seq<Action>)
    requires NeverStops(opening) && Local(Run(opening), key) == v && DueIn(v, n, d)
    ensures NeverStops(actions)
    ensures Local(Run(actions), key) == AfterSend(v, n, d)
  {
    actions := ThenPass(opening, key, d);
    actions := ThenSend(actions, key, n);
  }

  function AfterThird(p: EventPayload): View {
    View(WINDOW + WINDOW / 2,
         [Timer(p, 0, Sent(WINDOW)), Timer(p, WINDOW, Armed), Timer(p, WINDOW + WINDOW / 2, Armed)], Some(2))
  }

  /** Half a window later the second timer sends all the same, and then the third. */
  lemma {:induction false} RaceEnding(p: EventPayload)
    ensures DueIn(AfterThird(p), 1, WINDOW / 2)
    ensures var v := AfterSend(AfterThird(p), 1, WINDOW / 2);
            DueIn(v, 2, WINDOW / 2) && AfterSend(v, 2, WINDOW / 2).h == RaceHistory(p)
  {
  }

  lemma {:induction false} RacePlay(p: EventPayload, key: string) returns (actions: seq<Action>)
    requires key == Key(p.carID, p.eventType)
    ensures NeverStops(actions)
    ensures History(Run(actions).e, key) == RaceHistory(p)
  {
    actions := RaceOpening(p, key);
    actions := RaceThird(p, key, actions, [Timer(p, 0, Sent(WINDOW)), Timer(p, WINDOW, Armed)]);
    var v := AfterThird(p);
    RaceEnding(p);
    actions := ThenDue(actions, key, v, 1, WINDOW / 2);
    actions := ThenDue(actions, key, AfterSend(v, 1, WINDOW / 2), 2, WINDOW / 2);
  }

  lemma {:induction false} ThenSend(actions: seq<Action>, key: string, n: nat) returns (longer: seq<Action>)
    requires NeverStops(actions)
    requires var v := Local(Run(actions), key);
             n < |v.h| && v.h[n].phase.Armed? && v.h[n].Due() <= v.now
    ensures NeverStops(longer)
    ensures var v := Local(Run(actions), key);
            Local(Run(longer), key) == View(v.now, v.h[n := v.h[n].(phase := Sent(v.now))], None)
  {
    longer := ThenExpire(actions, key, n);
    longer := ThenCallback(longer, key, n);
  }

  lemma {:induction false} RaceLogs(p: EventPayload)
    ensures var h := RaceHistory(p);
            |BurstSends(EmitLog(h))| == 2 && |SentLog(h)| == 3
  {
    var h := RaceHistory(p);
    var h1, h2 := h[1..], h[2..];
    assert h1[1..] == h2 && h2[1..] == [];
    assert EmitLog(h2) == [Emission(p, WINDOW + WINDOW / 2)];
    assert EmitLog(h1) == [Emission(p, WINDOW)] + EmitLog(h2);
    assert EmitLog(h1)[1..] == EmitLog(h2) && EmitLog(h)[1..] == EmitLog(h1);
    assert |BurstSends(EmitLog(h2))| == 1;
    assert |SentLog(h2)| == 1 && |SentLog(h1)| == 2;
  }

  /** What concerns one key: the clock, its timers, its map entry. */
  datatype View = View(now: nat, h: seq<Timer>, entry: Option<nat>)

  function Local(s: State, key: string): View {
    View(s.now, History(s.e, key), if key in s.e.timers then Some(s.e.timers[key]) else None)
  }

  lemma {:induction false} Then(actions: seq<Action>, a: Action) returns (longer: seq<Action>)
    requires NeverStops(actions) && !a.Stop?
    ensures NeverStops(longer)
    ensures Run(longer) == Act(Run(actions), a)
    ensures PromptRun(actions) && Prompt(Run(actions), a) ==> PromptRun(longer)
  {
    longer := actions + [a];
    assert longer[..|actions|] == actions;
  }

  lemma {:induction false} ThenEmit(actions: seq<Action>, key: string, p: EventPayload) returns (longer: seq<Action>)
    requires NeverStops(actions) && key == Key(p.carID, p.eventType)
    ensures NeverStops(longer)
    ensures var v := Local(Run(actions), key);
            Local(Run(longer), key) ==
            View(v.now, (if v.entry.Some? then StopTimer(v.h, v.entry.value) else v.h) + [Timer(p, v.now, Armed)], Some(|v.h|))
  {
    longer := Then(actions, Emit(p));
  }

  lemma {:induction false} ThenPass(actions: seq<Action>, key: string, d: nat) returns (longer: seq<Action>)
    requires NeverStops(actions)
    ensures NeverStops(longer)
    ensures var v := Local(Run(actions), key);
            Local(Run(longer), key) == v.(now := v.now + d)
  {
    longer := Then(actions, Pass(d));
  }

  lemma {:induction false} ThenExpire(actions: seq<Action>, key: string, n: nat) returns (longer: seq<Action>)
    requires NeverStops(actions)
    requires var v := Local(Run(actions), key);
             n < |v.h| && v.h[n].phase.Armed? && v.h[n].Due() <= v.now
    ensures NeverStops(longer)
    ensures var v := Local(Run(actions), key);
            Local(Run(longer), key) == v.(h := v.h[n := v.h[n].(phase := Waiting)])
  {
    longer := Then(actions, Expire(key, n));
  }

  lemma {:induction false} ThenCallback(actions: seq<Action>, key: string, n: nat) returns (longer: seq<Action>)
    requires NeverStops(actions)
    requires var v := Local(Run(actions), key);
             n < |v.h| && v.h[n].phase.Waiting?
    ensures NeverStops(longer)
    ensures var v := Local(Run(actions), key);
            Local(Run(longer), key) == View(v.now, v.h[n := v.h[n].(phase := Sent(v.now))], None)
  {
    longer := Then(actions, Callback(key, n));
  }
}
