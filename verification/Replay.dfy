/** The event stream is faithful: what a car is doing can be read off its raised events. */
module Replay {
  import opened GoValues
  import opened Models
  import opened Engine
  import D = Deferral
  import T = Topics

  /** The raised events of an effect list, each with the geofence name its payload would carry. */
  datatype Note = Note(event: EventType, geofence: string)

  function Notes(out: seq<Effect>): seq<Note> {
    if out == [] then []
    else Notes(out[..|out| - 1]) +
         (if out[|out| - 1].Raised? then [Note(out[|out| - 1].event, out[|out| - 1].geofence)] else [])
  }

  datatype Aspect = Driving | Asleep | Charging | Plugged | Place
  datatype Reading = Flag(on: bool) | Name(geofence: string)

  /** What a listener believes about one aspect of the car after one more event. */
  function Hear(belief: Reading, n: Note, a: Aspect): Reading {
    match a
    case Driving =>
      if n.event == DriveStarted then Flag(true) else if n.event == DriveEnded then Flag(false) else belief
    case Asleep =>
      if n.event == VehicleFallingAsleep || n.event == VehicleAsleep then Flag(true)
      else if n.event == VehicleWoke then Flag(false) else belief
    case Charging =>
      if n.event == ChargingStarted then Flag(true)
      else if n.event == ChargingCompleted || n.event == ChargingInterrupted then Flag(false) else belief
    case Plugged =>
      if n.event == ChargerConnected then Flag(true) else if n.event == ChargerDisconnected then Flag(false) else belief
    case Place =>
      if n.event == GeofenceEntered then Name(n.geofence) else if n.event == GeofenceExited then Name("") else belief
  }

  /** The aspect an event speaks of, if any. */
  function About(e: EventType): Option<Aspect> {
    match e
    case DriveStarted => Some(Driving)
    case DriveEnded => Some(Driving)
    case VehicleFallingAsleep => Some(Asleep)
    case VehicleAsleep => Some(Asleep)
    case VehicleWoke => Some(Asleep)
    case ChargingStarted => Some(Charging)
    case ChargingCompleted => Some(Charging)
    case ChargingInterrupted => Some(Charging)
    case ChargerConnected => Some(Plugged)
    case ChargerDisconnected => Some(Plugged)
    case GeofenceEntered => Some(Place)
    case GeofenceExited => Some(Place)
    case _ => None
  }

  /** Replaying events from a baseline. */
  function Belief(base: Reading, notes: seq<Note>, a: Aspect): Reading {
    if notes == [] then base else Hear(Belief(base, notes[..|notes| - 1], a), notes[|notes| - 1], a)
  }

  /** Driving and charger events always change the belief, and a car only wakes up from sleep. */
  predicate NewsTo(belief: Reading, n: Note, a: Aspect) {
    && ((a == Driving || a == Plugged) && About(n.event) == Some(a) ==> Hear(belief, n, a) != belief)
    && (a == Asleep && n.event == VehicleWoke ==> belief == Flag(true))
  }

  ghost predicate AllNews(base: Reading, notes: seq<Note>, a: Aspect) {
    notes == [] ||
    (AllNews(base, notes[..|notes| - 1], a) && NewsTo(Belief(base, notes[..|notes| - 1], a), notes[|notes| - 1], a))
  }

  /** What a car publishes about itself, and the truth of each aspect. */
  datatype Shown = Shown(state: string, chargingState: string, pluggedIn: bool, geofence: string)

  function Show(c: Car): Shown {
    Shown(c.state, c.chargingState, c.pluggedIn, c.geofence)
  }

  function Truth(s: Shown, a: Aspect): Reading {
    match a
    case Driving => Flag(s.state == DRIVING)
    case Asleep => Flag(Sleeping(s.state))
    case Charging => Flag(s.chargingState == CHARGING)
    case Plugged => Flag(s.pluggedIn)
    case Place => Name(s.geofence)
  }

  /** The field an aspect is published under, and what a published value means for it. */
  function FieldOf(a: Aspect): T.Field {
    match a
    case Driving => T.State
    case Asleep => T.State
    case Charging => T.ChargingState
    case Plugged => T.PluggedIn
    case Place => T.Geofence
  }

  function Meaning(a: Aspect, value: string): Reading {
    match a
    case Driving => Flag(value == DRIVING)
    case Asleep => Flag(Sleeping(value))
    case Charging => Flag(value == CHARGING)
    case Plugged => Flag(value == "true")
    case Place => Name(value)
  }

  /** The first value received for a field, if any. */
  function FirstValue(history: seq<Event>, f: T.Field): Option<string> {
    if history == [] then None
    else
      var earlier := FirstValue(history[..|history| - 1], f);
      var i := history[|history| - 1].input;
      if earlier.None? && i.Msg? && i.field == f then Some(i.value) else earlier
  }

  /** What an aspect's first message silently sets; before it, what "" means. */
  function Baseline(history: seq<Event>, a: Aspect): Reading {
    var first := FirstValue(history, FieldOf(a));
    Meaning(a, if first.Some? then first.value else "")
  }

  // ----- Lists of notes -----

  lemma {:induction false} NotesSnoc(out: seq<Effect>, e: Effect)
    ensures Notes(out + [e]) == Notes(out) + (if e.Raised? then [Note(e.event, e.geofence)] else [])
  {
    assert (out + [e])[..|out|] == out;
  }

  lemma {:induction false} NotesConcat(a: seq<Effect>, b: seq<Effect>)
    ensures Notes(a + b) == Notes(a) + Notes(b)
  {
    if b == [] {
      assert a + b == a;
    } else {
      var init, last := b[..|b| - 1], b[|b| - 1];
      NotesConcat(a, init);
      assert b == init + [last];
      assert a + b == (a + init) + [last];
      NotesSnoc(a + init, last);
      NotesSnoc(init, last);
      var note := if last.Raised? then [Note(last.event, last.geofence)] else [];
      assert Notes(a) + Notes(init) + note == Notes(a) + (Notes(init) + note);
    }
  }

  lemma {:induction false} NoNotes(out: seq<Effect>)
    requires forall i | 0 <= i < |out| :: !out[i].Raised?
    ensures Notes(out) == []
  {
    if out != [] {
      NoNotes(out[..|out| - 1]);
    }
  }

  lemma {:induction false} BeliefConcat(base: Reading, m: seq<Note>, n: seq<Note>, a: Aspect)
    ensures Belief(base, m + n, a) == Belief(Belief(base, m, a), n, a)
    ensures AllNews(base, m + n, a) <==> AllNews(base, m, a) && AllNews(Belief(base, m, a), n, a)
  {
    if n == [] {
      assert m + n == m;
    } else {
      BeliefConcat(base, m, n[..|n| - 1], a);
      assert (m + n)[..|m + n| - 1] == m + n[..|n| - 1];
    }
  }

  lemma {:induction false} BeliefOne(base: Reading, n: Note, a: Aspect)
    ensures Belief(base, [n], a) == Hear(base, n, a)
    ensures AllNews(base, [n], a) <==> NewsTo(base, n, a)
  {
    assert [n][..0] == [];
  }

  // ----- What operations raise -----

  function OpNotes(ops: seq<Op>, geofence: string): seq<Note> {
    if ops == [] then []
    else OpNotes(ops[..|ops| - 1], geofence) +
         (if ops[|ops| - 1].Raise? then [Note(ops[|ops| - 1].event, geofence)] else [])
  }

  lemma {:induction false} OpNotesConcat(a: seq<Op>, b: seq<Op>, geofence: string)
    ensures OpNotes(a + b, geofence) == OpNotes(a, geofence) + OpNotes(b, geofence)
  {
    if b == [] {
      assert a + b == a;
    } else {
      var init, last := b[..|b| - 1], b[|b| - 1];
      OpNotesConcat(a, init, geofence);
      assert (a + b)[..|a + b| - 1] == a + init;
    }
  }

  lemma {:induction false} PerformNotes(x: Ctx, r: Res, op: Op)
    ensures Show(Perform(x, r, op).car) == Show(r.car)
    ensures Notes(Perform(x, r, op).out) == Notes(r.out) + (if op.Raise? then [Note(op.event, r.car.geofence)] else [])
  {
    match op
    case Raise(e) => EmitNotes(x, r, e);
    case Flush =>
      FlushSilent(x, r.car, r.car.pending);
      SilentTail(r.out, FlushOut(x, r.car, r.car.pending));
    case _ => SilentTail(r.out, SwitchOut(x, r.car, op));
  }

  lemma {:induction false} SilentTail(out: seq<Effect>, tail: seq<Effect>)
    requires forall i | 0 <= i < |tail| :: !tail[i].Raised?
    ensures Notes(out + tail) == Notes(out) + []
  {
    NotesConcat(out, tail);
    NoNotes(tail);
  }

  lemma {:induction false} EmitNotes(x: Ctx, r: Res, e: EventType)
    ensures Show(Emit(x, r, e).car) == Show(r.car)
    ensures Notes(Emit(x, r, e).out) == Notes(r.out) + [Note(e, r.car.geofence)]
  {
    var raised := Raised(e, r.car.geofence);
    var second := if Immediate(e, r.car) then Handed(BuildPayload(x, r.car, e)) else Deferred(e, x.env.now + DEFER_DELAY);
    assert Emit(x, r, e).out == r.out + [raised] + [second];
    NotesSnoc(r.out, raised);
    NotesSnoc(r.out + [raised], second);
  }

  lemma {:induction false} FlushSilent(x: Ctx, c: Car, ps: seq<Pending>)
    ensures forall i | 0 <= i < |FlushOut(x, c, ps)| :: FlushOut(x, c, ps)[i].Handed?
  {
    if ps != [] {
      FlushSilent(x, c, ps[..|ps| - 1]);
    }
  }

  lemma {:induction false} PerformAllNotes(x: Ctx, r: Res, ops: seq<Op>)
    ensures Show(PerformAll(x, r, ops).car) == Show(r.car)
    ensures Notes(PerformAll(x, r, ops).out) == Notes(r.out) + OpNotes(ops, r.car.geofence)
  {
    if ops != [] {
      PerformAllNotes(x, r, ops[..|ops| - 1]);
      PerformNotes(x, PerformAll(x, r, ops[..|ops| - 1]), ops[|ops| - 1]);
    }
  }

  // ----- One message -----

  lemma {:induction false} ThreeStatesDiffer()
    ensures DRIVING != ASLEEP && DRIVING != SUSPENDED && DRIVING != OFFLINE
    ensures !Sleeping(DRIVING) && !Sleeping("")
  {
    assert |DRIVING| == 7 && |ASLEEP| == 6 && |SUSPENDED| == 9 && |OFFLINE| == 7;
    assert DRIVING[0] != OFFLINE[0];
  }

  function NotesIf(cond: bool, e: EventType, g: string): seq<Note> {
    if cond then [Note(e, g)] else []
  }

  /** What a state transition raises: at most one driving event, then at most one sleep event. */
  function DriveNotes(prev: string, next: string, g: string): seq<Note> {
    if next == DRIVING then [Note(DriveStarted, g)] else NotesIf(prev == DRIVING, DriveEnded, g)
  }

  function SleepNotes(prev: string, next: string, g: string): seq<Note> {
    if next == SUSPENDED then [Note(VehicleFallingAsleep, g)]
    else if Sleeping(next) then [Note(VehicleAsleep, g)]
    else NotesIf(Sleeping(prev), VehicleWoke, g)
  }

  lemma {:induction false} StateNotes(prev: string, next: string, g: string)
    requires prev != next
    ensures OpNotes(StateOps(prev, next), g) == DriveNotes(prev, next, g) + SleepNotes(prev, next, g)
  {
    ThreeStatesDiffer();
    assert SUSPENDED != ASLEEP && SUSPENDED != OFFLINE by { assert |SUSPENDED| == 9 && |ASLEEP| == 6 && |OFFLINE| == 7; }
    StateOpNotes(next == DRIVING, prev == DRIVING, next == SUSPENDED, next == ASLEEP || next == OFFLINE,
                 Sleeping(prev) && !Sleeping(next), g);
  }

  lemma {:induction false} StateOpNotes(started: bool, ended: bool, falling: bool, asleep: bool, woke: bool, g: string)
    ensures OpNotes((if started then [Raise(DriveStarted), StartDrive] else []) +
                    (if ended then [StopDrive, Raise(DriveEnded)] else []) +
                    (if falling then [Raise(VehicleFallingAsleep)] else []) +
                    (if asleep then [Raise(VehicleAsleep)] else []) +
                    (if woke then [Raise(VehicleWoke)] else []), g)
         == NotesIf(started, DriveStarted, g) + NotesIf(ended, DriveEnded, g) + NotesIf(falling, VehicleFallingAsleep, g) +
            NotesIf(asleep, VehicleAsleep, g) + NotesIf(woke, VehicleWoke, g)
  {
    var a := if started then [Raise(DriveStarted), StartDrive] else [];
    var b := if ended then [StopDrive, Raise(DriveEnded)] else [];
    var c := if falling then [Raise(VehicleFallingAsleep)] else [];
    var d := if asleep then [Raise(VehicleAsleep)] else [];
    var e := if woke then [Raise(VehicleWoke)] else [];
    OpNotesConcat(a + b + c + d, e, g);
    OpNotesConcat(a + b + c, d, g);
    OpNotesConcat(a + b, c, g);
    OpNotesConcat(a, b, g);
    SmallOpNotes(g);
  }

  lemma {:induction false} SmallOpNotes(g: string)
    ensures OpNotes([Raise(DriveStarted), StartDrive], g) == [Note(DriveStarted, g)]
    ensures OpNotes([StopDrive, Raise(DriveEnded)], g) == [Note(DriveEnded, g)]
    ensures OpNotes([Raise(ChargingStarted), StartCharge], g) == [Note(ChargingStarted, g)]
    ensures OpNotes([StopCharge, Raise(ChargingCompleted)], g) == [Note(ChargingCompleted, g)]
    ensures OpNotes([StopCharge, Raise(ChargingInterrupted)], g) == [Note(ChargingInterrupted, g)]
    ensures forall e :: OpNotes([Raise(e)], g) == [Note(e, g)]
  {
    PairOpNotes(DriveStarted, StartDrive, g);
    PairOpNotes(DriveEnded, StopDrive, g);
    PairOpNotes(ChargingStarted, StartCharge, g);
    PairOpNotes(ChargingCompleted, StopCharge, g);
    PairOpNotes(ChargingInterrupted, StopCharge, g);
    forall e
      ensures OpNotes([Raise(e)], g) == [Note(e, g)]
    {
      PairOpNotes(e, StopDrive, g);
    }
  }

  lemma {:induction false} PairOpNotes(e: EventType, op: Op, g: string)
    requires !op.Raise?
    ensures OpNotes([Raise(e), op], g) == OpNotes([op, Raise(e)], g) == OpNotes([Raise(e)], g) == [Note(e, g)]
  {
    assert [Raise(e)][..0] == [];
    assert [Raise(e), op][..1] == [Raise(e)];
    assert [op, Raise(e)][..1] == [op];
  }

  lemma {:induction false} ChargingNotes(prev: string, next: string, g: string)
    requires prev != next
    ensures OpNotes(ChargingOps(prev, next), g) ==
            if next == CHARGING then [Note(ChargingStarted, g)]
            else if next == COMPLETE then [Note(ChargingCompleted, g)]
            else if prev == CHARGING then [Note(ChargingInterrupted, g)] else []
  {
    assert CHARGING != COMPLETE by { assert CHARGING[1] != COMPLETE[1]; }
    var a := if next == CHARGING then [Raise(ChargingStarted), StartCharge] else [];
    var b := if next == COMPLETE then [StopCharge, Raise(ChargingCompleted)] else [];
    var c := if prev == CHARGING && next != COMPLETE && next != CHARGING then [StopCharge, Raise(ChargingInterrupted)] else [];
    assert ChargingOps(prev, next) == a + b + c;
    OpNotesConcat(a + b, c, g);
    OpNotesConcat(a, b, g);
    SmallOpNotes(g);
  }

  lemma {:induction false} RaiseBelief(base: Reading, e: EventType, g: string, a: Aspect)
    ensures Belief(base, OpNotes([Raise(e)], g), a) == Hear(base, Note(e, g), a)
    ensures AllNews(base, OpNotes([Raise(e)], g), a) <==> NewsTo(base, Note(e, g), a)
  {
    SmallOpNotes(g);
    BeliefOne(base, Note(e, g), a);
  }

  /** Every event raised speaks of something published under the field. */
  ghost predicate AboutField(ops: seq<Op>, f: T.Field) {
    forall i | 0 <= i < |ops| && ops[i].Raise? && About(ops[i].event).Some? :: FieldOf(About(ops[i].event).value) == f
  }

  lemma {:induction false} RaiseAllAbout(events: seq<EventType>, f: T.Field)
    requires forall e | e in events :: About(e).None?
    ensures AboutField(RaiseAll(events), f)
  {
    D.RaiseAllOnlyRaises(events);
  }

  lemma {:induction false} PlanAboutField(x: Ctx, c: Car, f: T.Field, value: string, first: bool)
    ensures AboutField(Plan(x, c, f, value, first), f)
  {
    if f == T.State {
      StateOpsAbout(c.state, value);
    } else if f == T.ChargingState {
      ChargingPlanAbout(x, c, value, first);
    } else if f == T.BatteryLevel {
      BatteryPlanAbout(x, c, value, first);
    } else {
      OtherPlanAbout(x, c, f, value, first);
    }
  }

  lemma {:induction false} OtherPlanAbout(x: Ctx, c: Car, f: T.Field, value: string, first: bool)
    requires f != T.State && f != T.ChargingState && f != T.BatteryLevel
    ensures AboutField(Plan(x, c, f, value, first), f)
  {
  }

  lemma {:induction false} ChargingPlanAbout(x: Ctx, c: Car, value: string, first: bool)
    ensures AboutField(Plan(x, c, T.ChargingState, value, first), T.ChargingState)
  {
    ChargingOpsAbout("", CHARGING);
    ChargingOpsAbout(c.chargingState, value);
  }

  lemma {:induction false} BatteryPlanAbout(x: Ctx, c: Car, value: string, first: bool)
    ensures AboutField(Plan(x, c, T.BatteryLevel, value, first), T.BatteryLevel)
  {
    if Atoi(value).Some? {
      RaiseAllAbout(BatteryThresholds(x.p, Atoi(value).value, c.lowFired, c.highFired).events, T.BatteryLevel);
    }
  }

  lemma {:induction false} StateOpsAbout(prev: string, next: string)
    ensures AboutField(StateOps(prev, next), T.State)
  {
  }

  lemma {:induction false} ChargingOpsAbout(prev: string, next: string)
    ensures AboutField(ChargingOps(prev, next), T.ChargingState)
  {
  }

  lemma {:induction false} SilentNote(base: Reading, notes: seq<Note>, n: Note, a: Aspect)
    requires Belief(base, notes, a) == base && AllNews(base, notes, a) && About(n.event) != Some(a)
    ensures Belief(base, notes + [n], a) == base && AllNews(base, notes + [n], a)
  {
    assert (notes + [n])[..|notes|] == notes;
  }

  lemma {:induction false} OtherFieldSilent(ops: seq<Op>, f: T.Field, g: string, base: Reading, a: Aspect)
    requires AboutField(ops, f) && f != FieldOf(a)
    ensures Belief(base, OpNotes(ops, g), a) == base && AllNews(base, OpNotes(ops, g), a)
  {
    if ops != [] {
      var init, last := ops[..|ops| - 1], ops[|ops| - 1];
      OtherFieldSilent(init, f, g, base, a);
      if last.Raise? {
        SilentNote(base, OpNotes(init, g), Note(last.event, g), a);
      } else {
        assert OpNotes(init, g) + [] == OpNotes(init, g);
      }
    }
  }

  lemma {:induction false} DriveBelief(prev: string, next: string, g: string, base: Reading, a: Aspect)
    requires prev != next && (a == Driving ==> base == Flag(prev == DRIVING))
    ensures Belief(base, DriveNotes(prev, next, g), a) == if a == Driving then Flag(next == DRIVING) else base
    ensures AllNews(base, DriveNotes(prev, next, g), a)
  {
    BeliefOne(base, Note(DriveStarted, g), a);
    BeliefOne(base, Note(DriveEnded, g), a);
  }

  lemma {:induction false} SleepBelief(prev: string, next: string, g: string, base: Reading, a: Aspect)
    requires a == Asleep ==> base == Flag(Sleeping(prev))
    ensures Belief(base, SleepNotes(prev, next, g), a) == if a == Asleep then Flag(Sleeping(next)) else base
    ensures AllNews(base, SleepNotes(prev, next, g), a)
  {
    BeliefOne(base, Note(VehicleFallingAsleep, g), a);
    BeliefOne(base, Note(VehicleAsleep, g), a);
    BeliefOne(base, Note(VehicleWoke, g), a);
  }

  lemma {:induction false} StateBelief(prev: Shown, value: string, base: Reading, a: Aspect)
    requires prev.state != value && base == Truth(prev, a)
    ensures Belief(base, OpNotes(StateOps(prev.state, value), prev.geofence), a) == Truth(prev.(state := value), a)
    ensures AllNews(base, OpNotes(StateOps(prev.state, value), prev.geofence), a)
  {
    var g := prev.geofence;
    StateNotes(prev.state, value, g);
    var drive, sleep := DriveNotes(prev.state, value, g), SleepNotes(prev.state, value, g);
    BeliefConcat(base, drive, sleep, a);
    DriveBelief(prev.state, value, g, base, a);
    SleepBelief(prev.state, value, g, Belief(base, drive, a), a);
  }

  lemma {:induction false} CompleteIsNotCharging()
    ensures CHARGING != COMPLETE
  {
    assert CHARGING[1] != COMPLETE[1];
  }

  lemma {:induction false} ChargingBelief(prev: string, next: string, g: string)
    requires prev != next
    ensures Belief(Flag(prev == CHARGING), OpNotes(ChargingOps(prev, next), g), Charging) == Flag(next == CHARGING)
  {
    var base := Flag(prev == CHARGING);
    CompleteIsNotCharging();
    ChargingNotes(prev, next, g);
    if next == CHARGING {
      BeliefOne(base, Note(ChargingStarted, g), Charging);
    } else if next == COMPLETE {
      BeliefOne(base, Note(ChargingCompleted, g), Charging);
    } else if prev == CHARGING {
      BeliefOne(base, Note(ChargingInterrupted, g), Charging);
    }
  }

  /** A first charging_state raises charging_started at most, and only if it is true. */
  lemma {:induction false} FirstChargingBelief(x: Ctx, c: Car, value: string)
    ensures Belief(Flag(value == CHARGING), OpNotes(Plan(x, c, T.ChargingState, value, true), c.geofence), Charging) == Flag(value == CHARGING)
  {
    var g := c.geofence;
    assert CHARGING != "" by { assert |CHARGING| == 8; }
    assert OpNotes([StartCharge], g) == [];
    ChargingNotes("", CHARGING, g);
    BeliefOne(Flag(value == CHARGING), Note(ChargingStarted, g), Charging);
  }

  lemma {:induction false} GeofenceBelief(prev: string, value: string)
    ensures Belief(Name(prev), OpNotes(GeofenceOps(prev, value), value), Place) == Name(value)
  {
    var base := Name(prev);
    RaiseBelief(base, GeofenceEntered, value, Place);
    RaiseBelief(base, GeofenceExited, value, Place);
    RaiseBelief(Name(""), GeofenceEntered, value, Place);
    var left, entered := OpNotes([Raise(GeofenceExited)], value), OpNotes([Raise(GeofenceEntered)], value);
    OpNotesConcat([Raise(GeofenceExited)], [Raise(GeofenceEntered)], value);
    assert [Raise(GeofenceExited), Raise(GeofenceEntered)] == [Raise(GeofenceExited)] + [Raise(GeofenceEntered)];
    BeliefConcat(base, left, entered, Place);
  }

  /** About charging and geofences every event counts as news. */
  lemma {:induction false} AlwaysNews(base: Reading, notes: seq<Note>, a: Aspect)
    requires a == Charging || a == Place
    ensures AllNews(base, notes, a)
  {
    if notes != [] {
      AlwaysNews(base, notes[..|notes| - 1], a);
    }
  }

  lemma {:induction false} AssignShown(p: Params, c: Car, f: T.Field, value: string, first: bool)
    ensures Show(Assign(p, c, f, value, first)) ==
            match f
            case State => Show(c).(state := value)
            case ChargingState => Show(c).(chargingState := value)
            case PluggedIn => Show(c).(pluggedIn := value == "true")
            case Geofence => Show(c).(geofence := value)
            case _ => Show(c)
  {
  }

  /** From the true belief before, the plan of a message of the aspect's field leads to the true
      belief after; the first message of a field only ever raises what is true. */
  lemma {:induction false} PlanBelief(x: Ctx, c: Car, value: string, first: bool, base: Reading, a: Aspect)
    requires base == if first then Meaning(a, value) else Truth(Show(c), a)
    ensures var s' := Show(Assign(x.p, c, FieldOf(a), value, first));
            var notes := OpNotes(Plan(x, c, FieldOf(a), value, first), s'.geofence);
            Belief(base, notes, a) == Truth(s', a) && AllNews(base, notes, a)
  {
    var g := Show(Assign(x.p, c, FieldOf(a), value, first)).geofence;
    AssignShown(x.p, c, FieldOf(a), value, first);
    match FieldOf(a)
    case State =>
      if !first && c.state != value {
        StateBelief(Show(c), value, base, a);
      }
    case ChargingState =>
      if first {
        FirstChargingBelief(x, c, value);
      } else if c.chargingState != value {
        ChargingBelief(c.chargingState, value, g);
      }
      AlwaysNews(base, OpNotes(Plan(x, c, FieldOf(a), value, first), g), a);
    case Geofence =>
      GeofenceBelief(c.geofence, value);
      AlwaysNews(base, OpNotes(Plan(x, c, FieldOf(a), value, first), g), a);
    case PluggedIn =>
      RaiseBelief(base, ChargerConnected, g, a);
      RaiseBelief(base, ChargerDisconnected, g, a);
  }

  lemma {:induction false} MessageNotes(x: Ctx, c: Car, f: T.Field, value: string)
    ensures var r := HandleMessage(x, c, f, value);
            var c1 := Received(x, c, f, value);
            var s' := Show(Assign(x.p, c1, f, value, f !in c.initialized));
            Show(r.car) == s' && Notes(r.out) == OpNotes(Plan(x, c1, f, value, f !in c.initialized), s'.geofence)
  {
    var c1 := Received(x, c, f, value);
    var first := f !in c.initialized;
    var r0 := Res(Assign(x.p, c1, f, value, first), []);
    var ops := Plan(x, c1, f, value, first);
    PerformAllNotes(x, r0, ops);
    assert [] + OpNotes(ops, r0.car.geofence) == OpNotes(ops, r0.car.geofence);
  }

  lemma {:induction false} MessageBelief(x: Ctx, c: Car, value: string, base: Reading, a: Aspect)
    requires base == if FieldOf(a) !in c.initialized then Meaning(a, value) else Truth(Show(c), a)
    ensures var r := HandleMessage(x, c, FieldOf(a), value);
            Belief(base, Notes(r.out), a) == Truth(Show(r.car), a) && AllNews(base, Notes(r.out), a)
  {
    MessageNotes(x, c, FieldOf(a), value);
    PlanBelief(x, Received(x, c, FieldOf(a), value), value, FieldOf(a) !in c.initialized, base, a);
  }

  lemma {:induction false} OtherMessageBelief(x: Ctx, c: Car, f: T.Field, value: string, base: Reading, a: Aspect)
    requires f != FieldOf(a)
    ensures var r := HandleMessage(x, c, f, value);
            && Belief(base, Notes(r.out), a) == base && AllNews(base, Notes(r.out), a)
            && Truth(Show(r.car), a) == Truth(Show(c), a)
  {
    var c1 := Received(x, c, f, value);
    var ops := Plan(x, c1, f, value, f !in c.initialized);
    MessageNotes(x, c, f, value);
    PlanAboutField(x, c1, f, value, f !in c.initialized);
    OtherFieldSilent(ops, f, Show(HandleMessage(x, c, f, value).car).geofence, base, a);
    AssignKeepsTruth(x, c, f, value, a);
  }

  lemma {:induction false} AssignKeepsTruth(x: Ctx, c: Car, f: T.Field, value: string, a: Aspect)
    requires f != FieldOf(a)
    ensures Truth(Show(Assign(x.p, Received(x, c, f, value), f, value, f !in c.initialized)), a) == Truth(Show(c), a)
  {
    var c1 := Received(x, c, f, value);
    AssignShown(x.p, c1, f, value, f !in c.initialized);
    assert Show(c1) == Show(c);
  }

  lemma {:induction false} InputBelief(x: Ctx, c: Car, i: Input)
    requires !i.Msg?
    ensures var r := Apply(x, c, i);
            Notes(r.out) == [] && Show(r.car) == Show(c) && r.car.initialized == c.initialized
  {
    NoNotes(Apply(x, c, i).out);
  }

  // ----- Whole histories -----

  /** A car nothing was received for yet but, perhaps, its cached names. */
  ghost predicate Unheard(c: Car) {
    c.initialized <= {T.DisplayName, T.Model} && Show(c) == Shown("", "", false, "")
  }

  lemma {:induction false} MessageInitializes(x: Ctx, c: Car, f: T.Field, value: string)
    ensures HandleMessage(x, c, f, value).car.initialized == c.initialized + {f}
  {
    var c1 := Received(x, c, f, value);
    var first := f !in c.initialized;
    var r0 := Res(Assign(x.p, c1, f, value, first), []);
    D.PerformKeepsNaming(x, r0, Plan(x, c1, f, value, first));
    D.AssignKeepsPending(x.p, c1, f, value, first);
  }

  /** Before the first message of its field, nothing is ever said about an aspect. */
  ghost predicate SaysNothing(notes: seq<Note>, a: Aspect) {
    forall b :: Belief(b, notes, a) == b && AllNews(b, notes, a)
  }

  /** A car and what was heard of it so far agree about an aspect. */
  ghost predicate Faithful(history: seq<Event>, notes: seq<Note>, c: Car, a: Aspect) {
    && Belief(Baseline(history, a), notes, a) == Truth(Show(c), a)
    && AllNews(Baseline(history, a), notes, a)
    && (FieldOf(a) in c.initialized <==> FirstValue(history, FieldOf(a)).Some?)
    && (FieldOf(a) !in c.initialized ==> SaysNothing(notes, a))
  }

  /** One more message, on top of a faithful history. */
  lemma {:induction false} FaithfulMessage(x: Ctx, init: seq<Event>, e: Event, r: Res, a: Aspect)
    requires e.input.Msg? && Faithful(init, Notes(r.out), r.car, a)
    ensures var s := Apply(x, r.car, e.input);
            Faithful(init + [e], Notes(r.out) + Notes(s.out), s.car, a)
  {
    var f, value := e.input.field, e.input.value;
    var s := HandleMessage(x, r.car, f, value);
    assert (init + [e])[..|init|] == init;
    var base := Baseline(init + [e], a);
    BeliefConcat(base, Notes(r.out), Notes(s.out), a);
    MessageInitializes(x, r.car, f, value);
    if f == FieldOf(a) {
      MessageBelief(x, r.car, value, Belief(base, Notes(r.out), a), a);
    } else {
      OtherMessageBelief(x, r.car, f, value, Belief(base, Notes(r.out), a), a);
      if FieldOf(a) !in s.car.initialized {
        forall b
          ensures Belief(b, Notes(r.out) + Notes(s.out), a) == b && AllNews(b, Notes(r.out) + Notes(s.out), a)
        {
          BeliefConcat(b, Notes(r.out), Notes(s.out), a);
          OtherMessageBelief(x, r.car, f, value, b, a);
        }
      }
    }
  }

  lemma {:induction false} FaithfulOther(x: Ctx, init: seq<Event>, e: Event, r: Res, a: Aspect)
    requires !e.input.Msg? && Faithful(init, Notes(r.out), r.car, a)
    ensures var s := Apply(x, r.car, e.input);
            Faithful(init + [e], Notes(r.out) + Notes(s.out), s.car, a)
  {
    InputBelief(x, r.car, e.input);
    assert (init + [e])[..|init|] == init;
    assert Notes(r.out) + [] == Notes(r.out);
  }

  lemma {:induction false} FaithfulStep(x: Ctx, init: seq<Event>, e: Event, r: Res, s: Res, a: Aspect)
    requires Faithful(init, Notes(r.out), r.car, a) && s == Apply(x, r.car, e.input)
    ensures Faithful(init + [e], Notes(r.out + s.out), s.car, a)
  {
    NotesConcat(r.out, s.out);
    if e.input.Msg? {
      FaithfulMessage(x, init, e, r, a);
    } else {
      FaithfulOther(x, init, e, r, a);
    }
  }

  ghost predicate FaithfulLife(p: Params, id: string, c0: Car, history: seq<Event>, a: Aspect) {
    Faithful(history, Notes(Life(p, id, c0, history).out), Life(p, id, c0, history).car, a)
  }

  lemma {:induction false} FaithfulSnoc(p: Params, id: string, c0: Car, init: seq<Event>, e: Event, a: Aspect)
    requires FaithfulLife(p, id, c0, init, a)
    ensures FaithfulLife(p, id, c0, init + [e], a)
  {
    var r, x := Life(p, id, c0, init), Ctx(p, e.env, id);
    LifeSnoc(p, id, c0, init, e);
    FaithfulStep(x, init, e, r, Apply(x, r.car, e.input), a);
  }

  /** Replaying the raised events from the baseline that the field's first message sets tells, after
      every history, whether the car is driving, sleeping, charging or plugged in, and its exact
      geofence; and every driving, charger and wake-up event was news. */
  lemma {:induction false} EventStreamIsFaithful(p: Params, id: string, c0: Car, history: seq<Event>, a: Aspect)
    requires Unheard(c0)
    ensures FaithfulLife(p, id, c0, history, a)
  {
    if history == [] {
      UnheardIsFaithful(c0, a);
    } else {
      var init, e := history[..|history| - 1], history[|history| - 1];
      EventStreamIsFaithful(p, id, c0, init, a);
      FaithfulSnoc(p, id, c0, init, e, a);
      assert history == init + [e];
    }
  }

  lemma {:induction false} UnheardIsFaithful(c0: Car, a: Aspect)
    requires Unheard(c0)
    ensures Faithful([], Notes([]), c0, a)
  {
    ThreeStatesDiffer();
    assert CHARGING != "" by { assert |CHARGING| == 8; }
  }

  // ----- What follows for the order of events -----

  /** While nothing is said about an aspect, the belief stays. */
  lemma {:induction false} SilentBelief(base: Reading, notes: seq<Note>, i: nat, j: nat, a: Aspect)
    requires i <= j <= |notes|
    requires forall k | i <= k < j :: About(notes[k].event) != Some(a)
    ensures Belief(base, notes[..i], a) == Belief(base, notes[..j], a)
  {
    if i < j {
      SilentBelief(base, notes, i, j - 1, a);
      assert notes[..j][..j - 1] == notes[..j - 1];
    }
  }

  lemma {:induction false} NewsAt(base: Reading, notes: seq<Note>, i: nat, a: Aspect)
    requires AllNews(base, notes, a) && i < |notes|
    ensures NewsTo(Belief(base, notes[..i], a), notes[i], a)
    ensures Belief(base, notes[..i + 1], a) == Hear(Belief(base, notes[..i], a), notes[i], a)
  {
    assert notes[..i + 1][..i] == notes[..i];
    if i < |notes| - 1 {
      NewsAt(base, notes[..|notes| - 1], i, a);
      assert notes[..|notes| - 1][..i] == notes[..i];
    }
  }

  /** In every history drive_started and drive_ended strictly alternate, and so do the two charger
      events: of two events about the same aspect, with none between, one is each. */
  lemma {:induction false} StrictAlternation(p: Params, id: string, c0: Car, history: seq<Event>, a: Aspect, i: nat,
                                             j: nat)
    requires Unheard(c0) && (a == Driving || a == Plugged)
    requires var notes := Notes(Life(p, id, c0, history).out);
             && i < j < |notes| && About(notes[i].event) == About(notes[j].event) == Some(a)
             && forall k | i < k < j :: About(notes[k].event) != Some(a)
    ensures var notes := Notes(Life(p, id, c0, history).out);
            notes[i].event != notes[j].event
  {
    var notes, base := Notes(Life(p, id, c0, history).out), Baseline(history, a);
    EventStreamIsFaithful(p, id, c0, history, a);
    NewsAt(base, notes, i, a);
    NewsAt(base, notes, j, a);
    SilentBelief(base, notes, i + 1, j, a);
  }

  /** Between two vehicle_woke events there is a falling-asleep or asleep event. */
  lemma {:induction false} SleepBetweenWakes(p: Params, id: string, c0: Car, history: seq<Event>, i: nat, j: nat)
    requires Unheard(c0)
    requires var notes := Notes(Life(p, id, c0, history).out);
             i < j < |notes| && notes[i].event == notes[j].event == VehicleWoke
    ensures var notes := Notes(Life(p, id, c0, history).out);
            exists k | i < k < j :: notes[k].event == VehicleFallingAsleep || notes[k].event == VehicleAsleep
  {
    var notes, base := Notes(Life(p, id, c0, history).out), Baseline(history, Asleep);
    EventStreamIsFaithful(p, id, c0, history, Asleep);
    NewsAt(base, notes, i, Asleep);
    NewsAt(base, notes, j, Asleep);
    if forall k | i < k < j :: notes[k].event != VehicleFallingAsleep && notes[k].event != VehicleAsleep {
      StaysAwake(base, notes, i + 1, j);
    }
  }

  lemma {:induction false} StaysAwake(base: Reading, notes: seq<Note>, i: nat, j: nat)
    requires i <= j <= |notes| && Belief(base, notes[..i], Asleep) == Flag(false)
    requires forall k | i <= k < j :: notes[k].event != VehicleFallingAsleep && notes[k].event != VehicleAsleep
    ensures Belief(base, notes[..j], Asleep) == Flag(false)
  {
    if i < j {
      StaysAwake(base, notes, i, j - 1);
      assert notes[..j][..j - 1] == notes[..j - 1];
    }
  }
}
