/** remotecfg/store.go: the relay-driven tuning values, their version gate and their clamps. */
module RemoteConfig {
  import opened GoValues

  const MIN_TICK := 5 * SECOND
  const MAX_TICK := 120 * SECOND

  type Values = map<string, string>

  /** A configuration block as it arrives; the values of a JSON null are nil. */
  datatype Delivery = Delivery(version: int, values: Option<Values>)

  /** One line written by warn: the key, and the version in force when it was written. */
  datatype Complaint = Complaint(version: int, key: string)

  datatype StoreState = StoreState(version: int, values: Values, warned: set<string>, complaints: seq<Complaint>)

  const EMPTY := StoreState(0, map[], {}, [])

  predicate Accepts(s: StoreState, d: Delivery) {
    d.version > 0 && d.values.Some? && d.version > s.version
  }

  function Applied(s: StoreState, d: Delivery): StoreState {
    if Accepts(s, d) then StoreState(d.version, d.values.value, {}, s.complaints) else s
  }

  function Warned(s: StoreState, key: string): StoreState {
    s.(warned := s.warned + {key},
       complaints := if key in s.warned then s.complaints else s.complaints + [Complaint(s.version, key)])
  }

  function Lookup(values: Values, key: string): Option<string> {
    if key in values && values[key] != "" then Some(values[key]) else None
  }

  function Clamp(d: int, min: int, max: int): int {
    if d < min then min else if d > max then max else d
  }

  /** The seconds a key holds, when they are usable. */
  function Seconds(values: Values, key: string): Option<int> {
    var raw := Lookup(values, key);
    if raw.None? then None
    else
      var secs := Atoi(raw.value);
      if secs.Some? && secs.value > 0 then secs else None
  }

  function DurationOf(values: Values, key: string, def: int, min: int, max: int): int {
    var secs := Seconds(values, key);
    if secs.None? then def else Clamp(Wrap64(secs.value * SECOND), min, max)
  }

  /** Whether Duration writes a complaint: the key is set, but unusable or clamped. */
  predicate DurationComplains(values: Values, key: string, min: int, max: int) {
    Lookup(values, key).Some? &&
    (var secs := Seconds(values, key);
     secs.None? || !(min <= Wrap64(secs.value * SECOND) <= max))
  }

  function FloatOf(values: Values, parseFloat: string -> Option<real>, key: string, def: real, min: real,
                   max: real): real {
    var raw := Lookup(values, key);
    if raw.None? then def
    else
      var v := parseFloat(raw.value);
      if v.None? then def
      else if v.value < min then min
      else if v.value > max then max
      else v.value
  }

  predicate FloatComplains(values: Values, parseFloat: string -> Option<real>, key: string, min: real, max: real) {
    var raw := Lookup(values, key);
    raw.Some? && (var v := parseFloat(raw.value); v.None? || v.value < min || v.value > max)
  }

  function BoolOf(values: Values, key: string, def: bool): bool {
    var raw := Lookup(values, key);
    if raw.None? then def
    else
      var v := ParseBool(raw.value);
      if v.None? then def else v.value
  }

  predicate BoolComplains(values: Values, key: string) {
    var raw := Lookup(values, key);
    raw.Some? && ParseBool(raw.value).None?
  }

  /** The store itself. Its mutex makes each method below one atomic step. */
  class Store {
    var version: int
    var values: Values
    var warned: set<string>
    var complaints: seq<Complaint>

    ghost function View(): StoreState
      reads this
    {
      StoreState(version, values, warned, complaints)
    }

    constructor ()
      ensures View() == EMPTY
    {
      version, values, warned, complaints := 0, map[], {}, [];
    }

    method Apply(version: int, values: Option<Values>) returns (changed: bool)
      modifies this
      ensures changed <==> Accepts(old(View()), Delivery(version, values))
      ensures View() == Applied(old(View()), Delivery(version, values))
    {
      if version <= 0 || values.None? {
        return false;
      }
      if version <= this.version {
        return false;
      }
      this.version := version;
      this.values := map[];
      var keys := values.value.Keys;
      while keys != {}
        invariant keys <= values.value.Keys
        invariant this.values == map k | k in values.value.Keys - keys :: values.value[k]
        invariant this.version == version && warned == old(warned) && complaints == old(complaints)
      {
        var k :| k in keys;
        this.values := this.values[k := values.value[k]];
        keys := keys - {k};
      }
      assert this.values == values.value;
      warned := {};
      return true;
    }

    method Warn(key: string)
      modifies this`warned, this`complaints
      ensures View() == Warned(old(View()), key)
    {
      var already := key in warned;
      warned := warned + {key};
      if already {
        return;
      }
      complaints := complaints + [Complaint(version, key)];
    }

    method Duration(key: string, def: int, min: int, max: int) returns (d: int)
      modifies this`warned, this`complaints
      ensures d == DurationOf(values, key, def, min, max)
      ensures View() == if DurationComplains(values, key, min, max) then Warned(old(View()), key) else old(View())
    {
      var raw := Lookup(values, key);
      if raw.None? {
        return def;
      }
      var secs := Atoi(raw.value);
      if secs.None? || secs.value <= 0 {
        Warn(key);
        return def;
      }
      d := Wrap64(secs.value * SECOND);
      if d < min {
        Warn(key);
        return min;
      }
      if d > max {
        Warn(key);
        return max;
      }
    }

    method Float(key: string, def: real, min: real, max: real, parseFloat: string -> Option<real>) returns (v: real)
      modifies this`warned, this`complaints
      ensures v == FloatOf(values, parseFloat, key, def, min, max)
      ensures View() == if FloatComplains(values, parseFloat, key, min, max) then Warned(old(View()), key) else old(View())
    {
      var raw := Lookup(values, key);
      if raw.None? {
        return def;
      }
      var parsed := parseFloat(raw.value);
      if parsed.None? {
        Warn(key);
        return def;
      }
      v := parsed.value;
      if v < min {
        Warn(key);
        return min;
      }
      if v > max {
        Warn(key);
        return max;
      }
    }

    method Bool(key: string, def: bool) returns (b: bool)
      modifies this`warned, this`complaints
      ensures b == BoolOf(values, key, def)
      ensures View() == if BoolComplains(values, key) then Warned(old(View()), key) else old(View())
    {
      var raw := Lookup(values, key);
      if raw.None? {
        return def;
      }
      var parsed := ParseBool(raw.value);
      if parsed.None? {
        Warn(key);
        return def;
      }
      return parsed.value;
    }
  }

  // ----- Clamping -----

  /** However large the configured seconds are, and even when their nanoseconds wrap int64,
      the result stays inside the caller's bounds. */
  lemma {:induction false} DurationInBounds(values: Values, key: string, def: int, min: int, max: int)
    requires min <= def <= max
    ensures min <= DurationOf(values, key, def, min, max) <= max
  {
  }

  /** The largest number of seconds whose nanoseconds fit int64. */
  const MAX_SECONDS := 9223372036

  /** Duration is the true clamp of the configured seconds up to MAX_SECONDS; beyond that, exactly
      when the wrapped product still lands at or above the ceiling. */
  lemma {:induction false} DurationExact(values: Values, key: string, def: int, min: int, max: int)
    requires 0 < min < max <= MAX_INT64
    requires Seconds(values, key).Some?
    ensures var secs := Seconds(values, key).value;
            DurationOf(values, key, def, min, max) == Clamp(secs * SECOND, min, max) <==>
            secs <= MAX_SECONDS || max <= Wrap64(secs * SECOND)
  {
  }

  /** A value the ceiling should have cut down comes out as the floor: one second more than
      MAX_SECONDS wraps to a negative duration. */
  lemma {:induction false} DurationWraps()
    ensures DurationOf(map["k" := "9223372037"], "k", 30 * SECOND, MIN_TICK, MAX_TICK) == MIN_TICK
    ensures Clamp(9223372037 * SECOND, MIN_TICK, MAX_TICK) == MAX_TICK
  {
    var s := "9223372037";
    assert Decimal(s[..1]) == 9;
    assert s[..2][..1] == s[..1] && s[..3][..2] == s[..2] && s[..4][..3] == s[..3] && s[..5][..4] == s[..4];
    assert s[..6][..5] == s[..5] && s[..7][..6] == s[..6] && s[..8][..7] == s[..7] && s[..9][..8] == s[..8];
    assert Decimal(s[..2]) == 92;
    assert Decimal(s[..3]) == 922;
    assert Decimal(s[..4]) == 9223;
    assert Decimal(s[..5]) == 92233;
    assert Decimal(s[..6]) == 922337;
    assert Decimal(s[..7]) == 9223372;
    assert Decimal(s[..8]) == 92233720;
    assert Decimal(s[..9]) == 922337203;
    assert s[..10] == s;
    assert Decimal(s) == 9223372037;
  }

  // ----- Convergence -----

  function ApplyAll(s: StoreState, ds: seq<Delivery>): StoreState {
    if ds == [] then s else Applied(ApplyAll(s, ds[..|ds| - 1]), ds[|ds| - 1])
  }

  predicate Usable(d: Delivery) {
    d.version > 0 && d.values.Some?
  }

  /** Each version determines its values. */
  ghost predicate Consistent(ds: seq<Delivery>) {
    forall d, e | d in ds && e in ds && Usable(d) && Usable(e) && d.version == e.version :: d.values == e.values
  }

  /** (version, values) is what the greatest usable version delivered carries, or nothing at all. */
  ghost predicate IsGreatest(s: StoreState, ds: seq<Delivery>) {
    (forall d | d in ds && Usable(d) :: d.version <= s.version) &&
    (if s.version == 0 then s.values == map[]
     else Delivery(s.version, Some(s.values)) in ds && s.version > 0)
  }

  lemma {:induction false} FinalIsGreatest(ds: seq<Delivery>)
    ensures IsGreatest(ApplyAll(EMPTY, ds), ds)
  {
    if ds != [] {
      var init := ds[..|ds| - 1];
      FinalIsGreatest(init);
      assert ds == init + [ds[|ds| - 1]];
      assert ds[|ds| - 1] in ds;
    }
  }

  /** Deliveries may be permuted and duplicated freely: two histories that contain the same
      blocks leave the same configuration, that of the greatest usable version. */
  lemma {:induction false} Convergence(ds: seq<Delivery>, es: seq<Delivery>)
    requires Consistent(ds)
    requires forall d :: d in ds <==> d in es
    ensures var s, t := ApplyAll(EMPTY, ds), ApplyAll(EMPTY, es);
            s.version == t.version && s.values == t.values && IsGreatest(s, es)
  {
    FinalIsGreatest(ds);
    FinalIsGreatest(es);
    var s, t := ApplyAll(EMPTY, ds), ApplyAll(EMPTY, es);
    assert s.version > 0 ==> Usable(Delivery(s.version, Some(s.values)));
    assert t.version > 0 ==> Usable(Delivery(t.version, Some(t.values)));
  }

  // ----- Complaints -----

  /** What happens to a store, one lock section at a time: a getter's lookup changes nothing, and
      its complaint may come after other goroutines have applied newer versions. */
  datatype StoreOp = Apply(d: Delivery) | Warn(key: string)

  function RunStore(ops: seq<StoreOp>): StoreState {
    if ops == [] then EMPTY
    else
      var s := RunStore(ops[..|ops| - 1]);
      match ops[|ops| - 1]
      case Apply(d) => Applied(s, d)
      case Warn(key) => Warned(s, key)
  }

  /** At most one complaint per key and applied version, and the latches are exactly the keys
      already complained about under the version in force. */
  lemma {:induction false} OneComplaintPerVersion(ops: seq<StoreOp>)
    ensures var s := RunStore(ops);
            && (forall i, j | 0 <= i < j < |s.complaints| :: s.complaints[i] != s.complaints[j])
            && (forall key :: key in s.warned <==> Complaint(s.version, key) in s.complaints)
            && (forall c | c in s.complaints :: c.version <= s.version)
  {
    if ops != [] {
      OneComplaintPerVersion(ops[..|ops| - 1]);
    }
  }
}
