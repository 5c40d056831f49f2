/** The raw field map against its history. */
module RawFields {
  import opened GoValues
  import opened Models
  import opened Engine
  import K = Tickers
  import T = Topics

  datatype Entry = Entry(name: string, value: string)

  /** The accepted fields after one more input: a message that finds the flag off drops them all. */
  function Accept(earlier: seq<Entry>, e: Event): seq<Entry> {
    match e.input
    case Msg(f, value) => if e.env.knobs.rawEnabled then earlier + [Entry(T.FieldName(f), value)] else []
    case Unknown(name, value) => if e.env.knobs.rawEnabled then earlier + [Entry(name, value)] else earlier
    case _ => earlier
  }

  /** The fields accepted since the last HandleMessage that found the flag off. */
  function Accepted(history: seq<Event>): seq<Entry> {
    if history == [] then [] else Accept(Accepted(history[..|history| - 1]), history[|history| - 1])
  }

  /** The distinct names, in order of first appearance. */
  function Names(entries: seq<Entry>): seq<string> {
    if entries == [] then []
    else
      var earlier, name := Names(entries[..|entries| - 1]), entries[|entries| - 1].name;
      if name in earlier then earlier else earlier + [name]
  }

  function LastValue(entries: seq<Entry>, name: string): string {
    if entries == [] then ""
    else if entries[|entries| - 1].name == name then entries[|entries| - 1].value
    else LastValue(entries[..|entries| - 1], name)
  }

  function FirstNames(entries: seq<Entry>): seq<string> {
    if |Names(entries)| <= 64 then Names(entries) else Names(entries)[..64]
  }

  function Cut(value: string): string {
    if |value| <= 256 then value else value[..256]
  }

  /** The map holds the first 64 distinct names, each with its last value cut to 256 bytes. */
  ghost predicate Holds(m: map<string, string>, entries: seq<Entry>) {
    && (forall name :: name in m <==> name in FirstNames(entries))
    && (forall name | name in m :: m[name] == Cut(LastValue(entries, name)))
  }

  ghost predicate Reflects(raw: Option<map<string, string>>, entries: seq<Entry>) {
    if entries == [] then raw.None? else raw.Some? && Holds(raw.value, entries)
  }

  ghost predicate Distinct(names: seq<string>) {
    forall i, j | 0 <= i < j < |names| :: names[i] != names[j]
  }

  lemma {:induction false} NamesDistinct(entries: seq<Entry>)
    ensures Distinct(Names(entries))
  {
    if entries != [] {
      NamesDistinct(entries[..|entries| - 1]);
    }
  }

  lemma {:induction false} DistinctCount(m: map<string, string>, names: seq<string>)
    requires Distinct(names)
    requires forall name :: name in m <==> name in names
    ensures |m| == |names|
  {
    if names == [] {
      assert m == map[];
    } else {
      var init, last := names[..|names| - 1], names[|names| - 1];
      var smaller := m - {last};
      assert last in m && m.Keys == smaller.Keys + {last};
      assert forall name :: name in names <==> name in init || name == last;
      DistinctCount(smaller, init);
      assert |m.Keys| == |m| && |smaller.Keys| == |smaller|;
    }
  }

  lemma {:induction false} RecordReflects(x: Ctx, c: Car, entries: seq<Entry>, name: string, value: string)
    requires x.env.knobs.rawEnabled && Reflects(c.raw, entries)
    ensures Reflects(RecordRaw(x, c, name, value).raw, entries + [Entry(name, value)])
  {
    var m := if c.raw.Some? then c.raw.value else map[];
    assert entries == [] ==> FirstNames(entries) == [];
    HoldsSnoc(m, entries, Entry(name, value));
  }

  lemma {:induction false} HoldsSnoc(m: map<string, string>, entries: seq<Entry>, e: Entry)
    requires Holds(m, entries)
    ensures Holds(if e.name !in m && |m| >= MAX_RAW_FIELDS then m else m[e.name := Truncated(e.value)], entries + [e])
  {
    HoldsCount(m, entries);
    NewNames(entries, e);
    forall name
      ensures LastValue(entries + [e], name) == if name == e.name then e.value else LastValue(entries, name)
    {
      assert (entries + [e])[..|entries|] == entries;
    }
  }

  lemma {:induction false} HoldsCount(m: map<string, string>, entries: seq<Entry>)
    requires Holds(m, entries)
    ensures |m| == |FirstNames(entries)|
  {
    NamesDistinct(entries);
    assert Distinct(FirstNames(entries));
    DistinctCount(m, FirstNames(entries));
  }

  lemma {:induction false} NewNames(entries: seq<Entry>, e: Entry)
    ensures FirstNames(entries + [e]) ==
            if e.name in FirstNames(entries) || |FirstNames(entries)| >= MAX_RAW_FIELDS then FirstNames(entries)
            else FirstNames(entries) + [e.name]
  {
    assert (entries + [e])[..|entries|] == entries;
    var names := Names(entries);
    if |names| >= MAX_RAW_FIELDS {
      assert (names + [e.name])[..MAX_RAW_FIELDS] == names[..MAX_RAW_FIELDS];
      assert |names| == MAX_RAW_FIELDS ==> names[..MAX_RAW_FIELDS] == names;
    }
  }

  lemma {:induction false} OpsKeepRaw(x: Ctx, r: Res, ops: seq<Op>)
    ensures PerformAll(x, r, ops).car.raw == r.car.raw
  {
    if ops != [] {
      OpsKeepRaw(x, r, ops[..|ops| - 1]);
      OneOpKeepsRaw(x, PerformAll(x, r, ops[..|ops| - 1]), ops[|ops| - 1]);
    }
  }

  lemma {:induction false} OneOpKeepsRaw(x: Ctx, r: Res, op: Op)
    ensures Perform(x, r, op).car.raw == r.car.raw
  {
  }

  lemma {:induction false} AssignKeepsRaw(p: Params, c: Car, f: T.Field, value: string, first: bool)
    ensures Assign(p, c, f, value, first).raw == c.raw
  {
  }

  lemma {:induction false} MessageRaw(x: Ctx, c: Car, f: T.Field, value: string)
    ensures HandleMessage(x, c, f, value).car.raw == RecordRaw(x, c, T.FieldName(f), value).raw
  {
    var c1 := Received(x, c, f, value);
    var first := f !in c.initialized;
    AssignKeepsRaw(x.p, c1, f, value, first);
    OpsKeepRaw(x, Res(Assign(x.p, c1, f, value, first), []), Plan(x, c1, f, value, first));
  }

  lemma {:induction false} OtherInputRaw(x: Ctx, c: Car, i: Input)
    requires i.Wake? || i.Fire?
    ensures Apply(x, c, i).car.raw == c.raw
  {
  }

  lemma {:induction false} RawStep(p: Params, id: string, c: Car, e: Event, entries: seq<Entry>)
    requires Reflects(c.raw, entries)
    ensures Reflects(Apply(Ctx(p, e.env, id), c, e.input).car.raw, Accept(entries, e))
  {
    var x := Ctx(p, e.env, id);
    match e.input
    case Msg(f, value) =>
      MessageRaw(x, c, f, value);
      if e.env.knobs.rawEnabled {
        RecordReflects(x, c, entries, T.FieldName(f), value);
      }
    case Unknown(name, value) =>
      if e.env.knobs.rawEnabled {
        RecordReflects(x, c, entries, name, value);
      }
    case _ => OtherInputRaw(x, c, e.input);
  }

  /** After every history the raw map reflects the fields accepted since it was last dropped, and so
      never holds more than 64. */
  lemma {:induction false} RawAgreesWithHistory(p: Params, id: string, c0: Car, history: seq<Event>)
    requires K.Fresh(c0)
    ensures var raw := Life(p, id, c0, history).car.raw;
            Reflects(raw, Accepted(history)) && (raw.Some? ==> |raw.value| <= 64)
  {
    if history == [] {
      K.FreshFacts(c0);
    } else {
      var init, e := history[..|history| - 1], history[|history| - 1];
      RawAgreesWithHistory(p, id, c0, init);
      RawStep(p, id, Life(p, id, c0, init).car, e, Accepted(init));
      if Life(p, id, c0, history).car.raw.Some? {
        HoldsCount(Life(p, id, c0, history).car.raw.value, Accepted(history));
      }
    }
  }
}
