/** mqtt/topics.go: the printer and the parser of TeslaMate topic strings. */
module Topics {
  import opened GoValues

  /** A TopicField constant. Fields outside this list stay plain strings. */
  datatype Field =
    | State | ChargingState | BatteryLevel | PluggedIn | UpdateAvailable | Geofence
    | ChargerPower | ChargeEnergyAdded | TimeToFullCharge | RatedRangeKm | UsableBattery
    | DisplayName | Model | ChargeLimitSoc | UpdateVersion | Speed | OutsideTemp
    | Odometer | ActiveRoute | CenterDisplayState

  const ALL_FIELDS: seq<Field> := [
    State, ChargingState, BatteryLevel, PluggedIn, UpdateAvailable, Geofence,
    ChargerPower, ChargeEnergyAdded, TimeToFullCharge, RatedRangeKm, UsableBattery,
    DisplayName, Model, ChargeLimitSoc, UpdateVersion, Speed, OutsideTemp,
    Odometer, ActiveRoute, CenterDisplayState]

  function FieldName(f: Field): string {
    match f
    case State => "state"
    case ChargingState => "charging_state"
    case BatteryLevel => "battery_level"
    case PluggedIn => "plugged_in"
    case UpdateAvailable => "update_available"
    case Geofence => "geofence"
    case ChargerPower => "charger_power"
    case ChargeEnergyAdded => "charge_energy_added"
    case TimeToFullCharge => "time_to_full_charge"
    case RatedRangeKm => "rated_battery_range_km"
    case UsableBattery => "usable_battery_level"
    case DisplayName => "display_name"
    case Model => "model"
    case ChargeLimitSoc => "charge_limit_soc"
    case UpdateVersion => "update_version"
    case Speed => "speed"
    case OutsideTemp => "outside_temp"
    case Odometer => "odometer"
    case ActiveRoute => "active_route"
    case CenterDisplayState => "center_display_state"
  }

  predicate SlashFree(s: string) {
    '/' !in s
  }

  /** strings.Split(s, "/"). */
  function Split(s: string): (parts: seq<string>)
    ensures |parts| >= 1
  {
    if s == "" then [""] else Prepend(s[0], Split(s[1..]))
  }

  /** The parts of a string from its first character and the parts of its rest. */
  function Prepend(c: char, rest: seq<string>): (parts: seq<string>)
    requires rest != []
    ensures parts != []
  {
    if c == '/' then [""] + rest else [[c] + rest[0]] + rest[1..]
  }

  /** strings.Join(parts, "/"). */
  function Join(parts: seq<string>): string {
    if parts == [] then ""
    else if |parts| == 1 then parts[0]
    else parts[0] + "/" + Join(parts[1..])
  }

  lemma {:induction false} SplitParts(s: string)
    ensures forall p | p in Split(s) :: SlashFree(p)
    ensures Join(Split(s)) == s
  {
    if s != "" {
      SplitParts(s[1..]);
      var rest := Split(s[1..]);
      assert s == [s[0]] + s[1..];
      if s[0] == '/' {
        assert ([""] + rest)[1..] == rest;
      } else {
        var parts := [[s[0]] + rest[0]] + rest[1..];
        assert parts[1..] == rest[1..];
        assert rest[0] in rest && parts[0] == [s[0]] + rest[0];
        forall p | p in parts ensures SlashFree(p) {
          assert p == parts[0] || p in rest[1..];
        }
        assert |rest| > 1 ==> Join(parts) == [s[0]] + (rest[0] + "/" + Join(rest[1..]));
      }
    }
  }

  lemma {:induction false} SplitConcat(head: string, tail: string)
    ensures Split(head + "/" + tail) == Split(head) + Split(tail)
    decreases |head|
  {
    var s := head + "/" + tail;
    if head == "" {
      assert s[1..] == tail;
    } else {
      SplitConcat(head[1..], tail);
      assert s[1..] == head[1..] + "/" + tail;
      PrependConcat(head[0], Split(head[1..]), Split(tail));
    }
  }

  lemma {:induction false} PrependConcat(c: char, a: seq<string>, b: seq<string>)
    requires a != []
    ensures Prepend(c, a + b) == Prepend(c, a) + b
  {
    assert (a + b)[1..] == a[1..] + b;
  }

  lemma {:induction false} SplitSingle(s: string)
    ensures Split(s) == [s] <==> SlashFree(s)
  {
    SplitParts(s);
    if SlashFree(s) && s != "" {
      SplitSingle(s[1..]);
      assert s == [s[0]] + s[1..];
    } else if Split(s) == [s] {
      assert s in Split(s);
    }
  }

  /** Splitting undoes joining exactly when no part contains the separator. */
  lemma {:induction false} SplitJoin(parts: seq<string>)
    requires parts != []
    ensures Split(Join(parts)) == parts <==> forall p | p in parts :: SlashFree(p)
  {
    if forall p | p in parts :: SlashFree(p) {
      if |parts| == 1 {
        SplitSingle(parts[0]);
      } else {
        SplitJoin(parts[1..]);
        SplitSingle(parts[0]);
        SplitConcat(parts[0], Join(parts[1..]));
      }
    } else {
      SplitParts(Join(parts));
    }
  }

  function TopicParts(carID: string, namespace: string, f: Field): seq<string> {
    if namespace == "" then ["teslamate", "cars", carID, FieldName(f)]
    else ["teslamate", namespace, "cars", carID, FieldName(f)]
  }

  function NamespacePart(namespace: string): string {
    if namespace == "" then "" else "/" + namespace
  }

  /** The format "teslamate%s/cars/%s/%s", with its two fixed words as parameters. */
  function Sprintf(root: string, nsPart: string, cars: string, carID: string, field: string): string {
    root + nsPart + "/" + cars + "/" + carID + "/" + field
  }

  function TopicFor(carID: string, namespace: string, f: Field): string {
    Sprintf("teslamate", NamespacePart(namespace), "cars", carID, FieldName(f))
  }

  function Printed(topicOf: Field -> string, fields: seq<Field>): seq<string> {
    if fields == [] then [] else Printed(topicOf, fields[..|fields| - 1]) + [topicOf(fields[|fields| - 1])]
  }

  lemma {:induction false} PrintedAt(topicOf: Field -> string, fields: seq<Field>)
    ensures |Printed(topicOf, fields)| == |fields|
    ensures forall i | 0 <= i < |fields| :: Printed(topicOf, fields)[i] == topicOf(fields[i])
  {
    if fields != [] {
      PrintedAt(topicOf, fields[..|fields| - 1]);
    }
  }

  method TopicsForCar(carID: string, namespace: string) returns (topics: seq<string>)
    ensures |topics| == |ALL_FIELDS|
    ensures forall i | 0 <= i < |topics| :: topics[i] == TopicFor(carID, namespace, ALL_FIELDS[i])
  {
    topics := [];
    ghost var topicOf := f => TopicFor(carID, namespace, f);
    for i := 0 to |ALL_FIELDS|
      invariant topics == Printed(topicOf, ALL_FIELDS[..i])
    {
      assert ALL_FIELDS[..i + 1][..i] == ALL_FIELDS[..i];
      var topic := TopicFor(carID, namespace, ALL_FIELDS[i]);
      assert topic == topicOf(ALL_FIELDS[i]);
      topics := topics + [topic];
    }
    assert ALL_FIELDS[..|ALL_FIELDS|] == ALL_FIELDS;
    PrintedAt(topicOf, ALL_FIELDS);
  }

  lemma {:induction false} TopicIsJoin(carID: string, namespace: string, f: Field)
    ensures TopicFor(carID, namespace, f) == Join(TopicParts(carID, namespace, f))
  {
    SprintfIsJoin("teslamate", namespace, "cars", carID, FieldName(f));
  }

  lemma {:induction false} SprintfIsJoin(root: string, namespace: string, cars: string, carID: string, field: string)
    ensures Sprintf(root, NamespacePart(namespace), cars, carID, field)
         == Join(if namespace == "" then [root, cars, carID, field] else [root, namespace, cars, carID, field])
  {
    JoinTail(cars, carID, field);
    var tail := [cars, carID, field];
    var rest := cars + "/" + carID + "/" + field;
    if namespace == "" {
      JoinPair(root, tail);
      assert [root] + tail == [root, cars, carID, field];
      assert Sprintf(root, "", cars, carID, field) == root + "/" + rest;
    } else {
      JoinPair(namespace, tail);
      JoinPair(root, [namespace] + tail);
      assert [root] + ([namespace] + tail) == [root, namespace, cars, carID, field];
      assert Sprintf(root, "/" + namespace, cars, carID, field) == root + "/" + (namespace + "/" + rest);
    }
  }

  lemma {:induction false} JoinTail(cars: string, carID: string, field: string)
    ensures Join([cars, carID, field]) == cars + "/" + carID + "/" + field
  {
    JoinPair(carID, [field]);
    assert [carID] + [field] == [carID, field];
    JoinPair(cars, [carID, field]);
    assert [cars] + [carID, field] == [cars, carID, field];
  }

  lemma {:induction false} JoinPair(head: string, tail: seq<string>)
    requires tail != []
    ensures Join([head] + tail) == head + "/" + Join(tail)
  {
    assert ([head] + tail)[1..] == tail;
  }

  datatype Parsed = Parsed(carID: string, field: string)

  function ParseTopic(topic: string): Option<Parsed> {
    var parts := Split(topic);
    if |parts| == 4 && parts[0] == "teslamate" && parts[1] == "cars" then
      Some(Parsed(parts[2], parts[3]))
    else if |parts| == 5 && parts[0] == "teslamate" && parts[2] == "cars" then
      Some(Parsed(parts[3], parts[4]))
    else None
  }

  /** The fields up to the charge, as opposed to names, updates and movement. */
  predicate AboutCharge(f: Field) {
    f.State? || f.ChargingState? || f.BatteryLevel? || f.PluggedIn? || f.UpdateAvailable? || f.Geofence? || f.ChargerPower? ||
    f.ChargeEnergyAdded? || f.TimeToFullCharge? || f.RatedRangeKm?
  }

  lemma {:induction false} ChargeNamesSlashFree(f: Field)
    requires AboutCharge(f)
    ensures SlashFree(FieldName(f))
  {
  }

  lemma {:induction false} OtherNamesSlashFree(f: Field)
    requires !AboutCharge(f)
    ensures SlashFree(FieldName(f))
  {
  }

  lemma {:induction false} FieldNamesSlashFree(f: Field)
    ensures SlashFree(FieldName(f))
  {
    if AboutCharge(f) {
      ChargeNamesSlashFree(f);
    } else {
      OtherNamesSlashFree(f);
    }
  }

  /** A subscribed topic parses back to the car and field it was printed from, exactly when
      neither the car ID nor the namespace contains the separator. */
  lemma {:induction false} TopicRoundTrip(carID: string, namespace: string, f: Field)
    ensures ParseTopic(TopicFor(carID, namespace, f)) == Some(Parsed(carID, FieldName(f))) <==>
            SlashFree(carID) && SlashFree(namespace)
  {
    TopicIsJoin(carID, namespace, f);
    FieldNamesSlashFree(f);
    SplitSingle("teslamate");
    SplitSingle("cars");
    PartsRoundTrip("teslamate", "cars", carID, namespace, FieldName(f));
  }

  /** The parts a topic of the two fixed words is split into, and whether they parse back. */
  lemma {:induction false} PartsRoundTrip(root: string, cars: string, carID: string, namespace: string, field: string)
    requires root == "teslamate" && cars == "cars" && SlashFree(field) && SlashFree(root) && SlashFree(cars)
    ensures var parts := if namespace == "" then [root, cars, carID, field] else [root, namespace, cars, carID, field];
            ParseTopic(Join(parts)) == Some(Parsed(carID, field)) <==> SlashFree(carID) && SlashFree(namespace)
  {
    var parts := if namespace == "" then [root, cars, carID, field] else [root, namespace, cars, carID, field];
    SplitJoin(parts);
    var topic := Join(parts);
    if ParseTopic(topic) == Some(Parsed(carID, field)) {
      SplitParts(topic);
      assert carID in Split(topic);
      if !SlashFree(namespace) {
        SplitTopic(root, cars, carID, namespace, field);
        SplitSlashed(namespace);
      }
    }
  }

  lemma {:induction false} SplitSlashed(s: string)
    requires !SlashFree(s)
    ensures |Split(s)| >= 2
  {
    SplitParts(s);
    SplitSingle(s);
    assert |Split(s)| == 1 ==> Split(s) == [Join(Split(s))];
  }

  lemma {:induction false} SplitTopic(root: string, cars: string, carID: string, namespace: string, field: string)
    ensures |Split(Join([root, namespace, cars, carID, field]))| ==
            |Split(root)| + |Split(namespace)| + |Split(cars)| + |Split(carID)| + |Split(field)|
  {
    var parts := [root, namespace, cars, carID, field];
    SplitJoinLength(parts);
    assert PartCount(parts[4..]) == |Split(parts[4])|;
    assert PartCount(parts[3..]) == |Split(parts[3])| + PartCount(parts[4..]);
    assert PartCount(parts[2..]) == |Split(parts[2])| + PartCount(parts[3..]);
    assert PartCount(parts[1..]) == |Split(parts[1])| + PartCount(parts[2..]);
  }

  function PartCount(parts: seq<string>): nat {
    if parts == [] then 0 else |Split(parts[0])| + PartCount(parts[1..])
  }

  lemma {:induction false} SplitJoinLength(parts: seq<string>)
    requires parts != []
    ensures |Split(Join(parts))| == PartCount(parts)
  {
    if |parts| > 1 {
      SplitConcat(parts[0], Join(parts[1..]));
      SplitJoinLength(parts[1..]);
    }
  }

  ghost predicate PlainTopic(topic: string, a: string, b: string) {
    SlashFree(a) && SlashFree(b) && topic == Join(["teslamate", "cars", a, b])
  }

  ghost predicate NamespacedTopic(topic: string, x: string, a: string, b: string) {
    SlashFree(x) && SlashFree(a) && SlashFree(b) && topic == Join(["teslamate", x, "cars", a, b])
  }

  /** The parser accepts exactly the two topic shapes, and returns their car and field parts. */
  lemma {:induction false} ParseTopicAccepts(topic: string, carID: string, field: string)
    ensures ParseTopic(topic) == Some(Parsed(carID, field)) <==>
            PlainTopic(topic, carID, field) || exists x :: NamespacedTopic(topic, x, carID, field)
  {
    SplitParts(topic);
    var parts := Split(topic);
    if ParseTopic(topic) == Some(Parsed(carID, field)) {
      if |parts| == 4 {
        assert parts == ["teslamate", "cars", carID, field];
        assert parts[2] in parts && parts[3] in parts;
      } else {
        assert parts == ["teslamate", parts[1], "cars", carID, field];
        assert parts[1] in parts && parts[3] in parts && parts[4] in parts;
        assert NamespacedTopic(topic, parts[1], carID, field);
      }
    }
    if PlainTopic(topic, carID, field) {
      SplitJoin(["teslamate", "cars", carID, field]);
    }
    if x :| NamespacedTopic(topic, x, carID, field) {
      SplitJoin(["teslamate", x, "cars", carID, field]);
    }
  }

  /** knownFields: which parsed field names the handler gets, and as which constant. */
  method KnownFields() returns (known: map<string, Field>)
    ensures forall f: Field :: FieldName(f) in known && known[FieldName(f)] == f
    ensures forall name | name in known :: FieldName(known[name]) == name
  {
    known := map[];
    var i := 0;
    while i < |ALL_FIELDS|
      invariant 0 <= i <= |ALL_FIELDS|
      invariant forall name | name in known :: FieldName(known[name]) == name
      invariant forall k | 0 <= k < i :: FieldName(ALL_FIELDS[k]) in known
    {
      known := known[FieldName(ALL_FIELDS[i]) := ALL_FIELDS[i]];
      i := i + 1;
    }
    forall f: Field
      ensures FieldName(f) in known && known[FieldName(f)] == f
    {
      FieldListed(f);
      FieldNameInjective(known[FieldName(f)], f);
    }
  }

  lemma {:induction false} FieldListed(f: Field)
    ensures f in ALL_FIELDS
  {
    match f
    case State => assert ALL_FIELDS[0] == f;
    case ChargingState => assert ALL_FIELDS[1] == f;
    case BatteryLevel => assert ALL_FIELDS[2] == f;
    case PluggedIn => assert ALL_FIELDS[3] == f;
    case UpdateAvailable => assert ALL_FIELDS[4] == f;
    case Geofence => assert ALL_FIELDS[5] == f;
    case ChargerPower => assert ALL_FIELDS[6] == f;
    case ChargeEnergyAdded => assert ALL_FIELDS[7] == f;
    case TimeToFullCharge => assert ALL_FIELDS[8] == f;
    case RatedRangeKm => assert ALL_FIELDS[9] == f;
    case UsableBattery => assert ALL_FIELDS[10] == f;
    case DisplayName => assert ALL_FIELDS[11] == f;
    case Model => assert ALL_FIELDS[12] == f;
    case ChargeLimitSoc => assert ALL_FIELDS[13] == f;
    case UpdateVersion => assert ALL_FIELDS[14] == f;
    case Speed => assert ALL_FIELDS[15] == f;
    case OutsideTemp => assert ALL_FIELDS[16] == f;
    case Odometer => assert ALL_FIELDS[17] == f;
    case ActiveRoute => assert ALL_FIELDS[18] == f;
    case CenterDisplayState => assert ALL_FIELDS[19] == f;
  }

  /** What tells the twenty field names apart: their length, third and last letter. */
  function Mark(s: string): (int, char, char)
    requires |s| >= 5
  {
    (|s|, s[2], s[|s| - 1])
  }

  lemma {:induction false} FieldNameInjective(f: Field, g: Field)
    requires FieldName(f) == FieldName(g)
    ensures f == g
  {
  }
}
