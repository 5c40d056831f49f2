/** What the state machine reads from the relay's configuration: the two Live Activity cadences
    and the raw passthrough flag (state/machine.go, accessors over remotecfg.Store). */
module Tuning {
  import opened GoValues
  import opened RemoteConfig

  const KEY_DRIVE_TICK := "drive.tick_s"
  const KEY_DRIVE_TICK_FAST := "drive.tick_fast_s"
  const KEY_DRIVE_FAST_ABOVE := "drive.fast_above_kmh"
  const KEY_CHARGE_TICK := "charge.tick_s"
  const KEY_CHARGE_TICK_FAST := "charge.tick_fast_s"
  const KEY_CHARGE_FAST_ABOVE := "charge.fast_above_kw"
  const KEY_RAW_FIELDS := "data.raw_enabled"

  /** Slow and fast tick periods, and the reading above which the fast one applies. */
  datatype Cadence = Cadence(slow: int, fast: int, above: real)

  datatype Knobs = Knobs(drive: Cadence, charge: Cadence, rawEnabled: bool)

  const DRIVE_DEFAULT := Cadence(30 * SECOND, 15 * SECOND, 80.0)
  const CHARGE_DEFAULT := Cadence(60 * SECOND, 30 * SECOND, 11.0)
  const DEFAULTS := Knobs(DRIVE_DEFAULT, CHARGE_DEFAULT, false)

  function CadenceOf(values: Values, parseFloat: string -> Option<real>,
                     slowKey: string, fastKey: string, aboveKey: string, def: Cadence): Cadence
  {
    Cadence(DurationOf(values, slowKey, def.slow, MIN_TICK, MAX_TICK),
            DurationOf(values, fastKey, def.fast, MIN_TICK, MAX_TICK),
            FloatOf(values, parseFloat, aboveKey, def.above, 0.0, 400.0))
  }

  /** The knobs under a configuration, or the built-in defaults when no store is attached. */
  function KnobsOf(config: Option<Values>, parseFloat: string -> Option<real>): Knobs {
    if config.None? then DEFAULTS
    else
      Knobs(CadenceOf(config.value, parseFloat, KEY_DRIVE_TICK, KEY_DRIVE_TICK_FAST, KEY_DRIVE_FAST_ABOVE, DRIVE_DEFAULT),
            CadenceOf(config.value, parseFloat, KEY_CHARGE_TICK, KEY_CHARGE_TICK_FAST, KEY_CHARGE_FAST_ABOVE, CHARGE_DEFAULT),
            BoolOf(config.value, KEY_RAW_FIELDS, false))
  }

  function Period(c: Cadence, reading: real): int {
    if reading > c.above then c.fast else c.slow
  }

  predicate InBounds(c: Cadence) {
    MIN_TICK <= c.slow <= MAX_TICK && MIN_TICK <= c.fast <= MAX_TICK
  }

  predicate Safe(k: Knobs) {
    InBounds(k.drive) && InBounds(k.charge)
  }

  /** Every configuration whatsoever leaves every period between 5 and 120 seconds. */
  lemma {:induction false} KnobsAreSafe(config: Option<Values>, parseFloat: string -> Option<real>)
    ensures Safe(KnobsOf(config, parseFloat))
    ensures forall reading :: MIN_TICK <= Period(KnobsOf(config, parseFloat).drive, reading) <= MAX_TICK
                           && MIN_TICK <= Period(KnobsOf(config, parseFloat).charge, reading) <= MAX_TICK
  {
    if config.Some? {
      CadenceInBounds(config.value, parseFloat, KEY_DRIVE_TICK, KEY_DRIVE_TICK_FAST, KEY_DRIVE_FAST_ABOVE, DRIVE_DEFAULT);
      CadenceInBounds(config.value, parseFloat, KEY_CHARGE_TICK, KEY_CHARGE_TICK_FAST, KEY_CHARGE_FAST_ABOVE, CHARGE_DEFAULT);
    }
  }

  lemma {:induction false} CadenceInBounds(values: Values, parseFloat: string -> Option<real>,
                        slowKey: string, fastKey: string, aboveKey: string, def: Cadence)
    requires InBounds(def)
    ensures InBounds(CadenceOf(values, parseFloat, slowKey, fastKey, aboveKey, def))
  {
    DurationInBounds(values, slowKey, def.slow, MIN_TICK, MAX_TICK);
    DurationInBounds(values, fastKey, def.fast, MIN_TICK, MAX_TICK);
  }

  /** An empty configuration is the same as none: every default stays in place. */
  lemma {:induction false} EmptyConfigIsDefault(parseFloat: string -> Option<real>)
    ensures KnobsOf(Some(map[]), parseFloat) == KnobsOf(None, parseFloat)
  {
  }

  // ----- What a configuration says, key by key -----

  /** The text under a key; "" if there is none. */
  function Text(config: Option<Values>, key: string): string {
    if config.Some? && key in config.value then config.value[key] else ""
  }

  function Between(low: int, x: int, high: int): int {
    if x <= low then low else if x >= high then high else x
  }

  function Within(low: real, x: real, high: real): real {
    if x <= low then low else if x >= high then high else x
  }

  /** Whole positive seconds, as nanoseconds that wrap at 64 bits, kept between 5 and 120 seconds. */
  function SecondsUnder(config: Option<Values>, key: string, def: int): int {
    var secs := Atoi(Text(config, key));
    if secs.None? || secs.value < 1 then def
    else
      Between(5_000_000_000,
              (secs.value * 1_000_000_000 + 0x8000_0000_0000_0000) % 0x1_0000_0000_0000_0000 - 0x8000_0000_0000_0000,
              120_000_000_000)
  }

  /** A number, kept between 0 and 400. */
  function NumberUnder(config: Option<Values>, parseFloat: string -> Option<real>, key: string, def: real): real {
    var text := Text(config, key);
    if text == "" || parseFloat(text).None? then def else Within(0.0, parseFloat(text).value, 400.0)
  }

  lemma {:induction false} WrapsAround(x: int)
    ensures Wrap64(x) == (x + 0x8000_0000_0000_0000) % 0x1_0000_0000_0000_0000 - 0x8000_0000_0000_0000
  {
    var q, r := x / TWO_TO_64, x % TWO_TO_64;
    assert x == q * TWO_TO_64 + r;
    if r <= MAX_INT64 {
      Remainder(q, r + 0x8000_0000_0000_0000, x + 0x8000_0000_0000_0000);
    } else {
      Remainder(q + 1, r - 0x8000_0000_0000_0000, x + 0x8000_0000_0000_0000);
    }
  }

  lemma {:induction false} Remainder(q: int, r: int, x: int)
    requires x == q * TWO_TO_64 + r && 0 <= r < TWO_TO_64
    ensures x % TWO_TO_64 == r
  {
    var k := x / TWO_TO_64 - q;
    assert x % TWO_TO_64 == r - k * TWO_TO_64;
  }

  lemma {:induction false} DurationUnder(config: Option<Values>, key: string, def: int)
    ensures (if config.None? then def else DurationOf(config.value, key, def, MIN_TICK, MAX_TICK)) == SecondsUnder(config, key, def)
  {
    assert Atoi("").None?;
    if config.Some? && Seconds(config.value, key).Some? {
      WrapsAround(Seconds(config.value, key).value * SECOND);
    }
  }

  /** The knobs are what the configuration says under the seven keys, and the values the notifier
      shipped with where it says nothing usable: 30 s, 15 s above 80 km/h; 60 s, 30 s above 11 kW; no
      raw fields. */
  lemma {:induction false} KnobsMean(config: Option<Values>, parseFloat: string -> Option<real>)
    ensures KnobsOf(config, parseFloat) ==
            Knobs(Cadence(SecondsUnder(config, "drive.tick_s", 30_000_000_000),
                          SecondsUnder(config, "drive.tick_fast_s", 15_000_000_000),
                          NumberUnder(config, parseFloat, "drive.fast_above_kmh", 80.0)),
                  Cadence(SecondsUnder(config, "charge.tick_s", 60_000_000_000),
                          SecondsUnder(config, "charge.tick_fast_s", 30_000_000_000),
                          NumberUnder(config, parseFloat, "charge.fast_above_kw", 11.0)),
                  Text(config, "data.raw_enabled") in {"1", "t", "T", "true", "TRUE", "True"})
  {
    if config.Some? {
      CadenceMeans(config, parseFloat, KEY_DRIVE_TICK, KEY_DRIVE_TICK_FAST, KEY_DRIVE_FAST_ABOVE, DRIVE_DEFAULT);
      CadenceMeans(config, parseFloat, KEY_CHARGE_TICK, KEY_CHARGE_TICK_FAST, KEY_CHARGE_FAST_ABOVE, CHARGE_DEFAULT);
    } else {
      assert Atoi("").None?;
    }
    FlagMeans(config);
  }

  lemma {:induction false} CadenceMeans(config: Option<Values>, parseFloat: string -> Option<real>,
                                        slowKey: string, fastKey: string, aboveKey: string, def: Cadence)
    requires config.Some?
    ensures CadenceOf(config.value, parseFloat, slowKey, fastKey, aboveKey, def) ==
            Cadence(SecondsUnder(config, slowKey, def.slow), SecondsUnder(config, fastKey, def.fast),
                    NumberUnder(config, parseFloat, aboveKey, def.above))
  {
    DurationUnder(config, slowKey, def.slow);
    DurationUnder(config, fastKey, def.fast);
  }

  lemma {:induction false} FlagMeans(config: Option<Values>)
    ensures Text(config, KEY_RAW_FIELDS) in {"1", "t", "T", "true", "TRUE", "True"} <==>
            config.Some? && BoolOf(config.value, KEY_RAW_FIELDS, false)
  {
  }
}
