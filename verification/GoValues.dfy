/** The parts of Go's runtime and standard library that the notifier's decisions rest on:
    optional values, 64-bit integers, strconv.Atoi and strconv.ParseBool.
    A Go string is a byte string: a Dafny char stands for one byte. */
module GoValues {
  datatype Option<+T> = None | Some(value: T)

  /** One second, as time.Duration counts it (nanoseconds). */
  const SECOND := 1_000_000_000

  const MAX_INT64 := 0x7FFF_FFFF_FFFF_FFFF
  const TWO_TO_64 := 0x1_0000_0000_0000_0000

  /** The value an int64 holds after a computation whose exact result is x. */
  function Wrap64(x: int): (w: int)
    ensures -MAX_INT64 - 1 <= w <= MAX_INT64
    ensures -MAX_INT64 - 1 <= x <= MAX_INT64 ==> w == x
  {
    var low := x % TWO_TO_64;
    if low <= MAX_INT64 then low else low - TWO_TO_64
  }

  predicate AllDigits(s: string) {
    forall i | 0 <= i < |s| :: '0' <= s[i] <= '9'
  }

  function Decimal(s: string): nat
    requires AllDigits(s)
  {
    if s == "" then 0
    else 10 * Decimal(s[..|s| - 1]) + (s[|s| - 1] as int - '0' as int)
  }

  /** strconv.Atoi on a 64-bit platform: an optional sign, at least one digit, no overflow. */
  function Atoi(s: string): (r: Option<int>)
    ensures r.Some? ==> -MAX_INT64 - 1 <= r.value <= MAX_INT64
  {
    var signed := s != "" && (s[0] == '-' || s[0] == '+');
    var digits := if signed then s[1..] else s;
    if digits == "" || !AllDigits(digits) then None
    else
      var n: int := if signed && s[0] == '-' then -(Decimal(digits) as int) else Decimal(digits);
      if -MAX_INT64 - 1 <= n <= MAX_INT64 then Some(n) else None
  }

  function Abs(n: int): nat {
    if n < 0 then -n else n
  }

  /** The decimal text of a natural number, as strconv.Itoa writes it. */
  function Digits(n: nat): string {
    var last := [('0' as int + n % 10) as char];
    if n < 10 then last else Digits(n / 10) + last
  }

  function Itoa(n: int): string {
    if n < 0 then "-" + Digits(-n) else Digits(n)
  }

  lemma {:induction false} DigitsDecimal(n: nat)
    ensures Digits(n) != "" && AllDigits(Digits(n)) && Decimal(Digits(n)) == n
  {
    var all := Digits(n);
    if n < 10 {
      assert all[..0] == "";
    } else {
      DigitsDecimal(n / 10);
      assert all[..|all| - 1] == Digits(n / 10);
    }
  }

  /** The decimal text of a number parses back to it exactly if the number fits int64. */
  lemma {:induction false} AtoiRoundTrip(n: int)
    ensures Atoi(Itoa(n)) == if -MAX_INT64 - 1 <= n <= MAX_INT64 then Some(n) else None
  {
    DigitsDecimal(Abs(n));
    var digits := Digits(Abs(n));
    assert '0' <= digits[0] <= '9';
    assert ("-" + digits)[1..] == digits;
  }

  predicate FitsInt64(n: int) {
    -0x8000_0000_0000_0000 <= n <= 0x7FFF_FFFF_FFFF_FFFF
  }

  /** n is what a text of digits, possibly signed, denotes. */
  ghost predicate Denotes(s: string, n: int, digits: string) {
    digits != "" && AllDigits(digits) &&
    (((s == digits || s == "+" + digits) && n == Decimal(digits)) || (s == "-" + digits && n == -(Decimal(digits) as int)))
  }

  /** Atoi accepts exactly the non-empty texts of digits, with or without a sign, whose value fits. */
  lemma {:induction false} AtoiExactly(s: string, n: int)
    ensures Atoi(s) == Some(n) <==> FitsInt64(n) && exists digits :: Denotes(s, n, digits)
  {
    if Atoi(s) == Some(n) {
      var digits := if s[0] == '-' || s[0] == '+' then s[1..] else s;
      assert s == [s[0]] + s[1..];
      assert Denotes(s, n, digits);
    }
    if exists digits :: Denotes(s, n, digits) {
      var digits :| Denotes(s, n, digits);
      assert '0' <= digits[0] <= '9';
      assert ("+" + digits)[1..] == digits && ("-" + digits)[1..] == digits;
    }
  }

  function ParseBool(s: string): Option<bool> {
    if s in {"1", "t", "T", "true", "TRUE", "True"} then Some(true)
    else if s in {"0", "f", "F", "false", "FALSE", "False"} then Some(false)
    else None
  }
}
