/** Run and outbox identifiers: how they are printed, read back and ordered. */
module Identifiers {
  import opened Options
  import opened Text

  function RunID(n: nat): string {
    "run_" + Pad6(n)
  }

  function OutboxID(n: nat): string {
    "outbox_" + Pad6(n)
  }

  function TrimPrefix(s: string, prefix: string): string {
    if prefix <= s then s[|prefix|..] else s
  }

  /** strconv.ParseInt in base 10 for a signed type whose largest value is `max`. */
  function ParseInt(s: string, max: int): Option<int> {
    if |s| > 0 && s[0] == '-' then
      if |s| == 1 || !AllDigits(s[1..]) || Value(s[1..]) > max + 1 then None
      else var magnitude: int := Value(s[1..]); Some(-magnitude)
    else
      var digits := if |s| > 0 && s[0] == '+' then s[1..] else s;
      if digits == "" || !AllDigits(digits) || Value(digits) > max then None else Some(Value(digits))
  }

  predicate Digits(s: string) {
    s != "" && AllDigits(s)
  }

  /** What is read as a number, and as which: digits, or digits after one sign, whose value is
      in the range of the type. */
  lemma ParsesIff(s: string, max: nat)
    ensures ParseInt(s, max).Some? <==>
      || (Digits(s) && Value(s) <= max)
      || (|s| > 1 && s[0] == '+' && AllDigits(s[1..]) && Value(s[1..]) <= max)
      || (|s| > 1 && s[0] == '-' && AllDigits(s[1..]) && Value(s[1..]) <= max + 1)
    ensures ParseInt(s, max).Some? ==>
      var n := ParseInt(s, max).value;
      if s[0] == '-' then n + Value(s[1..]) == 0 else if s[0] == '+' then n == Value(s[1..]) else n == Value(s)
  {
    hide Value;
    if s != "" && AllDigits(s) {
      assert IsDigit(s[0]);
    }
  }

  function NumberFromRunID(id: string): int {
    match ParseInt(TrimPrefix(id, "run_"), INT64_MAX)
    case Some(value) => value
    case None => 0
  }

  /** Printing and parsing a run number undo each other. */
  lemma NumberOfRunID(n: nat)
    requires n <= INT64_MAX
    ensures NumberFromRunID(RunID(n)) == n
  {
    Pad6Value(n);
    assert RunID(n)[4..] == Pad6(n);
    assert "run_" <= RunID(n);
    assert IsDigit(Pad6(n)[0]);
  }

  lemma RunIDInjective(m: nat, n: nat)
    ensures RunID(m) == RunID(n) <==> m == n
  {
    assert RunID(m)[4..] == Pad6(m) && RunID(n)[4..] == Pad6(n);
    Pad6Value(m);
    Pad6Value(n);
  }

  lemma OutboxIDInjective(m: nat, n: nat)
    ensures OutboxID(m) == OutboxID(n) <==> m == n
  {
    assert OutboxID(m)[7..] == Pad6(m) && OutboxID(n)[7..] == Pad6(n);
    Pad6Value(m);
    Pad6Value(n);
  }

  /** When sorting outbox names agrees with creation order: always up to 999999,
      and past that exactly while the older number does not exceed the leading
      digits of the newer one. */
  lemma OutboxIDOrder(older: nat, newer: nat)
    requires older < newer
    ensures |Pad6(older)| <= |Pad6(newer)|
    ensures Less(OutboxID(older), OutboxID(newer))
      <==> older <= newer / Pow10(|Pad6(newer)| - |Pad6(older)|)
    ensures newer <= 999_999 ==> Less(OutboxID(older), OutboxID(newer))
  {
    PaddedOrder(older, newer);
    LessCommonPrefix("outbox_", Pad6(older), Pad6(newer));
  }

  /** The first pair of names that sorts against creation order. */
  lemma OutboxIDOrderBreaks()
    ensures Less(OutboxID(1_000_000), OutboxID(999_999))
    ensures !Less(OutboxID(999_999), OutboxID(1_000_000))
  {
    OutboxIDOrder(999_999, 1_000_000);
    PadWidth(999_999);
    PadWidth(1_000_000);
    assert Pow10(1) == 10;
    var w := |Pad6(1_000_000)| - |Pad6(999_999)|;
    assert Pow10(w) == 10 * Pow10(w - 1);
    assert Pow10(w) >= 10;
    assert 1_000_000 / Pow10(w) <= 100_000 by {
      QuotientShrinks(1_000_000, Pow10(w));
    }
    LessTotal(OutboxID(999_999), OutboxID(1_000_000));
    OutboxIDInjective(999_999, 1_000_000);
  }

  lemma QuotientShrinks(n: nat, d: nat)
    requires d >= 10
    ensures n / d <= n / 10
  {
    var q, r := n / d, n % d;
    assert n == q * d + r;
    MulMonotone(10, d, q);
    assert d * q == q * d;
    assert q * 10 <= n;
  }
}
