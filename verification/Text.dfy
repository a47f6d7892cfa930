/** Strings as Go sees them: the byte order that sort.Strings uses, decimal
    printing and parsing, and zero-padded identifiers. */
module Text {

  // ----- order -----

  /** Go's `<` on strings. */
  predicate Less(a: string, b: string) {
    |b| > 0 && (|a| == 0 || a[0] < b[0] || (a[0] == b[0] && Less(a[1..], b[1..])))
  }

  lemma {:induction false} LessTotal(a: string, b: string)
    ensures Less(a, b) || a == b || Less(b, a)
    ensures !(Less(a, b) && Less(b, a))
    ensures !Less(a, a)
  {
    if |a| > 0 && |b| > 0 {
      LessTotal(a[1..], b[1..]);
      if a[0] == b[0] {
        assert a == [a[0]] + a[1..] && b == [b[0]] + b[1..];
      }
    }
    if |a| > 0 {
      LessIrreflexive(a);
    }
  }

  lemma {:induction false} LessIrreflexive(a: string)
    ensures !Less(a, a)
  {
    if |a| > 0 {
      LessIrreflexive(a[1..]);
    }
  }

  lemma {:induction false} LessTransitive(a: string, b: string, c: string)
    requires Less(a, b) && Less(b, c)
    ensures Less(a, c)
  {
    if |a| > 0 && a[0] == b[0] == c[0] {
      LessTransitive(a[1..], b[1..], c[1..]);
    }
  }

  lemma {:induction false} LessCommonPrefix(p: string, a: string, b: string)
    ensures Less(p + a, p + b) == Less(a, b)
  {
    if p == [] {
      assert p + a == a && p + b == b;
    } else {
      assert (p + a)[1..] == p[1..] + a && (p + b)[1..] == p[1..] + b;
      LessCommonPrefix(p[1..], a, b);
    }
  }

  /** A string compared with a longer one: only as many characters as the shorter
      one has matter, and a tie goes to the shorter one. */
  lemma {:induction false} LessByPrefix(a: string, b: string)
    requires |a| < |b|
    ensures Less(a, b) <==> Less(a, b[..|a|]) || a == b[..|a|]
  {
    if |a| > 0 {
      LessByPrefix(a[1..], b[1..]);
      assert b[..|a|][1..] == b[1..][..|a| - 1];
      assert a == [a[0]] + a[1..];
      assert b[..|a|] == [b[0]] + b[1..][..|a| - 1];
    }
  }

  // ----- decimal digits -----

  const INT64_MAX: int := 0x7fff_ffff_ffff_ffff
  const INT32_MAX: int := 0x7fff_ffff

  predicate IsDigit(c: char) {
    '0' <= c <= '9'
  }

  predicate AllDigits(s: string) {
    forall i :: 0 <= i < |s| ==> IsDigit(s[i])
  }

  function DigitChar(d: nat): (c: char)
    requires d < 10
    ensures IsDigit(c) && c as int - '0' as int == d
  {
    "0123456789"[d]
  }

  /** The number that a string of digits denotes. */
  function Value(s: string): nat
    requires AllDigits(s)
  {
    if s == [] then 0
    else 10 * Value(s[..|s| - 1]) + (s[|s| - 1] as int - '0' as int)
  }

  /** strconv.Itoa and the %d verb, for numbers that are not negative. */
  function Itoa(n: nat): (s: string)
    ensures AllDigits(s) && |s| > 0
  {
    if n < 10 then [DigitChar(n)] else Itoa(n / 10) + [DigitChar(n % 10)]
  }

  /** The %d verb. */
  function FormatInt(n: int): string {
    if n < 0 then "-" + Itoa(-n) else Itoa(n)
  }

  function Pow10(k: nat): (p: nat)
    ensures p > 0
  {
    if k == 0 then 1 else 10 * Pow10(k - 1)
  }

  /** A decimal with no superfluous leading zero. */
  predicate Canonical(s: string) {
    |s| > 0 && AllDigits(s) && (|s| > 1 ==> s[0] != '0')
  }

  lemma {:induction false} ItoaCanonical(n: nat)
    ensures Canonical(Itoa(n)) && Value(Itoa(n)) == n
    ensures n > 0 ==> Itoa(n)[0] != '0'
  {
    if n >= 10 {
      ItoaCanonical(n / 10);
      var t, d := Itoa(n / 10), DigitChar(n % 10);
      assert (t + [d])[..|t|] == t;
    }
  }

  lemma {:induction false} CanonicalIsItoa(s: string)
    requires Canonical(s)
    ensures Itoa(Value(s)) == s
    ensures s[0] != '0' ==> Value(s) > 0
  {
    var k := |s| - 1;
    var t, d := s[..k], s[k] as int - '0' as int;
    assert s == t + [s[k]];
    assert DigitChar(d) == s[k];
    if k == 0 {
      assert t == [];
    } else {
      assert t[0] == s[0];
      CanonicalIsItoa(t);
      assert Value(s) == 10 * Value(t) + d;
      assert Value(s) / 10 == Value(t) && Value(s) % 10 == d;
    }
  }

  lemma ItoaInjective(m: nat, n: nat)
    requires Itoa(m) == Itoa(n)
    ensures m == n
  {
    ItoaCanonical(m);
    ItoaCanonical(n);
  }

  lemma FormatIntInjective(m: int, n: int)
    requires FormatInt(m) == FormatInt(n)
    ensures m == n
  {
    var a, b := if m < 0 then -m else m, if n < 0 then -n else n;
    if m < 0 { assert FormatInt(m)[1..] == Itoa(a) && FormatInt(m)[0] == '-'; } else { assert IsDigit(FormatInt(m)[0]); }
    if n < 0 { assert FormatInt(n)[1..] == Itoa(b) && FormatInt(n)[0] == '-'; } else { assert IsDigit(FormatInt(n)[0]); }
    ItoaInjective(a, b);
  }

  /** k digits are enough exactly for the numbers below 10^k. */
  lemma {:induction false} ItoaLength(n: nat, k: nat)
    requires k > 0
    ensures |Itoa(n)| <= k <==> n < Pow10(k)
  {
    if k == 1 {
      assert Pow10(1) == 10 * Pow10(0);
      if n >= 10 { assert |Itoa(n / 10)| >= 1; }
    } else if n >= 10 {
      ItoaLength(n / 10, k - 1);
      assert Pow10(k) == 10 * Pow10(k - 1);
    } else {
      assert Pow10(k) == 10 * Pow10(k - 1) && Pow10(k - 1) > 0;
    }
  }

  lemma Pow10Nineteen()
    ensures INT64_MAX < Pow10(19)
  {
    assert Pow10(5) == 100_000;
    assert Pow10(10) == 10_000_000_000;
    assert Pow10(15) == 1_000_000_000_000_000;
    assert Pow10(19) == 10_000_000_000_000_000_000;
  }

  lemma {:induction false} ValueBound(s: string)
    requires AllDigits(s)
    ensures Value(s) < Pow10(|s|)
  {
    if s != [] {
      ValueBound(s[..|s| - 1]);
    }
  }

  /** Value read from the left. */
  lemma {:induction false} ValueHead(s: string)
    requires AllDigits(s) && s != []
    ensures Value(s) == (s[0] as int - '0' as int) * Pow10(|s| - 1) + Value(s[1..])
  {
    if |s| == 1 {
      assert s[..0] == [] && s[1..] == [];
    } else {
      var k := |s| - 1;
      var t := s[..k];
      ValueHead(t);
      assert s[1..][..k - 1] == t[1..];
      assert Pow10(k) == 10 * Pow10(k - 1);
      var h := t[0] as int - '0' as int;
      calc {
        Value(s);
        10 * (h * Pow10(k - 1) + Value(t[1..])) + (s[k] as int - '0' as int);
        h * (10 * Pow10(k - 1)) + (10 * Value(t[1..]) + (s[k] as int - '0' as int));
        h * Pow10(k) + Value(s[1..]);
      }
    }
  }

  /** Among digit strings of one length, string order is numeric order. */
  lemma {:induction false} LessIsNumeric(a: string, b: string)
    requires AllDigits(a) && AllDigits(b) && |a| == |b|
    ensures Less(a, b) <==> Value(a) < Value(b)
  {
    if a != [] {
      LessIsNumeric(a[1..], b[1..]);
      ValueHead(a);
      ValueHead(b);
      ValueBound(a[1..]);
      ValueBound(b[1..]);
      var x, y, p := a[0] as int - '0' as int, b[0] as int - '0' as int, Pow10(|a| - 1);
      LeadingDigitDecides(x, y, p, Value(a[1..]), Value(b[1..]));
    }
  }

  lemma LeadingDigitDecides(x: nat, y: nat, p: nat, u: nat, v: nat)
    requires u < p && v < p
    ensures x * p + u < y * p + v <==> x < y || (x == y && u < v)
  {
    if x < y {
      MulMonotone(x + 1, y, p);
    } else if y < x {
      MulMonotone(y + 1, x, p);
    }
  }

  /** The leading digits are the quotient by a power of ten. */
  lemma {:induction false} ValuePrefix(s: string, k: nat)
    requires AllDigits(s) && k <= |s|
    ensures Value(s[..k]) == Value(s) / Pow10(|s| - k)
  {
    if k == |s| {
      assert s[..k] == s;
    } else {
      var t := s[..|s| - 1];
      ValuePrefix(t, k);
      assert t[..k] == s[..k];
      var v, p := Value(t), Pow10(|t| - k);
      assert Pow10(|s| - k) == 10 * p;
      DivTwice(Value(s), p);
      assert Value(s) / 10 == v;
    }
  }

  lemma DivTwice(n: nat, p: nat)
    requires p > 0
    ensures n / (10 * p) == (n / 10) / p
  {
    var q, r := (n / 10) / p, (n / 10) % p;
    assert n / 10 == q * p + r;
    assert n == 10 * (q * p + r) + n % 10;
    assert n == q * (10 * p) + (10 * r + n % 10);
    assert 10 * r + n % 10 < 10 * p;
    DivUnique(n, 10 * p, q, 10 * r + n % 10);
  }

  lemma DivUnique(n: int, d: nat, q: int, r: nat)
    requires d > 0 && n == q * d + r && r < d
    ensures n / d == q
  {
    var q', r' := n / d, n % d;
    assert n == q' * d + r';
    if q' < q {
      MulMonotone(q' + 1, q, d);
    } else if q < q' {
      MulMonotone(q + 1, q', d);
    }
  }

  lemma MulMonotone(x: int, y: int, d: nat)
    requires x <= y
    ensures x * d <= y * d
  {
  }

  // ----- %06d -----

  function Zeros(k: nat): (s: string)
    ensures |s| == k && AllDigits(s)
  {
    seq(k, _ => '0')
  }

  function Pad6(n: nat): (s: string)
    ensures AllDigits(s) && |s| >= 6
  {
    var d := Itoa(n);
    if |d| < 6 then Zeros(6 - |d|) + d else d
  }

  lemma {:induction false} ValueOfZeros(k: nat, s: string)
    requires AllDigits(s)
    ensures Value(Zeros(k) + s) == Value(s)
  {
    if k == 0 {
      assert Zeros(0) + s == s;
    } else {
      var z := Zeros(k) + s;
      ValueHead(z);
      assert z[1..] == Zeros(k - 1) + s;
      ValueOfZeros(k - 1, s);
    }
  }

  lemma Pad6Value(n: nat)
    ensures Value(Pad6(n)) == n
    ensures |Pad6(n)| == if |Itoa(n)| < 6 then 6 else |Itoa(n)|
  {
    ItoaCanonical(n);
    var d := Itoa(n);
    if |d| < 6 {
      ValueOfZeros(6 - |d|, d);
      assert Pad6(n) == Zeros(6 - |d|) + d;
    } else {
      assert Pad6(n) == d;
    }
  }

  lemma PadWidth(n: nat)
    ensures |Pad6(n)| == 6 <==> n <= 999_999
  {
    ItoaLength(n, 6);
    assert Pow10(3) == 1000;
    assert Pow10(6) == 1_000_000;
  }

  lemma {:induction false} LongerIsLarger(m: nat, n: nat)
    requires m <= n
    ensures |Itoa(m)| <= |Itoa(n)|
  {
    ItoaLength(n, |Itoa(n)|);
    ItoaLength(m, |Itoa(n)|);
  }

  /** Zero-padded names sort by number exactly while the shorter name is not beaten
      by the leading digits of the longer one. */
  lemma PaddedOrder(m: nat, n: nat)
    requires m < n
    ensures |Pad6(m)| <= |Pad6(n)|
    ensures Less(Pad6(m), Pad6(n)) <==> m <= n / Pow10(|Pad6(n)| - |Pad6(m)|)
    ensures n <= 999_999 ==> Less(Pad6(m), Pad6(n))
  {
    Pad6Value(m);
    Pad6Value(n);
    LongerIsLarger(m, n);
    var a, b := Pad6(m), Pad6(n);
    PadWidth(m);
    PadWidth(n);
    ValuePrefix(b, |a|);
    if |a| == |b| {
      LessIsNumeric(a, b);
      assert Pow10(0) == 1 && b[..|a|] == b;
    } else {
      LessByPrefix(a, b);
      LessIsNumeric(a, b[..|a|]);
      if Value(a) == Value(b[..|a|]) {
        SameLengthSameValue(a, b[..|a|]);
      }
    }
  }

  lemma SameLengthSameValue(a: string, b: string)
    requires AllDigits(a) && AllDigits(b) && |a| == |b| && Value(a) == Value(b)
    ensures a == b
  {
    LessIsNumeric(a, b);
    LessIsNumeric(b, a);
    LessTotal(a, b);
  }
}
