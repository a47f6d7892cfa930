/** The signature header of an incoming webhook: splitting, trimming, the timestamp rules and
    the comparison, as one loop; and which headers that accepts. */
module SignatureHeader {
  import opened Options
  import opened Hex
  import opened Text
  import opened Identifiers
  import opened Jobs

  // ----- text -----

  /** strings.Split on one character. */
  function Split(s: string, sep: char): (parts: seq<string>)
    ensures |parts| > 0
  {
    if s == "" then [""]
    else
      var parts := Split(s[..|s| - 1], sep);
      var c := s[|s| - 1];
      if c == sep then parts + [""] else parts[|parts| - 1 := parts[|parts| - 1] + [c]]
  }

  function Join(parts: seq<string>, sep: char): string {
    if parts == [] then ""
    else if |parts| == 1 then parts[0]
    else Join(parts[..|parts| - 1], sep) + [sep] + parts[|parts| - 1]
  }

  predicate Free(part: string, c: char) {
    c !in part
  }

  predicate AllFree(parts: seq<string>, c: char) {
    forall i :: 0 <= i < |parts| ==> Free(parts[i], c)
  }

  lemma JoinLast(parts: seq<string>, sep: char, c: char)
    requires parts != []
    ensures Join(parts[|parts| - 1 := parts[|parts| - 1] + [c]], sep) == Join(parts, sep) + [c]
  {
    var last := |parts| - 1;
    var longer := parts[last := parts[last] + [c]];
    if |parts| > 1 {
      assert longer[..last] == parts[..last];
      assert Join(parts[..last], sep) + [sep] + (parts[last] + [c]) == Join(parts[..last], sep) + [sep] + parts[last] + [c];
    }
  }

  /** Splitting loses nothing and leaves no separator in a part. */
  lemma {:induction false} SplitJoins(s: string, sep: char)
    ensures Join(Split(s, sep), sep) == s && AllFree(Split(s, sep), sep)
  {
    if s != "" {
      var t, c := s[..|s| - 1], s[|s| - 1];
      SplitJoins(t, sep);
      var parts := Split(t, sep);
      assert s == t + [c];
      if c == sep {
        assert (parts + [""])[..|parts|] == parts;
      } else {
        JoinLast(parts, sep, c);
      }
    }
  }

  lemma {:induction false} SplitFree(s: string, sep: char)
    requires Free(s, sep)
    ensures Split(s, sep) == [s]
  {
    if s != "" {
      var t := s[..|s| - 1];
      assert s == t + [s[|s| - 1]];
      SplitFree(t, sep);
    }
  }

  lemma {:induction false} SplitTwo(a: string, b: string, sep: char)
    requires Free(a, sep) && Free(b, sep)
    ensures Split(a + [sep] + b, sep) == [a, b]
  {
    var s := a + [sep] + b;
    if b == "" {
      assert s[..|s| - 1] == a && s[|s| - 1] == sep;
      SplitFree(a, sep);
    } else {
      var t := b[..|b| - 1];
      assert s[..|s| - 1] == a + [sep] + t && b == t + [b[|b| - 1]];
      SplitTwo(a, t, sep);
    }
  }

  /** unicode.IsSpace */
  predicate IsSpace(c: char) {
    c in {'\t', '\n', '\U{0b}', '\U{0c}', '\r', ' ', '\U{85}', '\U{a0}', '\U{1680}',
          '\U{2028}', '\U{2029}', '\U{202f}', '\U{205f}', '\U{3000}'}
    || '\U{2000}' <= c <= '\U{200a}'
  }

  function TrimLeft(s: string): string {
    if s != "" && IsSpace(s[0]) then TrimLeft(s[1..]) else s
  }

  function TrimRight(s: string): string {
    if s != "" && IsSpace(s[|s| - 1]) then TrimRight(s[..|s| - 1]) else s
  }

  function TrimSpace(s: string): string {
    TrimRight(TrimLeft(s))
  }

  predicate AllSpace(s: string) {
    forall i :: 0 <= i < |s| ==> IsSpace(s[i])
  }

  lemma {:induction false} LeftTrimmed(s: string)
    ensures |TrimLeft(s)| <= |s| && s[|s| - |TrimLeft(s)|..] == TrimLeft(s) && AllSpace(s[..|s| - |TrimLeft(s)|])
    ensures TrimLeft(s) == "" || !IsSpace(TrimLeft(s)[0])
  {
    if s != "" && IsSpace(s[0]) {
      LeftTrimmed(s[1..]);
      var n := |s| - |TrimLeft(s)|;
      assert s[..n] == [s[0]] + s[1..][..n - 1] && s[n..] == s[1..][n - 1..];
    }
  }

  lemma {:induction false} RightTrimmed(s: string)
    ensures |TrimRight(s)| <= |s| && s[..|TrimRight(s)|] == TrimRight(s) && AllSpace(s[|TrimRight(s)|..])
    ensures TrimRight(s) == "" || !IsSpace(TrimRight(s)[|TrimRight(s)| - 1])
  {
    if s != "" && IsSpace(s[|s| - 1]) {
      var t := s[..|s| - 1];
      RightTrimmed(t);
      var n := |TrimRight(s)|;
      assert s[n..] == t[n..] + [s[|s| - 1]] && s[..n] == t[..n];
    }
  }

  /** Trimming takes away nothing but spaces, and all of them, from both ends. */
  lemma TrimsSpaces(s: string) returns (a: string, b: string)
    ensures s == a + TrimSpace(s) + b && AllSpace(a) && AllSpace(b)
    ensures TrimSpace(s) != "" ==> !IsSpace(TrimSpace(s)[0]) && !IsSpace(TrimSpace(s)[|TrimSpace(s)| - 1])
  {
    hide TrimLeft, TrimRight, IsSpace;
    var left, trimmed := TrimLeft(s), TrimSpace(s);
    LeftTrimmed(s);
    RightTrimmed(left);
    a, b := s[..|s| - |left|], left[|trimmed|..];
    assert left == trimmed + b;
    assert s == a + left;
    assert trimmed != "" ==> trimmed[0] == left[0];
  }

  /** strings.Cut at the first equals sign. */
  function Cut(s: string): Option<(string, string)> {
    if s == "" then None
    else if s[0] == '=' then Some(("", s[1..]))
    else
      match Cut(s[1..])
      case None => None
      case Some((key, value)) => Some(([s[0]] + key, value))
  }

  /** A cut part is its key, an equals sign that the key does not contain, and its value. */
  lemma {:induction false} CutJoins(s: string)
    ensures Cut(s).Some? <==> '=' in s
    ensures Cut(s).Some? ==> Cut(s).value.0 + "=" + Cut(s).value.1 == s && Free(Cut(s).value.0, '=')
  {
    if s != "" {
      assert s == [s[0]] + s[1..];
      CutJoins(s[1..]);
    }
  }

  lemma {:induction false} CutOf(key: string, value: string)
    requires Free(key, '=')
    ensures Cut(key + "=" + value) == Some((key, value))
  {
    var s := key + "=" + value;
    if key == "" {
      assert s[1..] == value;
    } else {
      assert s[1..] == key[1..] + "=" + value;
      assert key == [key[0]] + key[1..];
      CutOf(key[1..], value);
    }
  }

  // ----- what a header means -----

  /** The values that a header gives for a key, in order. */
  function ValuesOf(parts: seq<string>, key: string): seq<string> {
    if parts == [] then []
    else
      var before := ValuesOf(parts[..|parts| - 1], key);
      match Cut(TrimSpace(parts[|parts| - 1]))
      case Some((k, v)) => if k == key then before + [v] else before
      case None => before
  }

  function ParseTimestamp(value: string): Option<int> {
    ParseInt(value, INT64_MAX)
  }

  /** Go's difference of two times stops at the ends of the 64-bit range. */
  function Saturate(n: int): int {
    if n > INT64_MAX then INT64_MAX else if n < -INT64_MAX - 1 then -INT64_MAX - 1 else n
  }

  predicate WithinTolerance(timestamp: int, now: int, tolerance: int) {
    Saturate(now - timestamp * SECOND) <= tolerance && Saturate(timestamp * SECOND - now) <= tolerance
  }

  /** For every tolerance short of the largest duration, the times lie that close together. */
  lemma ToleranceIsDistance(timestamp: int, now: int, tolerance: int)
    requires tolerance < INT64_MAX
    ensures WithinTolerance(timestamp, now, tolerance)
      <==> tolerance >= 0 && -tolerance <= now - timestamp * SECOND <= tolerance
  {
  }

  function Message(timestamp: int, payload: string): string {
    FormatInt(timestamp) + "." + payload
  }

  predicate AllParse(values: seq<string>) {
    forall i :: 0 <= i < |values| ==> ParseTimestamp(values[i]).Some?
  }

  predicate SomeMatches(values: seq<string>, expected: seq<Byte>) {
    exists i :: 0 <= i < |values| && DecodeString(values[i]) == Some(expected)
  }

  /** The header is accepted: every t parses, the last one is not zero and close to now, and
      some v1 decodes to the MAC of that time and the payload. */
  ghost predicate Accepts(mac: string -> seq<Byte>, payload: string, header: string, now: int, tolerance: int) {
    var parts := Split(header, ',');
    var times, signatures := ValuesOf(parts, "t"), ValuesOf(parts, "v1");
    && times != [] && AllParse(times)
    && var timestamp := ParseTimestamp(times[|times| - 1]).value;
       && timestamp != 0 && WithinTolerance(timestamp, now, tolerance)
       && SomeMatches(signatures, mac(Message(timestamp, payload)))
  }

  // ----- the loop -----

  lemma NoValues(key: string)
    ensures ValuesOf([], key) == []
  {
  }

  lemma ValuesSnoc(parts: seq<string>, part: string, key: string)
    ensures ValuesOf(parts + [part], key) == ValuesOf(parts, key) + match Cut(TrimSpace(part))
                                                                    case Some((k, v)) => if k == key then [v] else []
                                                                    case None => []
  {
    assert (parts + [part])[..|parts|] == parts;
  }

  lemma {:induction false} ValuesGrow(parts: seq<string>, n: nat, key: string)
    requires n <= |parts|
    ensures ValuesOf(parts[..n], key) <= ValuesOf(parts, key)
    decreases |parts| - n
  {
    if n < |parts| {
      ValuesSnoc(parts[..n], parts[n], key);
      assert parts[..n + 1] == parts[..n] + [parts[n]];
      ValuesGrow(parts, n + 1, key);
    } else {
      assert parts[..n] == parts;
    }
  }

  method VerifyStripeSignature(mac: string -> seq<Byte>, payload: string, header: string, now: int, tolerance: int)
    returns (accepted: bool)
    ensures accepted <==> Accepts(mac, payload, header, now, tolerance)
  {
    hide ParseTimestamp, TrimSpace, Cut, Split, DecodeString, WithinTolerance, ValuesOf;
    NoValues("t");
    NoValues("v1");
    var parts := Split(header, ',');
    assert parts[..0] == [];
    var timestamp := 0;
    var signatures: seq<string> := [];
    for n := 0 to |parts|
      invariant signatures == ValuesOf(parts[..n], "v1")
      invariant AllParse(ValuesOf(parts[..n], "t"))
      invariant var times := ValuesOf(parts[..n], "t");
        timestamp == if times == [] then 0 else ParseTimestamp(times[|times| - 1]).value
    {
      var part := parts[n];
      ValuesSnoc(parts[..n], part, "t");
      ValuesSnoc(parts[..n], part, "v1");
      assert parts[..n + 1] == parts[..n] + [part];
      match Cut(TrimSpace(part)) {
        case None =>
        case Some((key, value)) =>
          if key == "t" {
            var parsed := ParseTimestamp(value);
            if parsed.None? {
              ValuesGrow(parts, n + 1, "t");
              assert ValuesOf(parts[..n + 1], "t")[|ValuesOf(parts[..n], "t")|] == value;
              return false;
            }
            timestamp := parsed.value;
          } else if key == "v1" {
            signatures := signatures + [value];
          }
      }
    }
    assert parts[..|parts|] == parts;
    if timestamp == 0 || |signatures| == 0 {
      return false;
    }
    if !WithinTolerance(timestamp, now, tolerance) {
      return false;
    }
    var expected := mac(Message(timestamp, payload));
    for i := 0 to |signatures|
      invariant forall k :: 0 <= k < i ==> DecodeString(signatures[k]) != Some(expected)
    {
      var decoded := DecodeString(signatures[i]);
      if decoded.Some? && decoded.value == expected {
        return true;
      }
    }
    return false;
  }

  // ----- signing and verifying -----

  lemma ParseFormatted(n: int)
    requires -INT64_MAX - 1 <= n <= INT64_MAX
    ensures ParseTimestamp(FormatInt(n)) == Some(n)
  {
    ItoaCanonical(if n < 0 then -n else n);
    if n < 0 {
      assert FormatInt(n)[1..] == Itoa(-n) && FormatInt(n)[0] == '-';
    } else {
      assert IsDigit(FormatInt(n)[0]);
    }
  }

  /** A header in the form that a signer writes. */
  function SignedHeader(mac: string -> seq<Byte>, timestamp: int, payload: string): string {
    "t=" + FormatInt(timestamp) + "," + ("v1=" + EncodeToString(mac(Message(timestamp, payload))))
  }

  /** Neither a space nor a separator. */
  predicate PlainChar(c: char) {
    IsDigit(c) || 'a' <= c <= 'z' || c == '-' || c == '='
  }

  predicate Plain(s: string) {
    forall i :: 0 <= i < |s| ==> PlainChar(s[i])
  }

  lemma PlainTrims(s: string)
    requires Plain(s)
    ensures TrimSpace(s) == s && Free(s, ',')
  {
  }

  lemma FormatIsPlain(n: int)
    ensures Plain(FormatInt(n)) && Free(FormatInt(n), '.')
  {
    var d := Itoa(if n < 0 then -n else n);
    forall c | c in d
      ensures IsDigit(c)
    {
      var i :| 0 <= i < |d| && d[i] == c;
    }
  }

  lemma {:induction false} HexIsPlain(b: seq<Byte>)
    ensures Plain(EncodeToString(b))
  {
    if b != [] {
      HexIsPlain(b[1..]);
      assert forall v: nat :: v < 16 ==> PlainChar("0123456789abcdef"[v]);
    }
  }

  /** A single field is read back as it was written. */
  lemma FieldValue(key: string, value: string)
    requires Plain(key) && Plain(value) && Free(key, '=')
    ensures Free(key + "=" + value, ',') && Cut(TrimSpace(key + "=" + value)) == Some((key, value))
  {
    assert Plain(key + "=" + value);
    PlainTrims(key + "=" + value);
    CutOf(key, value);
  }

  lemma ShortNames()
    ensures Plain("t") && Plain("v1") && Free("t", '=') && Free("v1", '=') && "t" != "v1"
  {
    assert "t"[0] != "v1"[0];
  }

  lemma TwoFields(timeText: string, signature: string)
    requires Plain(timeText) && Plain(signature)
    ensures var parts := Split("t=" + timeText + "," + ("v1=" + signature), ',');
      ValuesOf(parts, "t") == [timeText] && ValuesOf(parts, "v1") == [signature]
  {
    hide Split, ValuesOf, Cut, TrimSpace, Plain;
    ShortNames();
    NoValues("t");
    NoValues("v1");
    FieldValue("t", timeText);
    FieldValue("v1", signature);
    var a, b := "t=" + timeText, "v1=" + signature;
    assert "t" + "=" + timeText == a && "v1" + "=" + signature == b;
    SplitTwo(a, b, ',');
    assert a + "," + b == a + [','] + b;
    ValuesSnoc([], a, "t");
    ValuesSnoc([a], b, "t");
    ValuesSnoc([], a, "v1");
    ValuesSnoc([a], b, "v1");
    assert [] + [a] == [a] && [a] + [b] == [a, b];
  }

  lemma OneMatches(value: string, decoded: seq<Byte>, expected: seq<Byte>)
    requires DecodeString(value) == Some(decoded)
    ensures SomeMatches([value], expected) <==> decoded == expected
  {
    hide DecodeString;
    assert [value][0] == value;
  }

  /** A signed header is accepted, for the payload that was signed, exactly when its time is
      not zero and close enough; and for another payload exactly when the MACs agree too. */
  lemma SignedHeaderAccepted(mac: string -> seq<Byte>, timestamp: int, signed: string, received: string, now: int, tolerance: int)
    requires -INT64_MAX - 1 <= timestamp <= INT64_MAX
    ensures Accepts(mac, received, SignedHeader(mac, timestamp, signed), now, tolerance)
      <==> timestamp != 0 && WithinTolerance(timestamp, now, tolerance)
           && mac(Message(timestamp, signed)) == mac(Message(timestamp, received))
  {
    hide Split, ValuesOf, ParseTimestamp, WithinTolerance, Message, FormatInt, EncodeToString, DecodeString;
    var expected := mac(Message(timestamp, signed));
    FormatIsPlain(timestamp);
    HexIsPlain(expected);
    TwoFields(FormatInt(timestamp), EncodeToString(expected));
    ParseFormatted(timestamp);
    RoundTrip(expected);
    OneMatches(EncodeToString(expected), expected, mac(Message(timestamp, received)));
  }

  lemma ThreeFields(timeText: string, first: string, second: string)
    requires Plain(timeText) && Plain(first) && Plain(second)
    ensures var parts := Split("t=" + timeText + "," + ("v1=" + first) + "," + ("v1=" + second), ',');
      ValuesOf(parts, "t") == [timeText] && ValuesOf(parts, "v1") == [first, second]
  {
    hide Split, ValuesOf, Cut, TrimSpace, Plain;
    ShortNames();
    FieldValue("t", timeText);
    FieldValue("v1", first);
    FieldValue("v1", second);
    TwoFields(timeText, first);
    var head, c := "t=" + timeText + "," + ("v1=" + first), "v1=" + second;
    var before := Split(head, ',');
    assert "v1" + "=" + second == c;
    SplitMore(head, c, ',');
    ValuesSnoc(before, c, "t");
    ValuesSnoc(before, c, "v1");
    assert head + "," + c == head + [','] + c;
  }

  lemma {:induction false} SplitMore(s: string, b: string, sep: char)
    requires Free(b, sep)
    ensures Split(s + [sep] + b, sep) == Split(s, sep) + [b]
  {
    var whole := s + [sep] + b;
    if b == "" {
      assert whole[..|whole| - 1] == s && whole[|whole| - 1] == sep;
    } else {
      var t := b[..|b| - 1];
      assert whole[..|whole| - 1] == s + [sep] + t && b == t + [b[|b| - 1]];
      SplitMore(s, t, sep);
      var parts := Split(s, sep) + [t];
      assert parts[|parts| - 1 := parts[|parts| - 1] + [b[|b| - 1]]] == Split(s, sep) + [b];
    }
  }

  /** A header with two signatures, as Stripe sends it while a secret is being replaced, is
      accepted exactly when its time is not zero and close enough and either of them is the
      MAC, whichever comes first. */
  lemma EitherSignatureIsEnough(mac: string -> seq<Byte>, timestamp: int, payload: string, first: string, second: string,
                                now: int, tolerance: int)
    requires -INT64_MAX - 1 <= timestamp <= INT64_MAX && Plain(first) && Plain(second)
    ensures Accepts(mac, payload, "t=" + FormatInt(timestamp) + "," + ("v1=" + first) + "," + ("v1=" + second), now, tolerance)
      <==> timestamp != 0 && WithinTolerance(timestamp, now, tolerance)
           && (DecodeString(first) == Some(mac(FormatInt(timestamp) + "." + payload))
               || DecodeString(second) == Some(mac(FormatInt(timestamp) + "." + payload)))
  {
    hide Split, ValuesOf, ParseTimestamp, WithinTolerance, FormatInt, DecodeString, Plain;
    FormatIsPlain(timestamp);
    ThreeFields(FormatInt(timestamp), first, second);
    ParseFormatted(timestamp);
    TwoMatch(first, second, mac(Message(timestamp, payload)));
  }

  lemma TwoMatch(first: string, second: string, expected: seq<Byte>)
    ensures SomeMatches([first, second], expected)
      <==> DecodeString(first) == Some(expected) || DecodeString(second) == Some(expected)
  {
    hide DecodeString;
    assert [first, second][0] == first && [first, second][1] == second;
  }

  /** So with a MAC that does not collide, only the payload that was signed is accepted. */
  lemma OnlyTheSignedPayload(mac: string -> seq<Byte>, timestamp: int, signed: string, received: string, now: int, tolerance: int)
    requires -INT64_MAX - 1 <= timestamp <= INT64_MAX
    requires forall x, y :: mac(x) == mac(y) ==> x == y
    requires Accepts(mac, signed, SignedHeader(mac, timestamp, signed), now, tolerance)
    ensures Accepts(mac, received, SignedHeader(mac, timestamp, signed), now, tolerance) <==> received == signed
  {
    hide Accepts, SignedHeader, WithinTolerance, FormatInt;
    SignedHeaderAccepted(mac, timestamp, signed, signed, now, tolerance);
    SignedHeaderAccepted(mac, timestamp, signed, received, now, tolerance);
    var head := FormatInt(timestamp) + ".";
    assert Message(timestamp, signed)[|head|..] == signed && Message(timestamp, received)[|head|..] == received;
  }
}
