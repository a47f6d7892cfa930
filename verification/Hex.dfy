/** Bytes and their hexadecimal text, as encoding/hex prints and reads them. */
module Hex {
  import opened Options

  type Byte = x: int | 0 <= x < 256

  /** A SHA-256 digest. */
  type Hash = h: seq<Byte> | |h| == 32 witness seq(32, _ => 0)

  function DigitOf(v: nat): (c: char)
    requires v < 16
    ensures Nibble(c) == Some(v)
  {
    "0123456789abcdef"[v]
  }

  /** The value of one hexadecimal character; both letter cases are read. */
  function Nibble(c: char): (r: Option<int>)
    ensures r.Some? ==> 0 <= r.value < 16
  {
    if '0' <= c <= '9' then Some(c as int - '0' as int)
    else if 'a' <= c <= 'f' then Some(c as int - 'a' as int + 10)
    else if 'A' <= c <= 'F' then Some(c as int - 'A' as int + 10)
    else None
  }

  function EncodeToString(b: seq<Byte>): (s: string)
    ensures |s| == 2 * |b|
  {
    if b == [] then "" else [DigitOf(b[0] / 16), DigitOf(b[0] % 16)] + EncodeToString(b[1..])
  }

  function DecodeString(s: string): Option<seq<Byte>> {
    if s == "" then Some([])
    else if |s| == 1 then None
    else
      match (Nibble(s[0]), Nibble(s[1]), DecodeString(s[2..]))
      case (Some(high), Some(low), Some(rest)) => Some([16 * high + low] + rest)
      case _ => None
  }

  lemma {:induction false} RoundTrip(b: seq<Byte>)
    ensures DecodeString(EncodeToString(b)) == Some(b)
  {
    if b != [] {
      RoundTrip(b[1..]);
      var high, low := b[0] / 16, b[0] % 16;
      var s := EncodeToString(b);
      assert s[2..] == EncodeToString(b[1..]);
      assert s[0] == DigitOf(high) && s[1] == DigitOf(low);
      assert b == [16 * high + low] + b[1..];
    }
  }

  lemma {:induction false} EncodeIsHex(b: seq<Byte>)
    ensures forall i :: 0 <= i < |EncodeToString(b)| ==> Nibble(EncodeToString(b)[i]).Some?
  {
    if b != [] {
      EncodeIsHex(b[1..]);
    }
  }

  /** A text is read exactly if it has an even length and holds hexadecimal digits only, and
      then two digits at a time. */
  lemma {:induction false} DecodesIff(s: string)
    ensures DecodeString(s).Some? <==> |s| % 2 == 0 && AllHex(s)
    ensures DecodeString(s).Some? ==> |DecodeString(s).value| == |s| / 2
    ensures DecodeString(s).Some? ==> forall i :: 0 <= i < |s| / 2 ==> ByteAt(s, i, DecodeString(s).value[i])
  {
    if |s| >= 2 {
      var rest := s[2..];
      DecodesIff(rest);
      assert AllHex(s) <==> Nibble(s[0]).Some? && Nibble(s[1]).Some? && AllHex(rest) by {
        assert forall i :: 2 <= i < |s| ==> s[i] == rest[i - 2];
      }
      if DecodeString(s).Some? {
        var bytes := DecodeString(s).value;
        forall i | 0 <= i < |s| / 2
          ensures ByteAt(s, i, bytes[i])
        {
          if i > 0 {
            assert ByteAt(rest, i - 1, bytes[i]);
          }
        }
      }
    }
  }

  /** Sixteen digits in either letter case. */
  lemma BothCases(v: nat)
    requires v < 16
    ensures Nibble("0123456789abcdef"[v]) == Nibble("0123456789ABCDEF"[v]) == Some(v)
  {
  }

  predicate AllHex(s: string) {
    forall i :: 0 <= i < |s| ==> Nibble(s[i]).Some?
  }

  /** Digits 2i and 2i+1 stand for the byte. */
  predicate ByteAt(s: string, i: int, b: Byte)
    requires 0 <= i < |s| / 2
  {
    Nibble(s[2 * i]).Some? && Nibble(s[2 * i + 1]).Some? && b == 16 * Nibble(s[2 * i]).value + Nibble(s[2 * i + 1]).value
  }

  lemma EncodeInjective(a: seq<Byte>, b: seq<Byte>)
    requires EncodeToString(a) == EncodeToString(b)
    ensures a == b
  {
    RoundTrip(a);
    RoundTrip(b);
  }
}
