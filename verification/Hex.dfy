/** Bytes in hexadecimal, and the 32-byte form the wire carries. */
module Hex {
  import opened Text

  newtype byte = x: int | 0 <= x < 256

  function Digit(n: nat): (c: char)
    requires n < 16
    ensures c != 'x' && !IsSpace(c)
  {
    if n < 10 then (n + '0' as int) as char else (n - 10 + 'a' as int) as char
  }

  function DigitValue(c: char): Option<nat> {
    if '0' <= c <= '9' then Some(c as int - '0' as int)
    else if 'a' <= c <= 'f' then Some(c as int - 'a' as int + 10)
    else if 'A' <= c <= 'F' then Some(c as int - 'A' as int + 10)
    else None
  }

  lemma DigitRoundTrip(n: nat)
    requires n < 16
    ensures DigitValue(Digit(n)) == Some(n)
  {
  }

  function Encode(bytes: seq<byte>): (s: string)
    ensures |s| == 2 * |bytes|
  {
    if bytes == [] then ""
    else [Digit(bytes[0] as int / 16), Digit(bytes[0] as int % 16)] + Encode(bytes[1..])
  }

  function Decode(s: string): Option<seq<byte>> {
    if s == "" then Some([])
    else if |s| == 1 then None
    else
      match (DigitValue(s[0]), DigitValue(s[1]), Decode(s[2..]))
      case (Some(hi), Some(lo), Some(rest)) =>
        if hi < 16 && lo < 16 then Some([(16 * hi + lo) as byte] + rest) else None
      case _ => None
  }

  lemma {:induction false} DecodeRoundTrip(bytes: seq<byte>)
    ensures Decode(Encode(bytes)) == Some(bytes)
  {
    if bytes != [] {
      var hi, lo := bytes[0] as int / 16, bytes[0] as int % 16;
      DigitRoundTrip(hi);
      DigitRoundTrip(lo);
      DecodeRoundTrip(bytes[1..]);
      var s := Encode(bytes);
      assert s[0] == Digit(hi) && s[1] == Digit(lo) && s[2..] == Encode(bytes[1..]);
      assert bytes == [bytes[0]] + bytes[1..];
    }
  }

  lemma {:induction false} EncodeHasNoSpace(bytes: seq<byte>)
    ensures forall k :: 0 <= k < |Encode(bytes)| ==> !IsSpace(Encode(bytes)[k])
  {
    if bytes != [] {
      EncodeHasNoSpace(bytes[1..]);
    }
  }

  // ----- 32 bytes on the wire

  const HASH_LENGTH: nat := 32

  function Prefixed(bytes: seq<byte>): string {
    "0x" + Encode(bytes)
  }

  function ParseBytes32(s: string): Option<seq<byte>> {
    var v := Trim(if |s| >= 2 && s[..2] == "0x" then s[2..] else s);
    if |v| != 2 * HASH_LENGTH then None else Decode(v)
  }

  lemma ParseBytes32RoundTrip(bytes: seq<byte>)
    requires |bytes| == HASH_LENGTH
    ensures ParseBytes32(Prefixed(bytes)) == Some(bytes)
  {
    assert Prefixed(bytes)[..2] == "0x" && Prefixed(bytes)[2..] == Encode(bytes);
    EncodeHasNoSpace(bytes);
    TrimSame(Encode(bytes));
    DecodeRoundTrip(bytes);
  }

  /** Hexadecimal comparison ignoring case still tells bytes apart. */
  lemma PrefixedIsInjective(a: seq<byte>, b: seq<byte>)
    requires EqualFold(Prefixed(a), Prefixed(b))
    ensures a == b
  {
    EncodeIsLower(a);
    EncodeIsLower(b);
    assert Lower(Prefixed(a)) == Prefixed(a) && Lower(Prefixed(b)) == Prefixed(b);
    assert Prefixed(a)[2..] == Encode(a) && Prefixed(b)[2..] == Encode(b);
    DecodeRoundTrip(a);
    DecodeRoundTrip(b);
  }

  lemma {:induction false} EncodeIsLower(bytes: seq<byte>)
    ensures forall k :: 0 <= k < |Encode(bytes)| ==> LowerChar(Encode(bytes)[k]) == Encode(bytes)[k]
  {
    if bytes != [] {
      EncodeIsLower(bytes[1..]);
    }
  }
}
