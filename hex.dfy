/**
 * Hexadecimal text for byte strings: the push-token encoding of
 * `pushRegistry(_:didUpdate:for:)` (each byte through `%02.2hhx`, then joined)
 * and the digits of a UUID string.
 */
module Hex {
  import opened Wrappers

  type byte = bv8

  predicate IsLowerHexDigit(c: char) { '0' <= c <= '9' || 'a' <= c <= 'f' }

  predicate IsUpperHexDigit(c: char) { '0' <= c <= '9' || 'A' <= c <= 'F' }

  predicate IsHexDigit(c: char) { IsLowerHexDigit(c) || IsUpperHexDigit(c) }

  /** The digit for a nibble: `0-9a-f`, or `0-9A-F` when `upper`. */
  function Digit(n: nat, upper: bool): (c: char)
    requires n < 16
  {
    if n < 10 then ('0' as int + n) as char
    else if upper then ('A' as int + n - 10) as char
    else ('a' as int + n - 10) as char
  }

  /** The nibble a digit of either case stands for. */
  function DigitValue(c: char): (r: Option<nat>)
    ensures r.Some? <==> IsHexDigit(c)
    ensures r.Some? ==> r.value < 16
  {
    if '0' <= c <= '9' then Some(c as int - '0' as int)
    else if 'a' <= c <= 'f' then Some(c as int - 'a' as int + 10)
    else if 'A' <= c <= 'F' then Some(c as int - 'A' as int + 10)
    else None
  }

  /** A digit reads back as its nibble and has the requested case. */
  lemma DigitRoundTrip(n: nat, upper: bool)
    requires n < 16
    ensures DigitValue(Digit(n, upper)) == Some(n)
    ensures if upper then IsUpperHexDigit(Digit(n, upper)) else IsLowerHexDigit(Digit(n, upper))
  {
  }

  /** `String(format: "%02.2hhx", b)` (or `%02X`): two digits, high nibble first. */
  function ByteHex(b: byte, upper: bool): string
  {
    [Digit(b as nat / 16, upper), Digit(b as nat % 16, upper)]
  }

  /** `bytes.map { ByteHex($0) }.joined()`. */
  function Encode(bytes: seq<byte>, upper: bool): (s: string)
    ensures |s| == 2 * |bytes|
  {
    if |bytes| == 0 then [] else ByteHex(bytes[0], upper) + Encode(bytes[1..], upper)
  }

  /** Byte `i` becomes characters `2i` and `2i+1`, high nibble first. */
  lemma {:induction false} EncodeAt(bytes: seq<byte>, upper: bool, i: nat)
    requires i < |bytes|
    ensures Encode(bytes, upper)[2 * i] == Digit(bytes[i] as nat / 16, upper)
    ensures Encode(bytes, upper)[2 * i + 1] == Digit(bytes[i] as nat % 16, upper)
  {
    if i > 0 {
      EncodeAt(bytes[1..], upper, i - 1);
    }
  }

  /** Every character of the encoding is a hex digit of the requested case. */
  lemma {:induction false} EncodeDigits(bytes: seq<byte>, upper: bool, k: nat)
    requires k < |Encode(bytes, upper)|
    ensures var c := Encode(bytes, upper)[k]; if upper then IsUpperHexDigit(c) else IsLowerHexDigit(c)
  {
    var i := k / 2;
    EncodeAt(bytes, upper, i);
    DigitRoundTrip(bytes[i] as nat / 16, upper);
    DigitRoundTrip(bytes[i] as nat % 16, upper);
    assert k == 2 * i || k == 2 * i + 1;
  }

  /** Hex text back to bytes: two digits of either case per byte, high nibble first. */
  function Decode(s: string): (r: Option<seq<byte>>)
    ensures r.Some? <==> |s| % 2 == 0 && forall k :: 0 <= k < |s| ==> IsHexDigit(s[k])
    ensures r.Some? ==> 2 * |r.value| == |s|
    decreases |s|
  {
    if |s| == 0 then Some([])
    else if |s| == 1 then None
    else
      var rest := Decode(s[2..]);
      assert forall k :: 2 <= k < |s| ==> s[k] == s[2..][k - 2];
      match (DigitValue(s[0]), DigitValue(s[1]), rest)
      case (Some(hi), Some(lo), Some(tail)) => Some([(hi * 16 + lo) as byte] + tail)
      case _ => None
  }

  /** Encoding distributes over concatenation. */
  lemma {:induction false} EncodeAppend(a: seq<byte>, b: seq<byte>, upper: bool)
    ensures Encode(a + b, upper) == Encode(a, upper) + Encode(b, upper)
  {
    if |a| == 0 {
      assert a + b == b;
    } else {
      assert (a + b)[0] == a[0];
      assert (a + b)[1..] == a[1..] + b;
      EncodeAppend(a[1..], b, upper);
    }
  }

  lemma ByteNibbles(b: byte)
    ensures ((b as nat / 16) * 16 + b as nat % 16) as byte == b
  {
  }

  /** One step of decoding: the first two digits are the nibbles of the first byte. */
  lemma DecodeStep(s: string, b: byte, tail: seq<byte>)
    requires |s| >= 2 && DigitValue(s[0]) == Some(b as nat / 16) && DigitValue(s[1]) == Some(b as nat % 16)
    requires Decode(s[2..]) == Some(tail)
    ensures Decode(s) == Some([b] + tail)
  {
    ByteNibbles(b);
  }

  /** The encoding of a non-empty byte string: two digits, then the encoding of the rest. */
  lemma EncodeCons(bytes: seq<byte>, upper: bool)
    requires |bytes| > 0
    ensures var s := Encode(bytes, upper);
      && s[0] == Digit(bytes[0] as nat / 16, upper) && s[1] == Digit(bytes[0] as nat % 16, upper)
      && s[2..] == Encode(bytes[1..], upper)
  {
    var s := Encode(bytes, upper);
    assert s == ByteHex(bytes[0], upper) + Encode(bytes[1..], upper);
  }

  /** Decoding the encoding gives the bytes back, whichever case was written. */
  lemma {:induction false} DecodeEncode(bytes: seq<byte>, upper: bool)
    ensures Decode(Encode(bytes, upper)) == Some(bytes)
  {
    if |bytes| > 0 {
      var hi, lo := bytes[0] as nat / 16, bytes[0] as nat % 16;
      EncodeCons(bytes, upper);
      DecodeEncode(bytes[1..], upper);
      DigitRoundTrip(hi, upper);
      DigitRoundTrip(lo, upper);
      DecodeStep(Encode(bytes, upper), bytes[0], bytes[1..]);
      assert [bytes[0]] + bytes[1..] == bytes;
    }
  }

  /** Different byte strings never share a hex text. */
  lemma EncodeInjective(a: seq<byte>, b: seq<byte>, upper: bool)
    requires Encode(a, upper) == Encode(b, upper)
    ensures a == b
  {
    DecodeEncode(a, upper);
    DecodeEncode(b, upper);
  }
}
