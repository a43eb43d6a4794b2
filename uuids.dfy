/**
 * `UUID` values and their `uuidString` text: 16 bytes written as 32
 * upper-case hex digits in groups of 8-4-4-4-12 joined by hyphens.
 * `UUID(uuidString:)` accepts that layout with digits of either case.
 */
module Uuids {
  import opened Wrappers
  import Hex

  type Uuid = b: seq<Hex.byte> | |b| == 16 witness [0, 0, 0, 0, 0, 0, 0, 0, 0, 0, 0, 0, 0, 0, 0, 0]

  /** `uuid.uuidString`. */
  function UuidString(u: Uuid): (s: string)
    ensures |s| == 36 && HyphensInPlace(s)
  {
    Hex.Encode(u[..4], true) + "-" + Hex.Encode(u[4..6], true) + "-" + Hex.Encode(u[6..8], true) + "-"
      + Hex.Encode(u[8..10], true) + "-" + Hex.Encode(u[10..], true)
  }

  /** Hyphens at positions 8, 13, 18 and 23 of a 36-character text. */
  predicate HyphensInPlace(s: string)
  {
    |s| == 36 && s[8] == '-' && s[13] == '-' && s[18] == '-' && s[23] == '-'
  }

  /** The 32 digit positions of a UUID text, in order. */
  function DigitsOf(s: string): (d: string)
    requires |s| == 36
    ensures |d| == 32
  {
    s[..8] + s[9..13] + s[14..18] + s[19..23] + s[24..]
  }

  /** `UUID(uuidString: s)`: `None` unless `s` has the 8-4-4-4-12 layout of hex digits. */
  function ParseUuid(s: string): (r: Option<Uuid>)
    ensures r.Some? <==> HyphensInPlace(s) && forall k :: 0 <= k < 32 ==> Hex.IsHexDigit(DigitsOf(s)[k])
  {
    if !HyphensInPlace(s) then None
    else match Hex.Decode(DigitsOf(s))
      case Some(b) => Some(b)
      case None => None
  }

  /** Taking the digits of five groups joined by hyphens gives the groups run together. */
  lemma DigitsOfJoined(ea: string, eb: string, ec: string, ed: string, ee: string)
    requires |ea| == 8 && |eb| == 4 && |ec| == 4 && |ed| == 4 && |ee| == 12
    ensures DigitsOf(ea + "-" + eb + "-" + ec + "-" + ed + "-" + ee) == ea + eb + ec + ed + ee
  {
    var s := ea + "-" + eb + "-" + ec + "-" + ed + "-" + ee;
    assert s[..8] == ea;
    assert s[9..13] == eb;
    assert s[14..18] == ec;
    assert s[19..23] == ed;
    assert s[24..] == ee;
  }

  /** The five groups of a UUID's text are the hex text of the UUID, cut 8-4-4-4-12. */
  lemma GroupsEncodeUuid(u: Uuid)
    ensures Hex.Encode(u[..4], true) + Hex.Encode(u[4..6], true) + Hex.Encode(u[6..8], true)
      + Hex.Encode(u[8..10], true) + Hex.Encode(u[10..], true) == Hex.Encode(u, true)
  {
    var a, b, c, d, e := u[..4], u[4..6], u[6..8], u[8..10], u[10..];
    Hex.EncodeAppend(a, b, true);
    Hex.EncodeAppend(a + b, c, true);
    Hex.EncodeAppend(a + b + c, d, true);
    Hex.EncodeAppend(a + b + c + d, e, true);
    assert a + b + c + d + e == u;
  }

  /** The text of a UUID parses back to that UUID. */
  lemma ParseUuidString(u: Uuid)
    ensures ParseUuid(UuidString(u)) == Some(u)
  {
    DigitsOfJoined(Hex.Encode(u[..4], true), Hex.Encode(u[4..6], true), Hex.Encode(u[6..8], true),
      Hex.Encode(u[8..10], true), Hex.Encode(u[10..], true));
    GroupsEncodeUuid(u);
    Hex.DecodeEncode(u, true);
  }

  /** Two UUIDs with the same text are the same UUID. */
  lemma UuidStringInjective(u: Uuid, v: Uuid)
    requires UuidString(u) == UuidString(v)
    ensures u == v
  {
    ParseUuidString(u);
    ParseUuidString(v);
  }
}
