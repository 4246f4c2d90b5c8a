/** Universally unique identifiers as the `uuid` crate holds them: sixteen bytes,
    written out as the hyphenated lower-case hex form that `Uuid::to_string` gives. */
module Uuids {

  /** An octet. */
  type Byte = b: int | 0 <= b < 256

  /** A UUID is its sixteen bytes, most significant first. */
  type Uuid = s: seq<Byte> | |s| == 16 witness [0, 0, 0, 0, 0, 0, 0, 0, 0, 0, 0, 0, 0, 0, 0, 0]

  /** The nil UUID (all zeros): `Uuid::nil()`, and also what `Default::default()` yields. */
  const Nil: Uuid := [0, 0, 0, 0, 0, 0, 0, 0, 0, 0, 0, 0, 0, 0, 0, 0]

  /** The text of the nil UUID. */
  const NilString: string := "00000000-0000-0000-0000-000000000000"

  /** One lower-case hexadecimal digit. */
  function HexDigit(d: nat): (c: char)
    requires d < 16
    ensures ('0' <= c <= '9') || ('a' <= c <= 'f')
  {
    if d < 10 then ('0' as int + d) as char else ('a' as int + d - 10) as char
  }

  /** The two hex digits of a byte, high nibble first. */
  function HexByte(b: Byte): (s: string)
    ensures |s| == 2
  {
    [HexDigit(b / 16), HexDigit(b % 16)]
  }

  /** The hex digits of a byte string. */
  function Hex(bs: seq<Byte>): (s: string)
    ensures |s| == 2 * |bs|
  {
    if bs == [] then [] else HexByte(bs[0]) + Hex(bs[1..])
  }

  /** `Uuid::to_string`: 8-4-4-4-12 hex digits separated by hyphens. */
  function ToString(u: Uuid): (s: string)
    ensures |s| == 36
    ensures s[8] == '-' && s[13] == '-' && s[18] == '-' && s[23] == '-'
  {
    Hex(u[..4]) + "-" + Hex(u[4..6]) + "-" + Hex(u[6..8]) + "-" + Hex(u[8..10]) + "-" + Hex(u[10..])
  }

  lemma HexByteInjective(a: Byte, b: Byte)
    requires HexByte(a) == HexByte(b)
    ensures a == b
  {
    assert HexDigit(a / 16) == HexByte(a)[0] == HexByte(b)[0] == HexDigit(b / 16);
    assert HexDigit(a % 16) == HexByte(a)[1] == HexByte(b)[1] == HexDigit(b % 16);
  }

  /** Hex encoding loses nothing: equal digit strings come from equal byte strings. */
  lemma {:induction false} HexInjective(a: seq<Byte>, b: seq<Byte>)
    requires |a| == |b| && Hex(a) == Hex(b)
    ensures a == b
  {
    if a != [] {
      assert Hex(a) == HexByte(a[0]) + Hex(a[1..]);
      assert Hex(b) == HexByte(b[0]) + Hex(b[1..]);
      assert HexByte(a[0]) == Hex(a)[..2] == Hex(b)[..2] == HexByte(b[0]);
      assert Hex(a[1..]) == Hex(a)[2..] == Hex(b)[2..] == Hex(b[1..]);
      HexByteInjective(a[0], b[0]);
      HexInjective(a[1..], b[1..]);
      assert a == [a[0]] + a[1..];
      assert b == [b[0]] + b[1..];
    }
  }

  /** The five hex groups of the text form are the hex digits of the five byte groups. */
  lemma ToStringGroups(u: Uuid)
    ensures ToString(u)[..8] == Hex(u[..4])
    ensures ToString(u)[9..13] == Hex(u[4..6])
    ensures ToString(u)[14..18] == Hex(u[6..8])
    ensures ToString(u)[19..23] == Hex(u[8..10])
    ensures ToString(u)[24..] == Hex(u[10..])
  {
  }

  /** Distinct UUIDs have distinct text forms, so the text can stand for the UUID
      (in registry keys and image URLs). */
  lemma ToStringInjective(u: Uuid, v: Uuid)
    requires ToString(u) == ToString(v)
    ensures u == v
  {
    ToStringGroups(u);
    ToStringGroups(v);
    HexInjective(u[..4], v[..4]);
    HexInjective(u[4..6], v[4..6]);
    HexInjective(u[6..8], v[6..8]);
    HexInjective(u[8..10], v[8..10]);
    HexInjective(u[10..], v[10..]);
    assert u == u[..4] + u[4..6] + u[6..8] + u[8..10] + u[10..];
    assert v == v[..4] + v[4..6] + v[6..8] + v[8..10] + v[10..];
  }

  /** The hex digits of zero bytes are all '0'. */
  lemma {:induction false} HexOfZeros(bs: seq<Byte>)
    requires forall k | 0 <= k < |bs| :: bs[k] == 0
    ensures forall k | 0 <= k < |Hex(bs)| :: Hex(bs)[k] == '0'
  {
    if bs != [] {
      HexOfZeros(bs[1..]);
      assert Hex(bs) == "00" + Hex(bs[1..]);
    }
  }

  /** The nil UUID prints as thirty-two zeros in the usual grouping. */
  lemma NilToString()
    ensures ToString(Nil) == NilString
  {
    ToStringGroups(Nil);
    HexOfZeros(Nil[..4]);
    HexOfZeros(Nil[4..6]);
    HexOfZeros(Nil[6..8]);
    HexOfZeros(Nil[8..10]);
    HexOfZeros(Nil[10..]);
    var s := ToString(Nil);
    forall k | 0 <= k < 36
      ensures s[k] == NilString[k]
    {
      if k < 8 {
        assert s[k] == s[..8][k];
      } else if 8 < k < 13 {
        assert s[k] == s[9..13][k - 9];
      } else if 13 < k < 18 {
        assert s[k] == s[14..18][k - 14];
      } else if 18 < k < 23 {
        assert s[k] == s[19..23][k - 19];
      } else if 23 < k {
        assert s[k] == s[24..][k - 24];
      }
    }
  }


}
