/**
 * The part of github.com/google/uuid the core relies on: a UUID is 16 bytes,
 * `uuid.Nil` is all zeros, and `String()` renders the canonical lower-case
 * 8-4-4-4-12 hexadecimal form. The Redis backend builds its keys from that
 * form, so the one property that matters is that it is injective.
 */
module Uuid {

  type Byte = b: int | 0 <= b < 256

  type UUID = s: seq<Byte> | |s| == 16 witness [0, 0, 0, 0, 0, 0, 0, 0, 0, 0, 0, 0, 0, 0, 0, 0]

  /** `uuid.Nil`, returned by the backends when an operation fails. */
  const Nil: UUID := [0, 0, 0, 0, 0, 0, 0, 0, 0, 0, 0, 0, 0, 0, 0, 0]

  /** One lower-case hexadecimal digit. */
  function HexDigit(n: int): (c: char)
    requires 0 <= n < 16
    ensures ('0' <= c <= '9') || ('a' <= c <= 'f')
  {
    if n < 10 then (48 + n) as char else (87 + n) as char
  }

  /** Two hexadecimal digits per byte, high nibble first. */
  function Hex(bytes: seq<Byte>): (s: string)
    ensures |s| == 2 * |bytes|
  {
    if bytes == [] then [] else [HexDigit(bytes[0] / 16), HexDigit(bytes[0] % 16)] + Hex(bytes[1..])
  }

  /** `UUID.String()`: xxxxxxxx-xxxx-xxxx-xxxx-xxxxxxxxxxxx. */
  function ToString(id: UUID): (s: string)
    ensures |s| == 36
    ensures s[8] == '-' && s[13] == '-' && s[18] == '-' && s[23] == '-'
  {
    Hex(id[..4]) + "-" + Hex(id[4..6]) + "-" + Hex(id[6..8]) + "-" + Hex(id[8..10]) + "-" + Hex(id[10..])
  }

  lemma HexDigitInjective(m: int, n: int)
    requires 0 <= m < 16 && 0 <= n < 16 && HexDigit(m) == HexDigit(n)
    ensures m == n
  {
  }

  lemma {:induction false} HexInjective(a: seq<Byte>, b: seq<Byte>)
    requires |a| == |b| && Hex(a) == Hex(b)
    ensures a == b
  {
    if a != [] {
      assert Hex(a)[0] == Hex(b)[0] && Hex(a)[1] == Hex(b)[1];
      HexDigitInjective(a[0] / 16, b[0] / 16);
      HexDigitInjective(a[0] % 16, b[0] % 16);
      assert a[0] == 16 * (a[0] / 16) + a[0] % 16;
      assert b[0] == 16 * (b[0] / 16) + b[0] % 16;
      assert Hex(a)[2..] == Hex(a[1..]);
      assert Hex(b)[2..] == Hex(b[1..]);
      HexInjective(a[1..], b[1..]);
      assert a == [a[0]] + a[1..];
      assert b == [b[0]] + b[1..];
    }
  }

  /** Distinct UUIDs have distinct string forms. */
  lemma ToStringInjective(a: UUID, b: UUID)
    requires ToString(a) == ToString(b)
    ensures a == b
  {
    var s, t := ToString(a), ToString(b);
    assert s[..8] == Hex(a[..4]) && t[..8] == Hex(b[..4]);
    assert s[9..13] == Hex(a[4..6]) && t[9..13] == Hex(b[4..6]);
    assert s[14..18] == Hex(a[6..8]) && t[14..18] == Hex(b[6..8]);
    assert s[19..23] == Hex(a[8..10]) && t[19..23] == Hex(b[8..10]);
    assert s[24..] == Hex(a[10..]) && t[24..] == Hex(b[10..]);
    HexInjective(a[..4], b[..4]);
    HexInjective(a[4..6], b[4..6]);
    HexInjective(a[6..8], b[6..8]);
    HexInjective(a[8..10], b[8..10]);
    HexInjective(a[10..], b[10..]);
    assert a == a[..4] + a[4..6] + a[6..8] + a[8..10] + a[10..];
    assert b == b[..4] + b[4..6] + b[6..8] + b[8..10] + b[10..];
  }
}
