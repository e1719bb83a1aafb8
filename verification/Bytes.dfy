/** Octets, and the fixed-width numbers written in them. */
module Bytes {

  newtype byte = x: int | 0 <= x < 256

  const U16: int := 0x1_0000
  const U32: int := 0x1_0000_0000

  type u16 = x: int | 0 <= x < 0x1_0000
  type u32 = x: int | 0 <= x < 0x1_0000_0000

  /** A 16-bit number, most significant octet first. */
  function Be16(hi: byte, lo: byte): u16 {
    hi as int * 256 + lo as int
  }

  function Be16Bytes(x: u16): (s: seq<byte>)
    ensures |s| == 2 && Be16(s[0], s[1]) == x
  {
    [(x / 256) as byte, (x % 256) as byte]
  }

  /** A 32-bit number, most significant octet first. */
  function Be32(a: byte, b: byte, c: byte, d: byte): u32 {
    Be16(a, b) * U16 + Be16(c, d)
  }

  function Be32Bytes(x: u32): (s: seq<byte>)
    ensures |s| == 4 && Be32(s[0], s[1], s[2], s[3]) == x
  {
    Be16Bytes(x / U16) + Be16Bytes(x % U16)
  }

  /** Addition as the hardware does it. */
  function WrapAdd32(x: u32, y: u32): u32 {
    (x + y) % U32
  }

  function WrapNeg32(x: u32): u32 {
    (U32 - x) % U32
  }

  function WrapAdd16(x: u16, y: nat): u16 {
    (x + y) % U16
  }

  /** Adding an offset and its negation gives back what there was. */
  lemma WrapBack(x: u32, y: u32)
    ensures WrapAdd32(WrapAdd32(x, y), WrapNeg32(y)) == x
  {
  }

  /** Little-endian numbers, as the archive formats write them. */
  function Le16(lo: byte, hi: byte): u16 {
    Be16(hi, lo)
  }

  function Le16Bytes(x: u16): (s: seq<byte>)
    ensures |s| == 2 && Le16(s[0], s[1]) == x
  {
    [(x % 256) as byte, (x / 256) as byte]
  }

  function Le32(a: byte, b: byte, c: byte, d: byte): u32 {
    Le16(a, b) + Le16(c, d) * U16
  }

  function Le32Bytes(x: u32): (s: seq<byte>)
    ensures |s| == 4 && Le32(s[0], s[1], s[2], s[3]) == x
  {
    Le16Bytes(x % U16) + Le16Bytes(x / U16)
  }

  /** A slice of a slice is a slice. */
  lemma SubSlice(s: seq<byte>, lo: nat, hi: nat, i: nat, j: nat)
    requires lo <= hi <= |s| && i <= j <= hi - lo
    ensures s[lo..hi][i..j] == s[lo + i..lo + j]
  {
    var part := s[lo..hi];
    assert forall k | 0 <= k < j - i :: part[i..j][k] == part[i + k] == s[lo + i + k] == s[lo + i..lo + j][k];
  }

  /** s stands in buf at a place. */
  predicate StandsAt(buf: seq<byte>, at: nat, s: seq<byte>) {
    at + |s| <= |buf| && buf[at..at + |s|] == s
  }

  /** What stands in two parts stands part by part. */
  lemma StandsSplit(buf: seq<byte>, at: nat, a: seq<byte>, b: seq<byte>)
    requires StandsAt(buf, at, a + b)
    ensures StandsAt(buf, at, a) && StandsAt(buf, at + |a|, b)
  {
    var s := buf[at..at + |a + b|];
    SubSlice(buf, at, at + |a + b|, 0, |a|);
    SubSlice(buf, at, at + |a + b|, |a|, |a + b|);
    assert s[..|a|] == a && s[|a|..] == b;
  }

  lemma StandsAlone(buf: seq<byte>, at: nat, s: seq<byte>)
    requires StandsAt(buf, at, s) && |s| > 0
    ensures buf[at] == s[0]
  {
    assert buf[at] == buf[at..at + |s|][0];
  }

  /** Reading a little-endian number where it stands. */
  lemma Le32At(buf: seq<byte>, at: nat, x: u32)
    requires StandsAt(buf, at, Le32Bytes(x))
    ensures Le32(buf[at], buf[at + 1], buf[at + 2], buf[at + 3]) == x
  {
    var s := buf[at..at + 4];
    assert buf[at] == s[0] && buf[at + 1] == s[1] && buf[at + 2] == s[2] && buf[at + 3] == s[3];
  }

  lemma Le16At(buf: seq<byte>, at: nat, x: u16)
    requires StandsAt(buf, at, Le16Bytes(x))
    ensures Le16(buf[at], buf[at + 1]) == x
  {
    var s := buf[at..at + 2];
    assert buf[at] == s[0] && buf[at + 1] == s[1];
  }
}
