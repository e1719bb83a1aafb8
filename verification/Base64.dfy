/** The base64 of a proxy's credentials (section 4 of RFC 4648), and its inverse. */
module Base64 {
  import opened Bytes

  const PAD: byte := 61

  /** The alphabet: A-Z, a-z, 0-9, + and /. */
  function Symbol(n: nat): (c: byte)
    requires n < 64
    ensures c != PAD
  {
    if n < 26 then (65 + n) as byte
    else if n < 52 then (97 + n - 26) as byte
    else if n < 62 then (48 + n - 52) as byte
    else if n == 62 then 43 else 47
  }

  function Value(c: byte): (n: nat)
    ensures n < 64
  {
    if 65 <= c <= 90 then c as nat - 65
    else if 97 <= c <= 122 then c as nat - 97 + 26
    else if 48 <= c <= 57 then c as nat - 48 + 52
    else if c == 43 then 62 else 63
  }

  lemma SymbolBack(n: nat)
    requires n < 64
    ensures Value(Symbol(n)) == n
  {
  }

  /** Four sixes of bits as symbols, the ones that carry nothing padded. */
  function Symbols(d0: nat, d1: nat, d2: nat, d3: nat, len: nat): (q: seq<byte>)
    requires d0 < 64 && d1 < 64 && d2 < 64 && d3 < 64
    ensures |q| == 4
  {
    [Symbol(d0), Symbol(d1), if len > 1 then Symbol(d2) else PAD, if len > 2 then Symbol(d3) else PAD]
  }

  /** Up to three octets as four symbols. */
  function Quad(a: byte, b: byte, c: byte, len: nat): (q: seq<byte>)
    requires 1 <= len <= 3
    ensures |q| == 4
  {
    var n := a as nat * 0x1_0000 + b as nat * 0x100 + c as nat;
    Symbols(n / 0x4_0000 % 64, n / 0x1000 % 64, n / 64 % 64, n % 64, len)
  }

  function OctetAt(s: seq<byte>, i: nat): byte {
    if i < |s| then s[i] else 0
  }

  function Encode(s: seq<byte>): seq<byte> {
    if s == [] then []
    else if |s| <= 3 then Quad(s[0], OctetAt(s, 1), OctetAt(s, 2), |s|)
    else Quad(s[0], s[1], s[2], 3) + Encode(s[3..])
  }

  lemma EncodeStep(s: seq<byte>, len: nat)
    requires s != [] && len == if |s| >= 3 then 3 else |s|
    ensures Encode(s) == Quad(s[0], OctetAt(s, 1), OctetAt(s, 2), len) + Encode(s[len..])
  {
    if |s| <= 3 {
      assert s[len..] == [];
    }
  }

  /** Four symbols for every three octets, or for the one or two that are left. */
  lemma {:induction false} EncodedSize(s: seq<byte>)
    ensures |Encode(s)| == (|s| + 2) / 3 * 4
    decreases |s|
  {
    if s != [] {
      var len := if |s| >= 3 then 3 else |s|;
      var q := FirstGroup(s, len);
      EncodedSize(s[len..]);
      assert (|s| + 2) / 3 == (|s[len..]| + 2) / 3 + 1;
    }
  }

  lemma FirstGroup(s: seq<byte>, len: nat) returns (q: seq<byte>)
    requires s != [] && len == if |s| >= 3 then 3 else |s|
    ensures |q| == 4 && Encode(s) == q + Encode(s[len..])
  {
    EncodeStep(s, len);
    q := Quad(s[0], OctetAt(s, 1), OctetAt(s, 2), len);
  }

  method EncodeChunks(input: seq<byte>) returns (out: seq<byte>)
    ensures out == Encode(input)
  {
    out := [];
    var i := 0;
    while i < |input|
      invariant i <= |input| && Encode(input) == out + Encode(input[i..])
    {
      var len := if i + 3 <= |input| then 3 else |input| - i;
      var rest := input[i..];
      EncodeStep(rest, len);
      assert rest[len..] == input[i + len..];
      out := out + Quad(rest[0], OctetAt(rest, 1), OctetAt(rest, 2), len);
      i := i + len;
    }
    assert input[i..] == [];
  }

  // ----- the inverse -----

  function Unquad(q: seq<byte>): seq<byte>
    requires |q| == 4
  {
    var n := NumberOf(q);
    var all := [(n / 0x1_0000) as byte, (n / 0x100 % 0x100) as byte, (n % 0x100) as byte];
    if q[2] == PAD then all[..1] else if q[3] == PAD then all[..2] else all
  }

  /** Four symbols at a time; fewer than four at the end stand for nothing. */
  function Decode(s: seq<byte>): seq<byte> {
    if |s| < 4 then [] else Unquad(s[..4]) + Decode(s[4..])
  }

  lemma Digits(n: nat)
    requires n < 0x100_0000
    ensures n == n / 0x4_0000 % 64 * 0x4_0000 + n / 0x1000 % 64 * 0x1000 + n / 64 % 64 * 64 + n % 64
  {
    var a := n / 64;
    var b := a / 64;
    assert b == n / 0x1000 && b / 64 == n / 0x4_0000;
    assert n == 64 * a + n % 64 && a == 64 * b + a % 64 && b == 64 * (b / 64) + b % 64;
  }

  lemma Octets(a: nat, b: nat, c: nat, n: nat)
    requires a < 0x100 && b < 0x100 && c < 0x100 && n == a * 0x1_0000 + b * 0x100 + c
    ensures n / 0x1_0000 == a && n / 0x100 % 0x100 == b && n % 0x100 == c
  {
  }

  lemma QuadBack(a: byte, b: byte, c: byte, len: nat)
    requires 1 <= len <= 3 && (len < 3 ==> c == 0) && (len < 2 ==> b == 0)
    ensures Unquad(Quad(a, b, c, len)) == [a, b, c][..len]
  {
    var n := a as nat * 0x1_0000 + b as nat * 0x100 + c as nat;
    QuadNumber(a, b, c, len, n);
    Octets(a as nat, b as nat, c as nat, n);
  }

  function NumberOf(q: seq<byte>): nat
    requires |q| == 4
  {
    Value(q[0]) * 0x4_0000 + Value(q[1]) * 0x1000 + (if q[2] == PAD then 0 else Value(q[2]) * 64)
    + if q[3] == PAD then 0 else Value(q[3])
  }

  lemma QuadNumber(a: byte, b: byte, c: byte, len: nat, n: nat)
    requires 1 <= len <= 3 && (len < 3 ==> c == 0) && (len < 2 ==> b == 0)
    requires n == a as nat * 0x1_0000 + b as nat * 0x100 + c as nat
    ensures NumberOf(Quad(a, b, c, len)) == n
  {
    Digits(n);
    LowDigits(a as nat, b as nat, c as nat, n);
    SymbolsBack(n / 0x4_0000 % 64, n / 0x1000 % 64, n / 64 % 64, n % 64, len);
  }

  lemma LowDigits(a: nat, b: nat, c: nat, n: nat)
    requires n == a * 0x1_0000 + b * 0x100 + c
    ensures c == 0 ==> n % 64 == 0
    ensures b == 0 && c == 0 ==> n / 64 % 64 == 0
  {
    if c == 0 {
      assert n == 64 * (a * 1024 + b * 4);
    }
    if b == 0 && c == 0 {
      assert n == 4096 * (16 * a);
    }
  }

  lemma SymbolsBack(d0: nat, d1: nat, d2: nat, d3: nat, len: nat)
    requires d0 < 64 && d1 < 64 && d2 < 64 && d3 < 64 && (len <= 1 ==> d2 == 0) && (len <= 2 ==> d3 == 0)
    ensures NumberOf(Symbols(d0, d1, d2, d3, len)) == d0 * 0x4_0000 + d1 * 0x1000 + d2 * 64 + d3
  {
    SymbolBack(d0);
    SymbolBack(d1);
    SymbolBack(d2);
    SymbolBack(d3);
  }

  lemma DecodeStep(q: seq<byte>, rest: seq<byte>)
    requires |q| == 4
    ensures Decode(q + rest) == Unquad(q) + Decode(rest)
  {
    assert (q + rest)[..4] == q && (q + rest)[4..] == rest;
  }

  /** The first group of a sequence is read back, and then the rest. */
  lemma GroupBack(s: seq<byte>, len: nat)
    requires s != [] && len == if |s| >= 3 then 3 else |s|
    ensures Decode(Encode(s)) == s[..len] + Decode(Encode(s[len..]))
  {
    var b, c := OctetAt(s, 1), OctetAt(s, 2);
    EncodeStep(s, len);
    QuadBack(s[0], b, c, len);
    DecodeStep(Quad(s[0], b, c, len), Encode(s[len..]));
    GroupIs(s, len);
  }

  lemma GroupIs(s: seq<byte>, len: nat)
    requires s != [] && len == if |s| >= 3 then 3 else |s|
    ensures [s[0], OctetAt(s, 1), OctetAt(s, 2)][..len] == s[..len]
  {
  }

  /** Every credential is read back from its encoding. */
  lemma {:induction false} RoundTrip(s: seq<byte>)
    ensures Decode(Encode(s)) == s
    decreases |s|
  {
    if s != [] {
      var len := if |s| >= 3 then 3 else |s|;
      GroupBack(s, len);
      RoundTrip(s[len..]);
      assert s == s[..len] + s[len..];
    }
  }
}
