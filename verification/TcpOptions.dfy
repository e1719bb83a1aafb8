/** The TCP option list of a segment (section 3.1 of RFC 9293): the scanner that lists it, and the
    second scanner that finds the timestamp option (section 3.2 of RFC 7323) in place. */
module TcpOptions {
  import opened Wrappers
  import opened Bytes

  /** An option with a length octet: its kind and what follows the length. */
  datatype Opt = Opt(kind: byte, body: seq<byte>)

  /** A segment long enough to have a header. */
  predicate IsSegment(tcp: seq<byte>) {
    |tcp| >= 20
  }

  /** Where the data-offset nibble says the header ends, kept inside the segment. */
  function DataEnd(tcp: seq<byte>): (end: nat)
    requires IsSegment(tcp)
    ensures 20 <= end <= |tcp|
  {
    var off := (tcp[12] / 16) as nat * 4;
    if off < 20 then 20 else if off > |tcp| then |tcp| else off
  }

  /** What starts at i: nothing readable, a NOP, or an option of a whole length. */
  datatype Token = Stop | Nop | Item(len: nat)

  function TokenAt(tcp: seq<byte>, i: nat, end: nat): (t: Token)
    requires i < end <= |tcp|
    ensures t.Item? ==> 2 <= t.len && i + t.len <= end
  {
    if tcp[i] == 0 then Stop
    else if tcp[i] == 1 then Nop
    else if i + 1 >= |tcp| || tcp[i + 1] < 2 || i + tcp[i + 1] as nat > end then Stop
    else Item(tcp[i + 1] as nat)
  }

  function OptAt(tcp: seq<byte>, i: nat, len: nat): Opt
    requires 2 <= len && i + len <= |tcp|
  {
    Opt(tcp[i], tcp[i + 2..i + len])
  }

  function Scan(tcp: seq<byte>, i: nat, end: nat): seq<Opt>
    requires end <= |tcp|
    decreases end - i
  {
    if i >= end then []
    else match TokenAt(tcp, i, end)
      case Stop => []
      case Nop => Scan(tcp, i + 1, end)
      case Item(len) => [OptAt(tcp, i, len)] + Scan(tcp, i + len, end)
  }

  /** The list scanned from the end of the fixed header to the end of the options. */
  function Options(tcp: seq<byte>): seq<Opt>
    requires IsSegment(tcp)
  {
    Scan(tcp, 20, DataEnd(tcp))
  }

  method ListOptions(tcp: seq<byte>) returns (opts: seq<Opt>)
    requires IsSegment(tcp)
    ensures opts == Options(tcp)
  {
    var off := (tcp[12] / 16) as nat * 4;
    opts := ListUpTo(tcp, if off < 20 then 20 else if off > |tcp| then |tcp| else off);
  }

  method ListUpTo(tcp: seq<byte>, end: nat) returns (opts: seq<Opt>)
    requires end <= |tcp|
    ensures opts == Scan(tcp, 20, end)
  {
    opts := [];
    var i := 20;
    ghost var rest := Scan(tcp, 20, end);
    while i < end
      invariant rest == Scan(tcp, i, end)
      invariant Scan(tcp, 20, end) == opts + rest
      decreases end - i
    {
      if tcp[i] == 0 {
        break;
      } else if tcp[i] == 1 {
        i := i + 1;
      } else {
        if i + 1 >= |tcp| {
          break;
        }
        var len := tcp[i + 1] as nat;
        if len < 2 || i + len > end {
          break;
        }
        assert rest == [OptAt(tcp, i, len)] + Scan(tcp, i + len, end);
        rest := rest[1..];
        opts := opts + [Opt(tcp[i], tcp[i + 2..i + len])];
        i := i + len;
      }
    }
  }

  /** The body of the first option of a kind. */
  function First(opts: seq<Opt>, kind: byte): Option<seq<byte>> {
    if opts == [] then None
    else if opts[0].kind == kind then Some(opts[0].body)
    else First(opts[1..], kind)
  }

  // ----- the timestamp option -----

  predicate IsTimestamp(o: Opt) {
    o.kind == 8 && |o.body| == 8
  }

  function FirstTimestamp(opts: seq<Opt>): Option<seq<byte>> {
    if opts == [] then None
    else if IsTimestamp(opts[0]) then Some(opts[0].body)
    else FirstTimestamp(opts[1..])
  }

  /** The list with the body of its first timestamp option replaced. */
  function WithTimestamp(opts: seq<Opt>, body: seq<byte>): seq<Opt> {
    if opts == [] then []
    else if IsTimestamp(opts[0]) then [Opt(8, body)] + opts[1..]
    else [opts[0]] + WithTimestamp(opts[1..], body)
  }

  /** Where the second scanner finds a timestamp option, if it does. */
  function FindTimestamp(tcp: seq<byte>, i: nat, end: nat): (p: Option<nat>)
    requires end <= |tcp|
    ensures p.Some? ==> i <= p.value && p.value + 10 <= end
    decreases end - i
  {
    if i >= end then None
    else match TokenAt(tcp, i, end)
      case Stop => None
      case Nop => FindTimestamp(tcp, i + 1, end)
      case Item(len) => if tcp[i] == 8 && len == 10 then Some(i) else FindTimestamp(tcp, i + len, end)
  }

  function TimestampAt(tcp: seq<byte>): Option<nat>
    requires IsSegment(tcp)
  {
    FindTimestamp(tcp, 20, DataEnd(tcp))
  }

  lemma ConsTimestamp(o: Opt, rest: seq<Opt>, body: seq<byte>)
    ensures FirstTimestamp([o] + rest) == if IsTimestamp(o) then Some(o.body) else FirstTimestamp(rest)
    ensures WithTimestamp([o] + rest, body)
         == if IsTimestamp(o) then [Opt(8, body)] + rest else [o] + WithTimestamp(rest, body)
  {
    assert ([o] + rest)[1..] == rest;
  }

  /** What is found at p, read as an option body. */
  function BodyAt(tcp: seq<byte>, p: Option<nat>): Option<seq<byte>>
    requires p.Some? ==> p.value + 10 <= |tcp|
  {
    if p.None? then None else Some(tcp[p.value + 2..p.value + 10])
  }

  /** The two scanners agree: there is a place exactly when the list has a timestamp, and the body
      of the first one is what stands there. */
  lemma {:induction false} ScannersAgree(tcp: seq<byte>, i: nat, end: nat)
    requires end <= |tcp|
    ensures FirstTimestamp(Scan(tcp, i, end)) == BodyAt(tcp, FindTimestamp(tcp, i, end))
    decreases end - i
  {
    if i < end {
      match TokenAt(tcp, i, end) {
        case Stop =>
        case Nop => ScannersAgree(tcp, i + 1, end);
        case Item(len) =>
          ScannersAgree(tcp, i + len, end);
          ConsTimestamp(OptAt(tcp, i, len), Scan(tcp, i + len, end), []);
      }
    }
  }

  /** Rewriting the body of the timestamp option moves nothing: both scanners find the same
      options, that body apart. */
  lemma {:induction false} RewriteKeepsOptions(a: seq<byte>, b: seq<byte>, i: nat, end: nat, p: nat)
    requires |a| == |b| && end <= |a|
    requires FindTimestamp(a, i, end) == Some(p)
    requires forall k | 0 <= k < |a| && !(p + 2 <= k < p + 10) :: a[k] == b[k]
    ensures FindTimestamp(b, i, end) == Some(p)
    ensures Scan(b, i, end) == WithTimestamp(Scan(a, i, end), b[p + 2..p + 10])
    decreases end - i
  {
    assert TokenAt(a, i, end) == TokenAt(b, i, end);
    match TokenAt(a, i, end) {
      case Nop => RewriteKeepsOptions(a, b, i + 1, end, p);
      case Item(len) =>
        if i == p {
          SameSuffixSameScan(a, b, i + len, end);
          RewriteHere(a, b, i, end, len);
        } else {
          RewriteKeepsOptions(a, b, i + len, end, p);
          RewriteLater(a, b, i, end, p, len);
        }
    }
  }

  /** The option rewritten is the one that stands here. */
  lemma RewriteHere(a: seq<byte>, b: seq<byte>, i: nat, end: nat, len: nat)
    requires |a| == |b| && i < end <= |a| && TokenAt(a, i, end) == TokenAt(b, i, end) == Item(len)
    requires FindTimestamp(a, i, end) == Some(i) && a[i] == b[i]
    requires Scan(b, i + len, end) == Scan(a, i + len, end)
    ensures i + 10 <= |b| && FindTimestamp(b, i, end) == Some(i)
    ensures Scan(b, i, end) == WithTimestamp(Scan(a, i, end), b[i + 2..i + 10])
  {
    ConsTimestamp(OptAt(a, i, len), Scan(a, i + len, end), b[i + 2..i + 10]);
  }

  /** It stands further on. */
  lemma RewriteLater(a: seq<byte>, b: seq<byte>, i: nat, end: nat, p: nat, len: nat)
    requires |a| == |b| && i < end <= |a| && TokenAt(a, i, end) == TokenAt(b, i, end) == Item(len)
    requires FindTimestamp(a, i, end) == Some(p) && i != p && p + 10 <= |b|
    requires forall k | i <= k < i + len :: a[k] == b[k]
    requires FindTimestamp(b, i + len, end) == Some(p)
    requires Scan(b, i + len, end) == WithTimestamp(Scan(a, i + len, end), b[p + 2..p + 10])
    ensures FindTimestamp(b, i, end) == Some(p)
    ensures Scan(b, i, end) == WithTimestamp(Scan(a, i, end), b[p + 2..p + 10])
  {
    assert a[i + 2..i + len] == b[i + 2..i + len];
    ConsTimestamp(OptAt(a, i, len), Scan(a, i + len, end), b[p + 2..p + 10]);
  }

  lemma {:induction false} SameSuffixSameScan(a: seq<byte>, b: seq<byte>, i: nat, end: nat)
    requires |a| == |b| && end <= |a|
    requires forall k | i <= k < |a| :: a[k] == b[k]
    ensures Scan(a, i, end) == Scan(b, i, end)
    decreases end - i
  {
    if i < end {
      assert TokenAt(a, i, end) == TokenAt(b, i, end);
      match TokenAt(a, i, end) {
        case Stop =>
        case Nop => SameSuffixSameScan(a, b, i + 1, end);
        case Item(len) =>
          assert a[i + 2..i + len] == b[i + 2..i + len];
          SameSuffixSameScan(a, b, i + len, end);
      }
    }
  }

  // ----- shifting it -----

  function TsVal(body: seq<byte>): u32
    requires |body| == 8
  {
    Be32(body[0], body[1], body[2], body[3])
  }

  function TsEcr(body: seq<byte>): u32
    requires |body| == 8
  {
    Be32(body[4], body[5], body[6], body[7])
  }

  /** An echo of zero is no echo, and is not moved. */
  function ShiftedEcr(ecr: u32, shift: u32): u32 {
    if ecr == 0 then 0 else WrapAdd32(ecr, shift)
  }

  function ShiftBody(body: seq<byte>, toVal: u32, toEcr: u32): (r: seq<byte>)
    requires |body| == 8
    ensures |r| == 8
  {
    Be32Bytes(WrapAdd32(TsVal(body), toVal)) + Be32Bytes(ShiftedEcr(TsEcr(body), toEcr))
  }

  /** A segment with its timestamp shifted, if it has one. */
  function Shift(tcp: seq<byte>, toVal: u32, toEcr: u32): (r: seq<byte>)
    requires IsSegment(tcp)
    ensures |r| == |tcp|
  {
    match TimestampAt(tcp)
    case None => tcp
    case Some(p) => tcp[..p + 2] + ShiftBody(tcp[p + 2..p + 10], toVal, toEcr) + tcp[p + 10..]
  }

  /** The shifted numbers are the ones written. */
  lemma ShiftBodyReads(body: seq<byte>, toVal: u32, toEcr: u32)
    requires |body| == 8
    ensures TsVal(ShiftBody(body, toVal, toEcr)) == WrapAdd32(TsVal(body), toVal)
    ensures TsEcr(ShiftBody(body, toVal, toEcr)) == ShiftedEcr(TsEcr(body), toEcr)
  {
    var v := Be32Bytes(WrapAdd32(TsVal(body), toVal));
    var e := Be32Bytes(ShiftedEcr(TsEcr(body), toEcr));
    assert (v + e)[0] == v[0] && (v + e)[1] == v[1] && (v + e)[2] == v[2] && (v + e)[3] == v[3];
    assert (v + e)[4] == e[0] && (v + e)[5] == e[1] && (v + e)[6] == e[2] && (v + e)[7] == e[3];
  }

  /** The timestamp a segment carries: the value of its first timestamp option, and the echo. */
  function Timestamp(tcp: seq<byte>): Option<(u32, u32)>
    requires IsSegment(tcp)
  {
    match FirstTimestamp(Options(tcp))
    case None => None
    case Some(body) => if |body| == 8 then Some((TsVal(body), TsEcr(body))) else None
  }

  /** shift_timestamp, on every segment with a header: it finds a timestamp exactly when the option
      list has one, adds to its two numbers, and changes only the eight octets they stand in. */
  lemma ShiftMeans(tcp: seq<byte>, toVal: u32, toEcr: u32)
    requires IsSegment(tcp)
    ensures var r := Shift(tcp, toVal, toEcr);
            && (TimestampAt(tcp).Some? <==> exists o <- Options(tcp) :: IsTimestamp(o))
            && (TimestampAt(tcp).None? ==> r == tcp && Timestamp(tcp).None?)
            && (TimestampAt(tcp).Some? ==>
                  var p := TimestampAt(tcp).value;
                  && (forall k | 0 <= k < |tcp| && !(p + 2 <= k < p + 10) :: r[k] == tcp[k])
                  && Options(r) == WithTimestamp(Options(tcp), r[p + 2..p + 10])
                  && TimestampAt(r) == Some(p)
                  && Timestamp(tcp).Some?
                  && Timestamp(r) == Some((WrapAdd32(Timestamp(tcp).value.0, toVal),
                      ShiftedEcr(Timestamp(tcp).value.1, toEcr))))
  {
    var end := DataEnd(tcp);
    ScannersAgree(tcp, 20, end);
    HasTimestamp(Options(tcp));
    var r := Shift(tcp, toVal, toEcr);
    match TimestampAt(tcp) {
      case None =>
      case Some(p) =>
        var body := tcp[p + 2..p + 10];
        assert r[p + 2..p + 10] == ShiftBody(body, toVal, toEcr);
        assert r[12] == tcp[12];
        RewriteKeepsOptions(tcp, r, 20, end, p);
        ScannersAgree(r, 20, end);
        ShiftBodyReads(body, toVal, toEcr);
    }
  }

  lemma {:induction false} HasTimestamp(opts: seq<Opt>)
    ensures FirstTimestamp(opts).Some? <==> exists o <- opts :: IsTimestamp(o)
    ensures FirstTimestamp(opts).Some? ==> |FirstTimestamp(opts).value| == 8
  {
    if opts != [] {
      HasTimestamp(opts[1..]);
      assert opts == [opts[0]] + opts[1..];
    }
  }

  /** Putting octets in the middle of a part of a buffer, seen from the buffer and from the part. */
  lemma Splice(was: seq<byte>, now: seq<byte>, lo: nat, hi: nat, part: seq<byte>, p: nat, s: seq<byte>, put: seq<byte>)
    requires lo <= hi <= |was| == |now| && lo + p + |s| <= hi && part == was[lo..hi]
    requires put == part[..p] + s + part[p + |s|..]
    requires now[lo + p..lo + p + |s|] == s
    requires forall k | 0 <= k < |was| && !(lo + p <= k < lo + p + |s|) :: now[k] == was[k]
    ensures now == was[..lo] + put + was[hi..]
  {
    assert |put| == hi - lo;
    forall k | lo <= k < hi ensures put[k - lo] == now[k] {
      if lo + p <= k < lo + p + |s| {
        assert s[k - lo - p] == now[lo + p..lo + p + |s|][k - lo - p];
      }
    }
  }

  /** The second scanner: where in the segment buf[lo..hi] its timestamp option is. */
  method Locate(buf: array<byte>, lo: nat, hi: nat) returns (p: Option<nat>)
    requires lo + 20 <= hi <= buf.Length
    ensures p == TimestampAt(buf[lo..hi])
  {
    ghost var tcp := buf[lo..hi];
    var off := (buf[lo + 12] / 16) as nat * 4;
    var end := if off < 20 then 20 else if off > hi - lo then hi - lo else off;
    assert end == DataEnd(tcp);
    var i := 20;
    while i < end
      invariant 20 <= i <= end
      invariant FindTimestamp(tcp, i, end) == TimestampAt(tcp)
      decreases end - i
    {
      assert tcp[i] == buf[lo + i];
      if buf[lo + i] == 0 {
        return None;
      } else if buf[lo + i] == 1 {
        i := i + 1;
      } else {
        if i + 1 >= hi - lo {
          return None;
        }
        assert tcp[i + 1] == buf[lo + i + 1];
        var len := buf[lo + i + 1] as nat;
        if len < 2 || i + len > end {
          return None;
        }
        if buf[lo + i] == 8 && len == 10 {
          return Some(i);
        }
        i := i + len;
      }
    }
    return None;
  }

  lemma ShiftIs(tcp: seq<byte>, p: nat, body: seq<byte>, toVal: u32, toEcr: u32)
    requires IsSegment(tcp) && TimestampAt(tcp) == Some(p) && body == tcp[p + 2..p + 10]
    ensures Shift(tcp, toVal, toEcr) == tcp[..p + 2] + ShiftBody(body, toVal, toEcr) + tcp[p + 2 + 8..]
  {
  }

  /** Shifts the timestamp of the segment in buf[lo..hi], in place, if it has one. */
  method ShiftTimestamp(buf: array<byte>, lo: nat, hi: nat, toVal: u32, toEcr: u32) returns (found: bool)
    requires lo + 20 <= hi <= buf.Length
    modifies buf
    ensures buf[..] == old(buf[..lo]) + Shift(old(buf[lo..hi]), toVal, toEcr) + old(buf[hi..])
    ensures found <==> TimestampAt(old(buf[lo..hi])).Some?
  {
    var p := Locate(buf, lo, hi);
    found := p.Some?;
    if found {
      ghost var tcp := buf[lo..hi];
      ghost var body := tcp[p.value + 2..p.value + 10];
      SubSlice(buf[..], lo, hi, p.value + 2, p.value + 10);
      assert buf[..][lo..hi] == tcp;
      ShiftIs(tcp, p.value, body, toVal, toEcr);
      RewriteBody(buf, lo, hi, p.value + 2, body, toVal, toEcr);
    }
  }

  method RewriteBody(buf: array<byte>, lo: nat, hi: nat, at: nat, ghost body: seq<byte>, toVal: u32, toEcr: u32)
    requires lo + at + 8 <= hi <= buf.Length && body == buf[lo + at..lo + at + 8]
    modifies buf
    ensures buf[..] == old(buf[..lo])
            + (old(buf[lo..hi])[..at] + ShiftBody(body, toVal, toEcr) + old(buf[lo..hi])[at + 8..])
                       + old(buf[hi..])
  {
    ghost var was := buf[..];
    ghost var tcp := buf[lo..hi];
    ghost var s := ShiftBody(body, toVal, toEcr);
    ghost var put := tcp[..at] + s + tcp[at + 8..];
    assert tcp == was[lo..hi] && was[..lo] == buf[..lo] && was[hi..] == buf[hi..];
    WriteShifted(buf, lo + at, toVal, toEcr);
    Splice(was, buf[..], lo, hi, tcp, at, s, put);
  }

  method WriteShifted(buf: array<byte>, o: nat, toVal: u32, toEcr: u32)
    requires o + 8 <= buf.Length
    modifies buf
    ensures buf[o..o + 8] == ShiftBody(old(buf[o..o + 8]), toVal, toEcr)
    ensures forall k | 0 <= k < buf.Length && !(o <= k < o + 8) :: buf[k] == old(buf[k])
  {
    var val := WrapAdd32(Be32(buf[o], buf[o + 1], buf[o + 2], buf[o + 3]), toVal);
    var ecr := Be32(buf[o + 4], buf[o + 5], buf[o + 6], buf[o + 7]);
    if ecr != 0 {
      ecr := WrapAdd32(ecr, toEcr);
    }
    CopyIn(buf, o, Be32Bytes(val) + Be32Bytes(ecr));
  }

  method CopyIn(buf: array<byte>, at: nat, s: seq<byte>)
    requires at + |s| <= buf.Length
    modifies buf
    ensures buf[at..at + |s|] == s
    ensures forall k | 0 <= k < buf.Length && !(at <= k < at + |s|) :: buf[k] == old(buf[k])
  {
    forall k | 0 <= k < |s| {
      buf[at + k] := s[k];
    }
  }

  // ----- aligning a lone timestamp -----

  /** A header of 32 octets whose options are one timestamp and two octets of end-of-list. */
  predicate LoneTimestamp(tcp: seq<byte>)
    requires IsSegment(tcp)
  {
    tcp[12] / 16 == 8 && |tcp| >= 32 && tcp[20] == 8 && tcp[21] == 10 && tcp[30] == 0 && tcp[31] == 0
  }

  function NopAligned(tcp: seq<byte>): (r: seq<byte>)
    requires IsSegment(tcp)
    ensures |r| == |tcp|
  {
    if LoneTimestamp(tcp) then tcp[..20] + [1, 1] + tcp[20..30] + tcp[32..] else tcp
  }

  /** Alignment changes neither the size nor the options of any segment. */
  lemma NopAlignedKeeps(tcp: seq<byte>)
    requires IsSegment(tcp)
    ensures Options(NopAligned(tcp)) == Options(tcp)
    ensures forall k | 0 <= k < |tcp| && !(20 <= k < 32) :: NopAligned(tcp)[k] == tcp[k]
  {
    if LoneTimestamp(tcp) {
      var r := NopAligned(tcp);
      assert r[12] == tcp[12] && DataEnd(tcp) == 32 && DataEnd(r) == 32;
      assert r[24..32] == tcp[22..30];
      assert Scan(tcp, 30, 32) == [] && Scan(r, 32, 32) == [];
      assert Scan(tcp, 20, 32) == [Opt(8, tcp[22..30])] + Scan(tcp, 30, 32);
      assert r[20] == 1 && r[21] == 1 && r[22] == 8 && r[23] == 10;
      assert Scan(r, 22, 32) == [Opt(8, r[24..32])] + Scan(r, 32, 32);
      assert Scan(r, 20, 32) == Scan(r, 21, 32) == Scan(r, 22, 32);
    }
  }

  lemma NopAlignedIs(tcp: seq<byte>)
    requires IsSegment(tcp) && LoneTimestamp(tcp)
    ensures NopAligned(tcp) == tcp[..20] + ([1, 1] + tcp[20..30]) + tcp[32..]
  {
  }

  /** Puts the two NOPs every real system has in front of a lone timestamp, in place. */
  method NopAlign(buf: array<byte>, lo: nat)
    requires lo + 20 <= buf.Length
    modifies buf
    ensures buf[..] == old(buf[..lo]) + NopAligned(old(buf[lo..]))
  {
    ghost var was := buf[..];
    ghost var tcp := was[lo..];
    assert was == was[..lo] + tcp;
    if buf[lo + 12] / 16 == 8 && buf.Length - lo >= 32 && buf[lo + 20] == 8 && buf[lo + 21] == 10
       && buf[lo + 30] == 0 && buf[lo + 31] == 0
    {
      NopAlignedIs(tcp);
      assert tcp[20..30] == buf[lo + 20..lo + 30];
      WriteAligned(buf, lo + 20);
      Splice(was, buf[..], lo, |was|, tcp, 20, [1, 1] + tcp[20..30], NopAligned(tcp));
    }
  }

  method WriteAligned(buf: array<byte>, o: nat)
    requires o + 12 <= buf.Length
    modifies buf
    ensures buf[o..o + 12] == [1, 1] + old(buf[o..o + 10])
    ensures forall k | 0 <= k < buf.Length && !(o <= k < o + 12) :: buf[k] == old(buf[k])
  {
    ghost var s := buf[o..o + 10];
    CopyWithin(buf, o, 10, 2);
    buf[o], buf[o + 1] := 1, 1;
    assert buf[o + 2..o + 12] == s;
    assert buf[o..o + 12] == [1, 1] + buf[o + 2..o + 12];
  }

  /** Moves n octets from at a few places up. */
  method CopyWithin(buf: array<byte>, at: nat, n: nat, up: nat)
    requires at + n + up <= buf.Length
    modifies buf
    ensures buf[at + up..at + up + n] == old(buf[at..at + n])
    ensures forall k | 0 <= k < buf.Length && !(at + up <= k < at + up + n) :: buf[k] == old(buf[k])
  {
    var s := buf[at..at + n];
    CopyIn(buf, at + up, s);
  }
}
