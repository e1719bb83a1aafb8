/** The shaper as an object: packets are arrays it changes, flows and counters fields it keeps. */
module PacketShaper {
  import opened Bytes
  import opened TcpOptions
  import opened SynRebuild
  import opened ShaperSpec

  class Shaper {
    var expected: map<u16, Os>
    var flows: map<u16, Flow>
    var globalId: u16
    const sums: Sums

    ghost function State(): ShaperSpec.State
      reads this
    {
      ShaperSpec.State(expected, flows, globalId)
    }

    constructor (start: u16, sums: Sums)
      ensures State() == ShaperSpec.State(map[], map[], start) && this.sums == sums
    {
      expected, flows, globalId := map[], map[], start;
      this.sums := sums;
    }

    /** Notes which system the next SYN from a port begins a flow of. */
    method Expect(port: u16, os: Os)
      modifies this
      ensures State() == Next(old(State()), ShaperSpec.Expect(port, os))
    {
      expected := expected[port := os];
    }

    /** Shapes an outgoing packet. The array returned is another one if the packet is cut or grows. */
    method Outbound(packet: array<byte>, d: Draws) returns (out: array<byte>)
      requires WholeHeader(packet[..])
      modifies this
      ensures out[..] == OutPacket(old(State()), packet[..], d, sums)
      ensures State() == Next(old(State()), Out(packet[..], d))
      ensures out == packet || fresh(out)
    {
      ghost var p := packet[..];
      if packet.Length < 20 {
        return packet;
      }
      var headerLen := (packet[0] % 16) as nat * 4;
      var total: nat := Be16(packet[2], packet[3]);
      if packet.Length < headerLen || headerLen > total || packet.Length < total {
        return packet;
      }
      assert Parses(p) && headerLen == HeaderLen(p) && total == TotalLen(p);
      if packet[9] != 6 || total < headerLen + 20 {
        out := StampedCopy(packet[..headerLen], packet[headerLen..total], d.ident);
      } else {
        out := OutboundSegment(packet[..], packet[..headerLen], packet[headerLen..total], d);
      }
    }

    method StampedCopy(head: seq<byte>, rest: seq<byte>, ident: u16) returns (out: array<byte>)
      requires |head| >= 20
      ensures fresh(out) && out[..] == Stamped(head, LINUX.ttl, ident, sums) + rest
    {
      out := Copied(head + rest);
      Stamp(out, |head|, head, rest, LINUX.ttl, ident);
    }

    method OutboundSegment(ghost p: seq<byte>, head: seq<byte>, tcp: seq<byte>, d: Draws) returns (out: array<byte>)
      requires HasSegment(p) && WholeHeader(p) && head == p[..HeaderLen(p)] && tcp == Segment(p)
      modifies this
      ensures fresh(out) && out[..] == OutPacket(old(State()), p, d, sums)
      ensures State() == Next(old(State()), Out(p, d))
    {
      var port := Be16(tcp[0], tcp[1]);
      var syn := tcp[13] / 2 % 2 == 1 && tcp[13] / 16 % 2 == 0;
      Claim(port, syn, d, tcp);
      ghost var claimed := State();
      var os := if port in flows then flows[port].os else Linux;
      ghost var shaped := Shaped(claimed, tcp);
      ghost var fronted := Fronted(head, tcp, |shaped|);
      out := LayAndShift(head, tcp, os, syn);
      var ident := Number(port, os, d);
      Stamp(out, |head|, fronted, shaped, ShapeOf(os).ttl, ident);
      assert head[12..20] == p[12..20];
      FillTcp(out, |head|, out.Length, OutFront(claimed, p, d, sums), shaped, [], head[12..20]);
    }

    /** Turns an expectation into a flow when its SYN comes by, once. */
    method Claim(port: u16, syn: bool, d: Draws, ghost tcp: seq<byte>)
      requires IsSegment(tcp) && port == SourcePort(tcp) && (syn <==> IsSyn(tcp))
      modifies this
      ensures State() == Claimed(old(State()), tcp, d)
    {
      if syn && port in expected {
        flows := flows[port := Flow(expected[port], d.id, d.offset)];
        expected := expected - {port};
      }
    }

    method LayAndShift(head: seq<byte>, tcp: seq<byte>, os: Os, syn: bool) returns (out: array<byte>)
      requires |head| >= 20 && IsSegment(tcp) && (syn <==> IsSyn(tcp)) && os == OsOf(State(), SourcePort(tcp))
      ensures fresh(out) && out[..] == Fronted(head, tcp, |Shaped(State(), tcp)|) + Shaped(State(), tcp)
    {
      var port := SourcePort(tcp);
      ghost var laid := Dressed(State(), tcp);
      out := Lay(head, tcp, os, syn);
      if port in flows && Timestamps(os) {
        var _ := ShiftMiddle(out, |head|, out.Length, Fronted(head, tcp, |laid|), laid, [], flows[port].tsOffset, 0);
      }
    }

    /** The packet with its SYN rebuilt, or with the two NOPs of the flow's system. */
    method Lay(head: seq<byte>, tcp: seq<byte>, os: Os, syn: bool) returns (out: array<byte>)
      requires |head| >= 20 && IsSegment(tcp) && (syn <==> IsSyn(tcp)) && os == OsOf(State(), SourcePort(tcp))
      ensures fresh(out)
      ensures out[..] == Fronted(head, tcp, |Dressed(State(), tcp)|) + Dressed(State(), tcp)
    {
      if syn {
        var rebuilt := RebuildSyn(tcp, ShapeOf(os));
        var front := Put16(head, 2, (|head| + |rebuilt|) % U16);
        out := Copied(front + rebuilt);
      } else {
        out := Copied(head + tcp);
        if Timestamps(os) {
          NopAlign(out, |head|);
        }
      }
    }

    /** The packet's IP ID, which counts. */
    method Number(port: u16, os: Os, d: Draws) returns (ident: u16)
      requires os == OsOf(State(), port)
      modifies this
      ensures ident == Numbered(old(State()), port, d).0
      ensures State() == Numbered(old(State()), port, d).1
    {
      match ShapeOf(os).ipId {
        case Zero =>
          ident := 0;
        case Global =>
          globalId := WrapAdd16(globalId, 1);
          ident := globalId;
        case PerFlow =>
          if port in flows {
            ident := flows[port].nextId;
            flows := flows[port := flows[port].(nextId := WrapAdd16(ident, 1))];
          } else {
            ident := d.ident;
          }
      }
    }

    /** Sets hop limit, ID and checksum of the header in front of buf. */
    method Stamp(buf: array<byte>, headerLen: nat, ghost head: seq<byte>, ghost rest: seq<byte>, ttl: byte, ident: u16)
      requires headerLen == |head| >= 20 && buf[..] == head + rest
      modifies buf
      ensures buf[..] == Stamped(head, ttl, ident, sums) + rest
    {
      buf[8] := ttl;
      assert buf[..] == head[8 := ttl] + rest;
      PutFront(buf, 4, ident, head[8 := ttl], rest);
      FillIp(buf, headerLen, Put16(head[8 := ttl], 4, ident), rest);
    }

    method FillIp(buf: array<byte>, headerLen: nat, ghost head: seq<byte>, ghost rest: seq<byte>)
      requires headerLen == |head| >= 20 && buf[..] == head + rest
      modifies buf
      ensures buf[..] == Summed(head, 10, sums.ip(Put16(head, 10, 0))) + rest
    {
      ghost var cleared := Put16(head, 10, 0);
      PutFront(buf, 10, 0, head, rest);
      assert buf[..headerLen] == cleared;
      var sum := sums.ip(buf[..headerLen]);
      PutFront(buf, 10, sum, cleared, rest);
    }

    /** Sets the checksum of the segment buf[lo..hi], if the stack can parse it. */
    method FillTcp(buf: array<byte>, lo: nat, hi: nat, ghost head: seq<byte>, ghost tcp: seq<byte>,
                   ghost rest: seq<byte>, addresses: seq<byte>)
      requires IsSegment(tcp) && buf[..] == head + tcp + rest && lo == |head| && hi == |head| + |tcp|
      modifies buf
      ensures buf[..] == head + Filled(tcp, addresses, sums) + rest
    {
      assert buf[lo + 12] == tcp[12];
      var len := (buf[lo + 12] / 16) as nat * 4;
      if hi - lo < len || len < 20 {
        return;
      }
      ghost var cleared := Put16(tcp, 16, 0);
      Put(buf, lo + 16, 0, head, tcp, rest);
      assert buf[lo..hi] == cleared;
      var sum := sums.tcp(addresses, buf[lo..hi]);
      Put(buf, lo + 16, sum, head, cleared, rest);
    }

    /** Undoes the flow's offset in what an arriving packet echoes, in the same array. */
    method Inbound(packet: array<byte>)
      modifies packet
      ensures packet[..] == InPacket(State(), old(packet[..]), sums)
    {
      if packet.Length < 20 {
        return;
      }
      var headerLen := (packet[0] % 16) as nat * 4;
      var total: nat := Be16(packet[2], packet[3]);
      if packet.Length < headerLen || headerLen > total || packet.Length < total || packet[9] != 6
          || total < headerLen + 20 {
        return;
      }
      ghost var p := packet[..];
      assert HasSegment(p) && headerLen == HeaderLen(p) && total == TotalLen(p);
      InboundSegment(packet, headerLen, total, p[..headerLen], Segment(p), p[total..]);
    }

    method InboundSegment(packet: array<byte>, lo: nat, hi: nat, ghost head: seq<byte>, ghost tcp: seq<byte>,
                          ghost rest: seq<byte>)
      requires IsSegment(tcp) && packet[..] == head + tcp + rest && lo == |head| && hi == |head| + |tcp|
              && packet.Length >= 20
      modifies packet
      ensures packet[..] == head + Returned(State(), tcp, old(packet[12..20]), sums) + rest
    {
      var addresses := packet[12..20];
      assert tcp[2] == packet[lo + 2] && tcp[3] == packet[lo + 3];
      var port := Be16(packet[lo + 2], packet[lo + 3]);
      if port !in flows || flows[port].tsOffset == 0 {
        return;
      }
      var back := WrapNeg32(flows[port].tsOffset);
      var found := ShiftMiddle(packet, lo, hi, head, tcp, rest, 0, back);
      if found {
        FillTcp(packet, lo, hi, head, Shift(tcp, 0, back), rest, addresses);
      } else {
        assert Shift(tcp, 0, back) == tcp;
      }
    }
  }

  /** Writes a number into the middle part of a buffer. */
  method Put(buf: array<byte>, at: nat, x: u16, ghost head: seq<byte>, ghost part: seq<byte>, ghost rest: seq<byte>)
    requires buf[..] == head + part + rest && |head| <= at && at + 2 <= |head| + |part|
    modifies buf
    ensures buf[..] == head + Put16(part, at - |head|, x) + rest
  {
    var b := Be16Bytes(x);
    buf[at], buf[at + 1] := b[0], b[1];
  }

  /** Writes a number into the front part of a buffer. */
  method PutFront(buf: array<byte>, at: nat, x: u16, ghost part: seq<byte>, ghost rest: seq<byte>)
    requires buf[..] == part + rest && at + 2 <= |part|
    modifies buf
    ensures buf[..] == Put16(part, at, x) + rest
  {
    assert part + rest == [] + part + rest;
    Put(buf, at, x, [], part, rest);
    assert [] + Put16(part, at, x) + rest == Put16(part, at, x) + rest;
  }

  /** Shifts the timestamp of the segment buf[lo..hi] between what is around it. */
  method ShiftMiddle(buf: array<byte>, lo: nat, hi: nat, ghost head: seq<byte>, ghost tcp: seq<byte>,
                     ghost rest: seq<byte>, toVal: u32, toEcr: u32) returns (found: bool)
    requires IsSegment(tcp) && buf[..] == head + tcp + rest && lo == |head| && hi == |head| + |tcp|
    modifies buf
    ensures buf[..] == head + Shift(tcp, toVal, toEcr) + rest
    ensures found <==> TimestampAt(tcp).Some?
  {
    assert buf[..lo] == head && buf[lo..hi] == tcp && buf[hi..] == rest;
    found := ShiftTimestamp(buf, lo, hi, toVal, toEcr);
  }

  method Copied(s: seq<byte>) returns (a: array<byte>)
    ensures fresh(a) && a[..] == s
  {
    a := new byte[|s|](i requires 0 <= i < |s| => s[i]);
  }
}
