/** What the shaper does to one packet, and what it remembers between packets. */
module ShaperSpec {
  import opened Wrappers
  import opened Bytes
  import opened TcpOptions
  import opened SynRebuild

  /** A connection as the shaper knows it: its system, its next IP ID and its timestamp offset. */
  datatype Flow = Flow(os: Os, nextId: u16, tsOffset: u32)

  /** What is remembered by local port, systems expected and flows, and the counter all Windows flows
      share. */
  datatype State = State(expected: map<u16, Os>, flows: map<u16, Flow>, globalId: u16)

  /** The random draws of one packet: a flow's first ID and offset, and an ID for what has none. */
  datatype Draws = Draws(id: u16, offset: u32, ident: u16)

  /** The stack's two checksums: of an IPv4 header, and of a segment between two addresses. */
  datatype Sums = Sums(ip: seq<byte> -> u16, tcp: (seq<byte>, seq<byte>) -> u16)

  // ----- IPv4 -----

  function HeaderLen(p: seq<byte>): nat
    requires |p| >= 20
  {
    (p[0] % 16) as nat * 4
  }

  function TotalLen(p: seq<byte>): nat
    requires |p| >= 20
  {
    Be16(p[2], p[3])
  }

  /** The packet passes the stack's length checks. */
  predicate Parses(p: seq<byte>) {
    |p| >= 20 && |p| >= HeaderLen(p) && HeaderLen(p) <= TotalLen(p) && |p| >= TotalLen(p)
  }

  /** A packet the stack itself made has a whole IPv4 header. */
  predicate WholeHeader(p: seq<byte>) {
    Parses(p) ==> HeaderLen(p) >= 20
  }

  predicate HasSegment(p: seq<byte>) {
    Parses(p) && p[9] == 6 && TotalLen(p) >= HeaderLen(p) + 20
  }

  function Segment(p: seq<byte>): (tcp: seq<byte>)
    requires HasSegment(p)
    ensures IsSegment(tcp)
  {
    p[HeaderLen(p)..TotalLen(p)]
  }

  function SourcePort(tcp: seq<byte>): u16
    requires IsSegment(tcp)
  {
    Be16(tcp[0], tcp[1])
  }

  function TargetPort(tcp: seq<byte>): u16
    requires IsSegment(tcp)
  {
    Be16(tcp[2], tcp[3])
  }

  function Put16(s: seq<byte>, at: nat, x: u16): (r: seq<byte>)
    requires at + 2 <= |s|
    ensures |r| == |s|
  {
    var b := Be16Bytes(x);
    s[at := b[0]][at + 1 := b[1]]
  }

  /** An IPv4 header with its hop limit, ID and checksum set. */
  function Stamped(head: seq<byte>, ttl: byte, ident: u16, sums: Sums): (r: seq<byte>)
    requires |head| >= 20
    ensures |r| == |head|
  {
    var numbered := Put16(head[8 := ttl], 4, ident);
    Summed(numbered, 10, sums.ip(Put16(numbered, 10, 0)))
  }

  /** A checksum put where it is counted as zero. */
  function Summed(s: seq<byte>, at: nat, sum: u16): (r: seq<byte>)
    requires at + 2 <= |s|
    ensures |r| == |s|
  {
    Put16(Put16(s, at, 0), at, sum)
  }

  /** A segment with its checksum set, if the stack can parse it. */
  function Filled(tcp: seq<byte>, addresses: seq<byte>, sums: Sums): (r: seq<byte>)
    requires IsSegment(tcp)
    ensures |r| == |tcp|
  {
    var len := (tcp[12] / 16) as nat * 4;
    if |tcp| < len || len < 20 then tcp
    else Summed(tcp, 16, sums.tcp(addresses, Put16(tcp, 16, 0)))
  }

  // ----- outbound -----

  /** The flows once a SYN has claimed what was expected of its port. */
  function Claimed(s: State, tcp: seq<byte>, d: Draws): State
    requires IsSegment(tcp)
  {
    var port := SourcePort(tcp);
    if IsSyn(tcp) && port in s.expected then
      s.(expected := s.expected - {port}, flows := s.flows[port := Flow(s.expected[port], d.id, d.offset)])
    else s
  }

  function OsOf(s: State, port: u16): Os {
    if port in s.flows then s.flows[port].os else Linux
  }

  /** The IP ID a packet of a port gets, and what is left of the counters. */
  function Numbered(s: State, port: u16, d: Draws): (u16, State) {
    match ShapeOf(OsOf(s, port)).ipId
    case Zero => (0, s)
    case Global =>
      var id := WrapAdd16(s.globalId, 1);
      (id, s.(globalId := id))
    case PerFlow =>
      if port in s.flows then
        var f := s.flows[port];
        (f.nextId, s.(flows := s.flows[port := f.(nextId := WrapAdd16(f.nextId, 1))]))
      else (d.ident, s)
  }

  /** The segment with its options as the flow's system would have written them. */
  function Dressed(s: State, tcp: seq<byte>): (r: seq<byte>)
    requires IsSegment(tcp)
    ensures IsSegment(r)
  {
    var os := OsOf(s, SourcePort(tcp));
    if IsSyn(tcp) then Rebuild(tcp, ShapeOf(os)) else if Timestamps(os) then NopAligned(tcp) else tcp
  }

  /** The same with its timestamp moved, checksum apart. */
  function Shaped(s: State, tcp: seq<byte>): (r: seq<byte>)
    requires IsSegment(tcp)
    ensures IsSegment(r)
  {
    var port := SourcePort(tcp);
    if port in s.flows && Timestamps(s.flows[port].os) then Shift(Dressed(s, tcp), s.flows[port].tsOffset, 0)
    else Dressed(s, tcp)
  }

  /** The header in front of a segment: a SYN's says its new size. */
  function Fronted(head: seq<byte>, tcp: seq<byte>, laid: nat): (r: seq<byte>)
    requires |head| >= 20 && IsSegment(tcp)
    ensures |r| == |head|
  {
    if IsSyn(tcp) then Put16(head, 2, (|head| + laid) % U16) else head
  }

  function OutState(s: State, p: seq<byte>, d: Draws): State {
    if HasSegment(p) then
      var tcp := Segment(p);
      Numbered(Claimed(s, tcp, d), SourcePort(tcp), d).1
    else s
  }

  /** The IPv4 header in front of a shaped segment. */
  function OutFront(claimed: State, p: seq<byte>, d: Draws, sums: Sums): (r: seq<byte>)
    requires HasSegment(p) && WholeHeader(p)
    ensures |r| == HeaderLen(p)
  {
    var tcp := Segment(p);
    var port := SourcePort(tcp);
    Stamped(Fronted(p[..HeaderLen(p)], tcp, |Shaped(claimed, tcp)|), ShapeOf(OsOf(claimed, port)).ttl,
            Numbered(claimed, port, d).0, sums)
  }

  /** The packet sent for this one. Anything but TCP gets the hop limit and ID of Linux. */
  function OutPacket(s: State, p: seq<byte>, d: Draws, sums: Sums): (r: seq<byte>)
    requires WholeHeader(p)
  {
    if !Parses(p) then p
    else if !HasSegment(p) then Stamped(p[..HeaderLen(p)], LINUX.ttl, d.ident, sums) + p[HeaderLen(p)..TotalLen(p)]
    else
      var claimed := Claimed(s, Segment(p), d);
      OutFront(claimed, p, d, sums) + Filled(Shaped(claimed, Segment(p)), p[12..20], sums)
  }

  // ----- inbound -----

  /** What a flow echoes is moved back. */
  function Returned(s: State, tcp: seq<byte>, addresses: seq<byte>, sums: Sums): (r: seq<byte>)
    requires IsSegment(tcp)
    ensures |r| == |tcp|
  {
    var port := TargetPort(tcp);
    if port !in s.flows || s.flows[port].tsOffset == 0 || TimestampAt(tcp).None? then tcp
    else Filled(Shift(tcp, 0, WrapNeg32(s.flows[port].tsOffset)), addresses, sums)
  }

  /** The packet smoltcp sees: a flow's echoed timestamps moved back. */
  function InPacket(s: State, p: seq<byte>, sums: Sums): seq<byte> {
    if !HasSegment(p) then p
    else p[..HeaderLen(p)] + Returned(s, Segment(p), p[12..20], sums) + p[TotalLen(p)..]
  }

  // ----- runs -----

  datatype Op = Expect(port: u16, os: Os) | Out(packet: seq<byte>, draws: Draws) | In(packet: seq<byte>)

  function Next(s: State, op: Op): State {
    match op
    case Expect(port, os) => s.(expected := s.expected[port := os])
    case Out(p, d) => OutState(s, p, d)
    case In(_) => s
  }

  function Run(s: State, ops: seq<Op>): State {
    if ops == [] then s else Next(Run(s, ops[..|ops| - 1]), ops[|ops| - 1])
  }

  /** A segment goes out from a port. */
  predicate Sends(op: Op, port: u16) {
    op.Out? && HasSegment(op.packet) && SourcePort(Segment(op.packet)) == port
  }

  /** The port is dialled anew: a SYN goes out that something was expected of. */
  predicate Dials(s: State, op: Op, port: u16) {
    Sends(op, port) && IsSyn(Segment(op.packet)) && port in s.expected
  }

  /** In no step of the run the port is dialled anew. */
  predicate SameDial(s: State, ops: seq<Op>, port: u16) {
    ops == [] || (SameDial(s, ops[..|ops| - 1], port) && !Dials(Run(s, ops[..|ops| - 1]), ops[|ops| - 1], port))
  }
}
