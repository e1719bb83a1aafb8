/** What the far side and the stack see of shaped packets, over every run on any number of ports. */
module ShaperRuns {
  import opened Wrappers
  import opened Bytes
  import opened TcpOptions
  import opened SynRebuild
  import opened ShaperSpec

  function Ident(p: seq<byte>): u16
    requires |p| >= 20
  {
    Be16(p[4], p[5])
  }

  /** What a port's flow adds to the timestamps it sends. */
  function OffsetOf(s: State, port: u16): u32 {
    if port in s.flows && Timestamps(s.flows[port].os) then s.flows[port].tsOffset else 0
  }

  function Moved(ts: Option<(u32, u32)>, toVal: u32, toEcr: u32): Option<(u32, u32)> {
    match ts
    case None => None
    case Some(t) => Some((WrapAdd32(t.0, toVal), ShiftedEcr(t.1, toEcr)))
  }

  // ----- headers -----

  lemma Put16Reads(s: seq<byte>, at: nat, x: u16)
    requires at + 2 <= |s|
    ensures Be16(Put16(s, at, x)[at], Put16(s, at, x)[at + 1]) == x
    ensures forall k | 0 <= k < |s| && k != at && k != at + 1 :: Put16(s, at, x)[k] == s[k]
  {
  }

  lemma SummedHas(s: seq<byte>, at: nat, sum: u16, k: nat)
    requires at + 2 <= |s| && k < |s| && k != at && k != at + 1
    ensures Summed(s, at, sum)[k] == s[k]
  {
  }

  lemma NumberedHas(head: seq<byte>, ttl: byte, ident: u16, numbered: seq<byte>)
    requires |head| >= 20 && numbered == Put16(head[8 := ttl], 4, ident)
    ensures |numbered| == |head| && numbered[8] == ttl && Be16(numbered[4], numbered[5]) == ident
    ensures numbered[0] == head[0] && numbered[2] == head[2] && numbered[3] == head[3] && numbered[9] == head[9]
  {
  }

  /** Stamping sets ID and hop limit, and leaves what says how long things are. */
  lemma StampingHas(head: seq<byte>, ttl: byte, ident: u16, sums: Sums, r: seq<byte>)
    requires |head| >= 20 && r == Stamped(head, ttl, ident, sums)
    ensures r[8] == ttl && Ident(r) == ident
    ensures r[0] == head[0] && r[2] == head[2] && r[3] == head[3] && r[9] == head[9]
  {
    var numbered := Put16(head[8 := ttl], 4, ident);
    NumberedHas(head, ttl, ident, numbered);
    SummedFront(numbered, sums.ip(Put16(numbered, 10, 0)), r);
  }

  lemma SummedFront(s: seq<byte>, sum: u16, r: seq<byte>)
    requires |s| >= 20 && r == Summed(s, 10, sum)
    ensures forall k | 0 <= k < 10 :: r[k] == s[k]
  {
  }

  lemma FilledHas(tcp: seq<byte>, addresses: seq<byte>, sums: Sums, k: nat)
    requires IsSegment(tcp) && k < |tcp| && k != 16 && k != 17
    ensures Filled(tcp, addresses, sums)[k] == tcp[k]
  {
    SummedHas(tcp, 16, sums.tcp(addresses, Put16(tcp, 16, 0)), k);
  }

  /** The checksum is no option: a filled segment has the options and the timestamp it had. */
  lemma FilledKeeps(tcp: seq<byte>, addresses: seq<byte>, sums: Sums, r: seq<byte>)
    requires IsSegment(tcp) && r == Filled(tcp, addresses, sums)
    ensures Options(r) == Options(tcp)
    ensures Timestamp(r) == Timestamp(tcp)
  {
    FilledAround(tcp, addresses, sums, r);
    SameOptions(r, tcp);
  }

  lemma FilledAround(tcp: seq<byte>, addresses: seq<byte>, sums: Sums, r: seq<byte>)
    requires IsSegment(tcp) && r == Filled(tcp, addresses, sums)
    ensures r[12] == tcp[12] && forall k | 20 <= k < |tcp| :: r[k] == tcp[k]
  {
    FilledHas(tcp, addresses, sums, 12);
    forall k | 20 <= k < |tcp| ensures r[k] == tcp[k] {
      FilledHas(tcp, addresses, sums, k);
    }
  }

  lemma SameOptions(a: seq<byte>, b: seq<byte>)
    requires IsSegment(a) && |a| == |b| && a[12] == b[12] && forall k | 20 <= k < |a| :: a[k] == b[k]
    ensures Options(a) == Options(b)
  {
    SameSuffixSameScan(a, b, 20, DataEnd(a));
  }

  lemma ZeroShift(ts: Option<(u32, u32)>)
    ensures Moved(ts, 0, 0) == ts
  {
  }

  /** Shifting moves the two numbers and nothing else in the first twenty octets. */
  lemma ShiftMoves(tcp: seq<byte>, toVal: u32, toEcr: u32)
    requires IsSegment(tcp)
    ensures Timestamp(Shift(tcp, toVal, toEcr)) == Moved(Timestamp(tcp), toVal, toEcr)
    ensures forall k | 0 <= k < 20 :: Shift(tcp, toVal, toEcr)[k] == tcp[k]
  {
    ShiftMeans(tcp, toVal, toEcr);
  }

  // ----- the timestamp of a rebuilt SYN -----

  lemma {:induction false} RestrictedTimestamp(layout: seq<Slot>, opts: seq<Opt>)
    ensures FirstTimestamp(Restricted(layout, opts)) == if Ts in layout then Taken(Ts, opts) else None
    decreases |layout|
  {
    if layout != [] {
      var rest := Restricted(layout[1..], opts);
      RestrictedTimestamp(layout[1..], opts);
      var held := Held(layout[0], opts);
      if held == [] {
        assert held + rest == rest;
      } else {
        ConsTimestamp(held[0], rest, []);
      }
    }
  }

  lemma {:induction false} FirstIsTimestamp(opts: seq<Opt>)
    ensures Taken(Ts, opts).Some? ==> FirstTimestamp(opts) == Taken(Ts, opts)
    decreases |opts|
  {
    if opts != [] && opts[0].kind != 8 {
      FirstIsTimestamp(opts[1..]);
    }
  }

  /** A SYN keeps its timestamp if the system offers them, and loses it otherwise. */
  lemma RebuiltTimestamp(tcp: seq<byte>, os: Os)
    requires IsSegment(tcp) && ScaleFits(Options(tcp))
    ensures var ts := Timestamp(Rebuild(tcp, ShapeOf(os)));
            && (ts.Some? <==> Timestamps(os) && Taken(Ts, Options(tcp)).Some?)
            && (ts.Some? ==> ts == Timestamp(tcp))
  {
    RebuiltChosen(tcp, os);
    RestrictedTimestamp(ShapeOf(os).layout, Options(tcp));
    FirstIsTimestamp(Options(tcp));
  }

  // ----- one packet -----

  lemma FrontIs(claimed: State, p: seq<byte>, d: Draws, sums: Sums, front: seq<byte>)
    requires HasSegment(p) && WholeHeader(p) && front == OutFront(claimed, p, d, sums)
    ensures front[0] == p[0] && front[9] == p[9]
    ensures front[8] == ShapeOf(OsOf(claimed, SourcePort(Segment(p)))).ttl
    ensures Ident(front) == Numbered(claimed, SourcePort(Segment(p)), d).0
    ensures Be16(front[2], front[3]) ==
            if IsSyn(Segment(p)) then (HeaderLen(p) + |Shaped(claimed, Segment(p))|) % U16 else TotalLen(p)
  {
    var tcp := Segment(p);
    var head := p[..HeaderLen(p)];
    var laid := |Shaped(claimed, tcp)|;
    var fronted := Fronted(head, tcp, laid);
    var ttl := ShapeOf(OsOf(claimed, SourcePort(tcp))).ttl;
    var id := Numbered(claimed, SourcePort(tcp), d).0;
    FrontedIs(head, tcp, laid);
    StampingHas(fronted, ttl, id, sums, front);
  }

  lemma FrontedIs(head: seq<byte>, tcp: seq<byte>, laid: nat)
    requires |head| >= 20 && IsSegment(tcp)
    ensures var r := Fronted(head, tcp, laid);
            r[0] == head[0] && r[9] == head[9]
            && Be16(r[2], r[3]) == if IsSyn(tcp) then (|head| + laid) % U16 else Be16(head[2], head[3])
  {
    Put16Reads(head, 2, (|head| + laid) % U16);
  }

  /** A header and a segment that say each other's size are a packet. */
  lemma Assembled(front: seq<byte>, tcp: seq<byte>, r: seq<byte>)
    requires |front| >= 20 && IsSegment(tcp) && front[9] == 6 && r == front + tcp
    requires HeaderLen(front) == |front| && TotalLen(front) == |front| + |tcp|
    ensures HasSegment(r) && Segment(r) == tcp && |r| == TotalLen(r)
    ensures r[8] == front[8] && Ident(r) == Ident(front)
  {
  }

  /** What leaves: the size, the header fields and the segment of a shaped packet. */
  lemma OutShape(s: State, p: seq<byte>, d: Draws, sums: Sums, claimed: State, tcp: seq<byte>, r: seq<byte>)
    requires HasSegment(p) && WholeHeader(p) && tcp == Segment(p)
    requires claimed == Claimed(s, tcp, d) && r == OutPacket(s, p, d, sums)
    ensures HasSegment(r) && |r| == TotalLen(r)
    ensures !IsSyn(tcp) ==> |r| == TotalLen(p)
    ensures r[8] == ShapeOf(OsOf(claimed, SourcePort(tcp))).ttl
    ensures Ident(r) == Numbered(claimed, SourcePort(tcp), d).0
    ensures Segment(r) == Filled(Shaped(claimed, tcp), p[12..20], sums)
  {
    var front := OutFront(claimed, p, d, sums);
    var shaped := Filled(Shaped(claimed, tcp), p[12..20], sums);
    FrontIs(claimed, p, d, sums, front);
    FrontFits(claimed, p, front, shaped);
    Assembled(front, shaped, r);
  }

  /** The front says the size of what it is put in front of. */
  lemma FrontFits(claimed: State, p: seq<byte>, front: seq<byte>, shaped: seq<byte>)
    requires HasSegment(p) && WholeHeader(p) && |front| == HeaderLen(p) && front[0] == p[0]
    requires |shaped| == |Shaped(claimed, Segment(p))|
    requires Be16(front[2], front[3]) ==
             if IsSyn(Segment(p)) then (HeaderLen(p) + |shaped|) % U16 else TotalLen(p)
    ensures HeaderLen(front) == |front| && TotalLen(front) == |front| + |shaped|
    ensures !IsSyn(Segment(p)) ==> |front| + |shaped| == TotalLen(p)
  {
    ShapedSize(claimed, Segment(p));
    SmallSum(HeaderLen(p), |shaped|);
  }

  lemma SmallSum(a: nat, b: nat)
    ensures a <= 60 && b <= 88 ==> (a + b) % U16 == a + b
  {
  }

  /** Only a SYN changes size: everything else, TCP or not, leaves as long as it says it is. */
  lemma SizeKept(s: State, p: seq<byte>, d: Draws, sums: Sums)
    requires Parses(p) && WholeHeader(p) && !(HasSegment(p) && IsSyn(Segment(p)))
    ensures |OutPacket(s, p, d, sums)| == TotalLen(p)
  {
    if HasSegment(p) {
      OutShape(s, p, d, sums, Claimed(s, Segment(p), d), Segment(p), OutPacket(s, p, d, sums));
    }
  }

  /** Outside its options a segment that is no SYN is not touched: header, payload and all. */
  lemma PayloadUntouched(s: State, tcp: seq<byte>, k: nat)
    requires IsSegment(tcp) && !IsSyn(tcp) && k < |tcp| && (k < 20 || k >= DataEnd(tcp))
    ensures |Shaped(s, tcp)| == |tcp| && Shaped(s, tcp)[k] == tcp[k]
  {
    var os := OsOf(s, SourcePort(tcp));
    var laid := if Timestamps(os) then NopAligned(tcp) else tcp;
    NopAlignedKeeps(tcp);
    assert laid[12] == tcp[12] && DataEnd(laid) == DataEnd(tcp);
    assert LoneTimestamp(tcp) ==> DataEnd(tcp) == 32;
    if SourcePort(tcp) in s.flows && Timestamps(os) {
      ShiftMeans(laid, s.flows[SourcePort(tcp)].tsOffset, 0);
    }
  }

  lemma ShapedSize(s: State, tcp: seq<byte>)
    requires IsSegment(tcp)
    ensures |Shaped(s, tcp)| == |Dressed(s, tcp)|
    ensures if IsSyn(tcp) then |Shaped(s, tcp)| <= 88 else |Shaped(s, tcp)| == |tcp|
  {
    if IsSyn(tcp) {
      RebuiltHeader(tcp, OsOf(s, SourcePort(tcp)));
    }
  }

  /** The timestamp that leaves: that of the segment as it is dressed, moved by the flow's offset,
      and the echo as it was. */
  lemma ShapedTimestamp(s: State, tcp: seq<byte>)
    requires IsSegment(tcp)
    ensures Timestamp(Shaped(s, tcp)) == Moved(Timestamp(Dressed(s, tcp)), OffsetOf(s, SourcePort(tcp)), 0)
  {
    var port := SourcePort(tcp);
    ZeroShift(Timestamp(Dressed(s, tcp)));
    if port in s.flows && Timestamps(s.flows[port].os) {
      ShiftMoves(Dressed(s, tcp), s.flows[port].tsOffset, 0);
    }
  }

  /** Dressing keeps the timestamp smoltcp wrote, except that a system without timestamps drops it
      from a SYN; of a SYN this is promised if its window-scale option has one octet. */
  lemma DressedTimestamp(s: State, tcp: seq<byte>)
    requires IsSegment(tcp) && (IsSyn(tcp) ==> ScaleFits(Options(tcp)))
    ensures var ts := Timestamp(Dressed(s, tcp));
            (ts.Some? || !IsSyn(tcp)) ==> ts == Timestamp(tcp)
  {
    if IsSyn(tcp) {
      RebuiltTimestamp(tcp, OsOf(s, SourcePort(tcp)));
    } else {
      NopAlignedKeeps(tcp);
      assert Options(Dressed(s, tcp)) == Options(tcp);
    }
  }

  /** Putting a segment of the same size in place of another, in any packet. */
  lemma Replaced(p: seq<byte>, tcp: seq<byte>)
    requires HasSegment(p) && |tcp| == |Segment(p)|
    requires forall k | 0 <= k < 16 :: tcp[k] == Segment(p)[k]
    ensures var r := p[..HeaderLen(p)] + tcp + p[TotalLen(p)..];
            |r| == |p| && HasSegment(r) && Segment(r) == tcp
  {
    var h := HeaderLen(p);
    var r := p[..h] + tcp + p[TotalLen(p)..];
    forall k | 0 <= k < 16 ensures r[k] == p[k] {
      if k >= h {
        assert r[k] == tcp[k - h] == Segment(p)[k - h];
      }
    }
    assert r[h..TotalLen(p)] == tcp;
  }

  /** The timestamp that arrives: the value as it was, a non-zero echo moved back. The packet keeps
      its size. */
  lemma InShape(s: State, p: seq<byte>, sums: Sums)
    requires HasSegment(p) && TargetPort(Segment(p)) in s.flows
    ensures var r := InPacket(s, p, sums);
            && |r| == |p| && HasSegment(r)
            && Timestamp(Segment(r)) == Moved(Timestamp(Segment(p)), 0,
                WrapNeg32(s.flows[TargetPort(Segment(p))].tsOffset))
  {
    var tcp := Segment(p);
    var returned := Returned(s, tcp, p[12..20], sums);
    ReturnedIs(s, tcp, p[12..20], sums, returned);
    Replaced(p, returned);
  }

  lemma ReturnedIs(s: State, tcp: seq<byte>, addresses: seq<byte>, sums: Sums, r: seq<byte>)
    requires IsSegment(tcp) && TargetPort(tcp) in s.flows && r == Returned(s, tcp, addresses, sums)
    ensures forall k | 0 <= k < 16 :: r[k] == tcp[k]
    ensures Timestamp(r) == Moved(Timestamp(tcp), 0, WrapNeg32(s.flows[TargetPort(tcp)].tsOffset))
  {
    var back := WrapNeg32(s.flows[TargetPort(tcp)].tsOffset);
    var shifted := Shift(tcp, 0, back);
    ShiftMoves(tcp, 0, back);
    ZeroShift(Timestamp(tcp));
    if r != tcp {
      FilledKeeps(shifted, addresses, sums, r);
      forall k | 0 <= k < 16 ensures r[k] == tcp[k] {
        FilledHas(shifted, addresses, sums, k);
      }
    } else {
      ReturnedAlike(s, tcp, addresses, sums);
    }
  }

  /** Nothing changes only where there is nothing to move. */
  lemma ReturnedAlike(s: State, tcp: seq<byte>, addresses: seq<byte>, sums: Sums)
    requires IsSegment(tcp) && TargetPort(tcp) in s.flows && Returned(s, tcp, addresses, sums) == tcp
    ensures Timestamp(tcp) == Moved(Timestamp(tcp), 0, WrapNeg32(s.flows[TargetPort(tcp)].tsOffset))
  {
    var off := s.flows[TargetPort(tcp)].tsOffset;
    ShiftMeans(tcp, 0, WrapNeg32(off));
    ShiftMoves(tcp, 0, WrapNeg32(off));
    ZeroShift(Timestamp(tcp));
    if off != 0 && TimestampAt(tcp).Some? {
      FilledKeeps(Shift(tcp, 0, WrapNeg32(off)), addresses, sums, tcp);
    }
  }

  // ----- whole runs -----

  function Sent(ops: seq<Op>, port: u16): nat {
    if ops == [] then 0 else Sent(ops[..|ops| - 1], port) + if Sends(ops[|ops| - 1], port) then 1 else 0
  }

  /** A packet goes out that Windows numbers. */
  predicate SendsAsWindows(s: State, op: Op) {
    op.Out? && HasSegment(op.packet)
    && OsOf(Claimed(s, Segment(op.packet), op.draws), SourcePort(Segment(op.packet))) == Windows
  }

  function SentAsWindows(s: State, ops: seq<Op>): nat {
    if ops == [] then 0
    else
      var before := ops[..|ops| - 1];
      SentAsWindows(s, before) + if SendsAsWindows(Run(s, before), ops[|ops| - 1]) then 1 else 0
  }

  /** A step leaves every other port's flow as it was. */
  lemma Isolation(s: State, op: Op, port: u16)
    requires !Sends(op, port)
    ensures var t := Next(s, op);
            && (port in t.flows <==> port in s.flows) && (port in s.flows ==> t.flows[port] == s.flows[port])
            && (!(op.Expect? && op.port == port) ==>
                  (port in t.expected <==> port in s.expected)
                      && (port in s.expected ==> t.expected[port] == s.expected[port]))
  {
  }

  /** A step of a port that is not dialled anew keeps its system and offset, and moves on its ID. */
  lemma StepFlow(s: State, op: Op, port: u16)
    requires port in s.flows && !Dials(s, op, port)
    ensures var f := s.flows[port];
            port in Next(s, op).flows
            && Next(s, op).flows[port]
                == f.(nextId := WrapAdd16(f.nextId, if Sends(op, port) && f.os == Linux then 1 else 0))
  {
    if !Sends(op, port) {
      Isolation(s, op, port);
    }
  }

  /** From one dialling of a port to the next, every state has one flow for it: one system, one
      timestamp offset, and under Linux an ID that counts the packets sent, modulo 2^16. */
  lemma {:induction false} StableFlow(s: State, ops: seq<Op>, port: u16)
    requires port in s.flows && SameDial(s, ops, port)
    ensures var f := s.flows[port];
            port in Run(s, ops).flows
            && Run(s, ops).flows[port]
                == f.(nextId := WrapAdd16(f.nextId, if f.os == Linux then Sent(ops, port) else 0))
    decreases |ops|
  {
    if ops != [] {
      var before := ops[..|ops| - 1];
      StableFlow(s, before, port);
      StepFlow(Run(s, before), ops[|ops| - 1], port);
    }
  }

  /** The counter of Windows counts the packets sent as Windows, on whatever port. */
  lemma {:induction false} WindowsCounts(s: State, ops: seq<Op>)
    ensures Run(s, ops).globalId == WrapAdd16(s.globalId, SentAsWindows(s, ops))
    decreases |ops|
  {
    if ops != [] {
      WindowsCounts(s, ops[..|ops| - 1]);
    }
  }

  /** A SYN something was expected of begins a flow of that system, which is the one the SYN itself
      is shaped by; the port has to be expected again before another can. */
  lemma DialBegins(s: State, p: seq<byte>, d: Draws, port: u16, sums: Sums)
    requires WholeHeader(p) && Dials(s, Out(p, d), port)
    ensures var c := Claimed(s, Segment(p), d);
            && port in c.flows && c.flows[port] == Flow(s.expected[port], d.id, d.offset)
            && port !in c.expected && !Dials(c, Out(p, d), port)
            && Next(c, Out(p, d)) == Next(s, Out(p, d))
            && OutPacket(c, p, d, sums) == OutPacket(s, p, d, sums)
  {
    assert Claimed(Claimed(s, Segment(p), d), Segment(p), d) == Claimed(s, Segment(p), d);
  }

  /** Every packet of a flow, after any run in which its port is not dialled anew: the hop limit of
      the flow's system, and its ID. Linux IDs are consecutive in the flow, Windows IDs across all
      Windows flows, both modulo 2^16; those of macOS are zero. */
  lemma FlowIds(s: State, ops: seq<Op>, t: State, p: seq<byte>, d: Draws, port: u16, sums: Sums, r: seq<byte>)
    requires port in s.flows && SameDial(s, ops, port) && t == Run(s, ops)
    requires WholeHeader(p) && Sends(Out(p, d), port) && !Dials(t, Out(p, d), port) && r == OutPacket(t, p, d, sums)
    ensures |r| >= 20 && r[8] == ShapeOf(s.flows[port].os).ttl
    ensures s.flows[port].os == Linux ==> Ident(r) == WrapAdd16(s.flows[port].nextId, Sent(ops, port))
    ensures s.flows[port].os == Windows ==> Ident(r) == WrapAdd16(s.globalId, SentAsWindows(s, ops) + 1)
    ensures s.flows[port].os == MacOs ==> Ident(r) == 0
  {
    StableFlow(s, ops, port);
    WindowsCounts(s, ops);
    NotClaimed(t, p, d, port);
    OutShape(t, p, d, sums, t, Segment(p), r);
    WrapTwice(s.globalId, SentAsWindows(s, ops));
  }

  lemma NotClaimed(s: State, p: seq<byte>, d: Draws, port: u16)
    requires Sends(Out(p, d), port) && !Dials(s, Out(p, d), port)
    ensures Claimed(s, Segment(p), d) == s
  {
  }

  lemma WrapTwice(x: u16, n: nat)
    ensures WrapAdd16(WrapAdd16(x, n), 1) == WrapAdd16(x, n + 1)
  {
  }

  /** The echo of a timestamp. A flow's packet leaves with TSval w where the dressed segment had v,
      which is what smoltcp wrote; after any run in which the port is not dialled anew, the peer's
      packet q echoes w. Smoltcp then reads v back exactly when the flow's offset is zero or the
      flow's system offers timestamps just if w is not zero: under Windows nothing is moved on the
      way out, and yet a non-zero echo is moved on the way back. The peer's own TSval is never
      touched, nor is the TSecr that went out. */
  lemma EchoReturns(s: State, p: seq<byte>, d: Draws, wire: seq<byte>, w: (u32, u32), ops: seq<Op>, t: State,
                    q: seq<byte>, echo: (u32, u32), stack: seq<byte>, port: u16, sums: Sums)
    returns (v: u32, seen: u32)
    requires port in s.flows && WholeHeader(p) && Sends(Out(p, d), port) && !Dials(s, Out(p, d), port)
    requires wire == OutPacket(s, p, d, sums) && HasSegment(wire) && Timestamp(Segment(wire)) == Some(w)
    requires SameDial(Next(s, Out(p, d)), ops, port) && t == Run(Next(s, Out(p, d)), ops)
    requires HasSegment(q) && TargetPort(Segment(q)) == port && Timestamp(Segment(q)) == Some(echo) && echo.1 == w.0
    requires stack == InPacket(t, q, sums)
    ensures Timestamp(Dressed(s, Segment(p))) == Some((v, w.1))
    ensures (IsSyn(Segment(p)) ==> ScaleFits(Options(Segment(p)))) ==> Timestamp(Segment(p)) == Some((v, w.1))
    ensures HasSegment(stack) && Timestamp(Segment(stack)) == Some((echo.0, seen))
    ensures w.0 == 0 ==> seen == 0
    ensures seen == v <==> s.flows[port].tsOffset == 0 || (Timestamps(s.flows[port].os) <==> w.0 != 0)
  {
    WireTimestamp(s, p, d, wire, port, sums);
    var sent := Timestamp(Dressed(s, Segment(p))).value;
    if IsSyn(Segment(p)) ==> ScaleFits(Options(Segment(p))) {
      DressedTimestamp(s, Segment(p));
    }
    StepFlow(s, Out(p, d), port);
    StableFlow(Next(s, Out(p, d)), ops, port);
    InShape(t, q, sums);
    var off := s.flows[port].tsOffset;
    v, seen := sent.0, ShiftedEcr(w.0, WrapNeg32(off));
    NoShift(sent.1, echo.0);
    WrapThere(v, off, Timestamps(s.flows[port].os), w.0, seen);
  }

  lemma NoShift(ecr: u32, val: u32)
    ensures ShiftedEcr(ecr, 0) == ecr && WrapAdd32(val, 0) == val
  {
  }

  lemma WireTimestamp(s: State, p: seq<byte>, d: Draws, wire: seq<byte>, port: u16, sums: Sums)
    requires port in s.flows && WholeHeader(p) && Sends(Out(p, d), port) && !Dials(s, Out(p, d), port)
    requires wire == OutPacket(s, p, d, sums)
    ensures HasSegment(wire)
    ensures Timestamp(Segment(wire)) == Moved(Timestamp(Dressed(s, Segment(p))), OffsetOf(s, port), 0)
  {
    NotClaimed(s, p, d, port);
    OutShape(s, p, d, sums, s, Segment(p), wire);
    FilledKeeps(Shaped(s, Segment(p)), p[12..20], sums, Segment(wire));
    ShapedTimestamp(s, Segment(p));
  }

  /** Moving there, if the system offers timestamps, and back. */
  lemma WrapThere(v: u32, off: u32, there: bool, wire: u32, seen: u32)
    requires wire == WrapAdd32(v, if there then off else 0) && seen == ShiftedEcr(wire, WrapNeg32(off))
    ensures seen == v <==> off == 0 || (there <==> wire != 0)
  {
    WrapBack(v, off);
  }

  /** A packet of 52 octets with two NOPs and a timestamp option. */
  predicate IsStamped(p: seq<byte>, from: byte, to: byte, val: byte, ecr: byte) {
    && |p| == 52 && p[0] == 0x45 && p[2] == 0 && p[3] == 52 && p[9] == 6
    && p[20..24] == [0, from, 0, to] && p[32] == 0x80 && p[33] == 0x10
    && p[40..] == [1, 1, 8, 10, 0, 0, 0, val, 0, 0, 0, ecr]
  }

  lemma StampedPacket(from: byte, to: byte, val: byte, ecr: byte) returns (p: seq<byte>)
    ensures IsStamped(p, from, to, val, ecr)
  {
    var ports: seq<byte>, opts: seq<byte> := [0, from, 0, to], [1, 1, 8, 10, 0, 0, 0, val, 0, 0, 0, ecr];
    p := [0x45, 0, 0, 52] + Zeros(5) + [6] + Zeros(10) + ports + Zeros(8) + [0x80, 0x10] + Zeros(6) + opts;
    assert p[20..24] == ports;
    assert p[40..] == opts;
  }

  lemma StampedHas(p: seq<byte>, from: byte, to: byte, val: byte, ecr: byte)
    requires IsStamped(p, from, to, val, ecr)
    ensures HasSegment(p) && WholeHeader(p) && !IsSyn(Segment(p)) && Segment(p) == p[20..]
    ensures SourcePort(Segment(p)) == from as u16 && TargetPort(Segment(p)) == to as u16
    ensures DataEnd(Segment(p)) == 32
  {
    assert p[20..24][1] == from && p[20..24][3] == to;
  }

  lemma StampedScan(tcp: seq<byte>, val: byte, ecr: byte)
    requires |tcp| == 32 && IsSegment(tcp) && DataEnd(tcp) == 32
    requires tcp[20..] == [1, 1, 8, 10, 0, 0, 0, val, 0, 0, 0, ecr]
    ensures Timestamp(tcp) == Some((val as u32, ecr as u32))
  {
    var opts := tcp[20..];
    assert tcp[20] == opts[0] && tcp[21] == opts[1] && tcp[22] == opts[2] && tcp[23] == opts[3];
    assert TokenAt(tcp, 20, 32) == Nop && TokenAt(tcp, 21, 32) == Nop && TokenAt(tcp, 22, 32) == Item(10);
    var body := [0, 0, 0, val, 0, 0, 0, ecr];
    assert tcp[24..32] == opts[4..] == body;
    assert OptAt(tcp, 22, 10) == Opt(8, body);
    assert Scan(tcp, 32, 32) == [];
    assert Scan(tcp, 22, 32) == [Opt(8, body)];
    assert Scan(tcp, 21, 32) == [Opt(8, body)];
    assert FirstTimestamp([Opt(8, body)]) == Some(body);
  }

  /** The family that fails is not empty: one millisecond and an offset that wrap to zero on the wire.
      The peer's echo of zero reaches smoltcp as zero, not as the one it wrote. */
  lemma SomeEchoIsLost(d: Draws, sums: Sums) returns (s: State, p: seq<byte>, q: seq<byte>)
    ensures 1 in s.flows && s.flows[1].os == Linux && WholeHeader(p)
    ensures Sends(Out(p, d), 1) && !Dials(s, Out(p, d), 1) && Timestamp(Segment(p)) == Some((1, 0))
    ensures var wire := OutPacket(s, p, d, sums); HasSegment(wire) && Timestamp(Segment(wire)) == Some((0, 0))
    ensures HasSegment(q) && TargetPort(Segment(q)) == 1 && Timestamp(Segment(q)) == Some((5, 0))
    ensures var stack := InPacket(Next(s, Out(p, d)), q, sums);
            HasSegment(stack) && Timestamp(Segment(stack)) == Some((5, 0))
  {
    s := State(map[], map[1 := Flow(Linux, 0, 0xFFFF_FFFF)], 0);
    p := StampedSegment(1, 2, 1, 0);
    q := StampedSegment(2, 1, 5, 0);
    NotSynNotDialled(s, p, d, 1);
    EchoWraps(s, p, q, d, 1, sums);
  }

  lemma StampedSegment(from: byte, to: byte, val: byte, ecr: byte) returns (p: seq<byte>)
    ensures HasSegment(p) && WholeHeader(p) && !IsSyn(Segment(p))
    ensures SourcePort(Segment(p)) == from as u16 && TargetPort(Segment(p)) == to as u16
    ensures Timestamp(Segment(p)) == Some((val as u32, ecr as u32))
  {
    p := StampedPacket(from, to, val, ecr);
    StampedHas(p, from, to, val, ecr);
    StampedScan(Segment(p), val, ecr);
  }

  lemma NotSynNotDialled(s: State, p: seq<byte>, d: Draws, port: u16)
    requires HasSegment(p) && !IsSyn(Segment(p))
    ensures !Dials(s, Out(p, d), port)
  {
  }

  lemma EchoWraps(s: State, p: seq<byte>, q: seq<byte>, d: Draws, port: u16, sums: Sums)
    requires port in s.flows && s.flows[port].os == Linux && s.flows[port].tsOffset == 0xFFFF_FFFF
    requires Sends(Out(p, d), port) && WholeHeader(p) && !IsSyn(Segment(p)) && !Dials(s, Out(p, d), port)
    requires Timestamp(Segment(p)) == Some((1, 0))
    requires HasSegment(q) && TargetPort(Segment(q)) == port && Timestamp(Segment(q)) == Some((5, 0))
    ensures var wire := OutPacket(s, p, d, sums); HasSegment(wire) && Timestamp(Segment(wire)) == Some((0, 0))
    ensures var stack := InPacket(Next(s, Out(p, d)), q, sums);
            HasSegment(stack) && Timestamp(Segment(stack)) == Some((5, 0))
  {
    WireTimestamp(s, p, d, OutPacket(s, p, d, sums), port, sums);
    DressedTimestamp(s, Segment(p));
    assert LINUX.layout[2] == Ts;
    assert OffsetOf(s, port) == 0xFFFF_FFFF;
    assert WrapAdd32(1, 0xFFFF_FFFF) == 0 && WrapAdd32(5, 0) == 5;
    StepFlow(s, Out(p, d), port);
    InShape(Next(s, Out(p, d)), q, sums);
  }
}
