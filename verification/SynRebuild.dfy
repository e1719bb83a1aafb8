/** Rewriting a SYN for a persona: which of its options are printed, in which places, under what
    header, and what a reader makes of the result. */
module SynRebuild {
  import opened Wrappers
  import opened Bytes
  import opened TcpOptions

  datatype Os = Windows | MacOs | Linux

  /** One place of an option layout. */
  datatype Slot = Mss | Pad | Ws | Sok | Ts | Eol

  datatype SynWindow = Fixed(w: u16) | MssMultiple

  datatype IpId = Zero | Global | PerFlow

  datatype Shape = Shape(ttl: byte, window: SynWindow, layout: seq<Slot>, ipId: IpId)

  const WINDOWS: Shape := Shape(128, Fixed(65535), [Mss, Pad, Ws, Pad, Pad, Sok], Global)
  const MACOS: Shape := Shape(64, Fixed(65535), [Mss, Pad, Ws, Pad, Pad, Ts, Sok, Eol], Zero)
  const LINUX: Shape := Shape(64, MssMultiple, [Mss, Sok, Ts, Pad, Ws], PerFlow)

  function ShapeOf(os: Os): Shape {
    match os
    case Windows => WINDOWS
    case MacOs => MACOS
    case Linux => LINUX
  }

  /** Whether the system offers timestamps. */
  predicate Timestamps(os: Os) {
    Ts in ShapeOf(os).layout
  }

  /** The first segment of a connection this side opens. */
  predicate IsSyn(tcp: seq<byte>)
    requires IsSegment(tcp)
  {
    tcp[13] / 2 % 2 == 1 && tcp[13] / 16 % 2 == 0
  }

  // ----- what is printed -----

  function Sized(body: Option<seq<byte>>, n: nat): Option<seq<byte>> {
    if body.Some? && |body.value| == n then body else None
  }

  /** The body a slot takes from the list: the first option of its kind, and for MSS and timestamps
      only one of the right size. */
  function Taken(slot: Slot, opts: seq<Opt>): Option<seq<byte>> {
    match slot
    case Mss => Sized(First(opts, 2), 2)
    case Ws => First(opts, 3)
    case Sok => if First(opts, 4).Some? then Some([]) else None
    case Ts => Sized(First(opts, 8), 8)
    case Pad => None
    case Eol => None
  }

  function KindOf(slot: Slot): byte {
    match slot
    case Mss => 2
    case Ws => 3
    case Sok => 4
    case Ts => 8
    case Pad => 1
    case Eol => 0
  }

  /** The length octet a slot writes. */
  function LenOf(slot: Slot): byte {
    match slot
    case Mss => 4
    case Ws => 3
    case Sok => 2
    case Ts => 10
    case Pad => 1
    case Eol => 1
  }

  function Zeros(n: nat): (z: seq<byte>)
    ensures |z| == n && forall k | 0 <= k < n :: z[k] == 0
  {
    seq(n, _ => 0)
  }

  /** How many octets a length lacks to be a multiple of four. */
  function Short(len: nat): nat {
    (4 - len % 4) % 4
  }

  /** What a slot prints at an offset. */
  function Piece(slot: Slot, opts: seq<Opt>, at: nat): seq<byte> {
    match slot
    case Pad => [1]
    case Eol => [0] + Zeros(Short(at + 1))
    case _ =>
      match Taken(slot, opts)
      case None => []
      case Some(body) => [KindOf(slot), LenOf(slot)] + body
  }

  function Laid(layout: seq<Slot>, opts: seq<Opt>, at: nat): seq<byte> {
    if layout == [] then []
    else
      var piece := Piece(layout[0], opts, at);
      piece + Laid(layout[1..], opts, at + |piece|)
  }

  function LaidOut(layout: seq<Slot>, opts: seq<Opt>): (s: seq<byte>)
    ensures (20 + |s|) % 4 == 0
  {
    var laid := Laid(layout, opts, 20);
    laid + Zeros(Short(20 + |laid|))
  }

  /** The last multiple of m that fits sixteen bits. */
  function MultipleOf(m: u16): (w: u16)
    requires m > 0
    ensures w % m == 0 && w + m > 65535
  {
    assert 65535 / m * m <= 65535;
    65535 / m * m
  }

  function MssOf(opts: seq<Opt>): Option<u16> {
    match Taken(Mss, opts)
    case None => None
    case Some(b) => Some(Be16(b[0], b[1]))
  }

  function Min(a: u16, b: u16): u16 {
    if a < b then a else b
  }

  function WindowOf(window: SynWindow, mss: Option<u16>, offered: u16): u16 {
    match window
    case Fixed(w) => Min(w, offered)
    case MssMultiple => if mss.Some? && mss.value > 0 then Min(MultipleOf(mss.value), offered) else offered
  }

  function Offered(tcp: seq<byte>): u16
    requires IsSegment(tcp)
  {
    Be16(tcp[14], tcp[15])
  }

  /** The data-offset octet: the length in words shifted up in eight bits, and the low nibble. */
  function OffsetOctet(len: nat, was: byte): byte {
    (len / 4 % 256 * 16 % 256) as byte + was % 16
  }

  function Header(tcp: seq<byte>, len: nat, window: u16): (h: seq<byte>)
    requires IsSegment(tcp)
    ensures |h| == 20
  {
    tcp[..12] + [OffsetOctet(len, tcp[12]), tcp[13]] + Be16Bytes(window) + [0, 0] + tcp[18..20]
  }

  /** The SYN as the shape has it: twenty octets of header, then the slots in order. */
  function Rebuild(tcp: seq<byte>, shape: Shape): (r: seq<byte>)
    requires IsSegment(tcp)
    ensures IsSegment(r)
  {
    var opts := Options(tcp);
    var laid := LaidOut(shape.layout, opts);
    Header(tcp, 20 + |laid|, WindowOf(shape.window, MssOf(opts), Offered(tcp))) + laid
  }

  // ----- the printer -----

  method RebuildSyn(tcp: seq<byte>, shape: Shape) returns (out: seq<byte>)
    requires IsSegment(tcp)
    ensures out == Rebuild(tcp, shape)
  {
    var opts := ListOptions(tcp);
    var laid := PrintOptions(shape.layout, opts);
    var window := WindowOf(shape.window, MssOf(opts), Be16(tcp[14], tcp[15]));
    out := tcp[..20] + laid;
    var octet := (|out| / 4 % 256 * 16 % 256) as byte + out[12] % 16;
    assert octet == OffsetOctet(20 + |laid|, tcp[12]);
    var w := Be16Bytes(window);
    Patched(tcp, laid, octet, w);
    out := out[12 := octet][14 := w[0]][15 := w[1]][16 := 0][17 := 0];
  }

  lemma Patched(tcp: seq<byte>, laid: seq<byte>, octet: byte, w: seq<byte>)
    requires IsSegment(tcp) && |w| == 2
    ensures (tcp[..20] + laid)[12 := octet][14 := w[0]][15 := w[1]][16 := 0][17 := 0]
         == tcp[..12] + [octet, tcp[13]] + w + [0, 0] + tcp[18..20] + laid
  {
  }

  /** Prints the slots one after another and pads the end. */
  method PrintOptions(layout: seq<Slot>, opts: seq<Opt>) returns (out: seq<byte>)
    ensures out == LaidOut(layout, opts)
  {
    out := PrintSlots(layout, opts);
    out := PadOut(out);
  }

  method PrintSlots(layout: seq<Slot>, opts: seq<Opt>) returns (out: seq<byte>)
    ensures out == Laid(layout, opts, 20)
  {
    out := [];
    ghost var all := Laid(layout, opts, 20);
    ghost var rest := all;
    for i := 0 to |layout|
      invariant out + rest == all
      invariant rest == Laid(layout[i..], opts, 20 + |out|)
    {
      assert layout[i..][0] == layout[i] && layout[i..][1..] == layout[i + 1..];
      out, rest := PrintNext(layout[i], layout[i..], opts, out, rest);
    }
  }

  method PrintNext(slot: Slot, ghost left: seq<Slot>, opts: seq<Opt>, out: seq<byte>, ghost laid: seq<byte>)
    returns (next: seq<byte>, ghost rest: seq<byte>)
    requires left != [] && left[0] == slot && laid == Laid(left, opts, 20 + |out|)
    ensures next + rest == out + laid && rest == Laid(left[1..], opts, 20 + |next|)
  {
    rest := LaidStep(left, opts, out, Piece(slot, opts, 20 + |out|), laid);
    next := PrintSlot(slot, opts, out);
  }

  lemma LaidStep(layout: seq<Slot>, opts: seq<Opt>, out: seq<byte>, piece: seq<byte>, laid: seq<byte>)
    returns (rest: seq<byte>)
    requires layout != [] && piece == Piece(layout[0], opts, 20 + |out|) && laid == Laid(layout, opts, 20 + |out|)
    ensures rest == Laid(layout[1..], opts, 20 + |out + piece|) && out + laid == (out + piece) + rest
  {
    rest := Laid(layout[1..], opts, 20 + |out + piece|);
    assert laid == piece + rest;
    Associate(out, piece, rest);
  }

  lemma Associate(a: seq<byte>, b: seq<byte>, c: seq<byte>)
    ensures a + (b + c) == (a + b) + c
  {
  }

  method PrintSlot(slot: Slot, opts: seq<Opt>, out: seq<byte>) returns (r: seq<byte>)
    ensures r == out + Piece(slot, opts, 20 + |out|)
  {
    match slot {
      case Pad =>
        r := out + [1];
      case Eol =>
        r := PadOut(out + [0]);
      case _ =>
        var body := Taken(slot, opts);
        r := if body.Some? then out + ([KindOf(slot), LenOf(slot)] + body.value) else out;
    }
  }

  method PadOut(out: seq<byte>) returns (padded: seq<byte>)
    ensures padded == out + Zeros(Short(20 + |out|))
  {
    padded := out;
    assert out + Zeros(0) == out;
    while (20 + |padded|) % 4 != 0
      invariant padded + Zeros(Short(20 + |padded|)) == out + Zeros(Short(20 + |out|))
      decreases Short(20 + |padded|)
    {
      OneShorter(20 + |padded|);
      AddZero(padded, Short(20 + |padded| + 1));
      padded := padded + [0];
    }
    assert padded + Zeros(0) == padded;
  }

  lemma OneShorter(len: nat)
    requires len % 4 != 0
    ensures Short(len) == Short(len + 1) + 1
  {
  }

  lemma AddZero(s: seq<byte>, n: nat)
    ensures s + Zeros(n + 1) == s + [0] + Zeros(n)
  {
  }

  // ----- what the options of a rebuilt SYN are -----

  /** The options a layout asks for, as the list has them: in each place the first option of its
      kind, with the body it has there. */
  function Ordered(layout: seq<Slot>, opts: seq<Opt>): seq<Opt> {
    if layout == [] then [] else FirstOf(layout[0], opts) + Ordered(layout[1..], opts)
  }

  function FirstOf(slot: Slot, opts: seq<Opt>): seq<Opt> {
    if slot == Pad || slot == Eol || First(opts, KindOf(slot)).None? then []
    else [Opt(KindOf(slot), First(opts, KindOf(slot)).value)]
  }

  /** The octets the standards give the body of a slot's option. */
  function BodySize(slot: Slot): nat {
    match slot
    case Mss => 2
    case Ws => 1
    case Ts => 8
    case _ => 0
  }

  /** The first option of the slot's kind, if there is one, has a body of that size. */
  predicate SlotFits(slot: Slot, opts: seq<Opt>) {
    slot != Pad && slot != Eol && First(opts, KindOf(slot)).Some? ==>
      |First(opts, KindOf(slot)).value| == BodySize(slot)
  }

  predicate Fits(layout: seq<Slot>, opts: seq<Opt>) {
    forall slot <- layout :: SlotFits(slot, opts)
  }

  /** The options a layout takes from the list, with what is printed as their bodies. */
  function Restricted(layout: seq<Slot>, opts: seq<Opt>): seq<Opt> {
    if layout == [] then [] else Held(layout[0], opts) + Restricted(layout[1..], opts)
  }

  /** The option a slot prints, when it takes one. */
  function Held(slot: Slot, opts: seq<Opt>): seq<Opt> {
    var body := Taken(slot, opts);
    if body.Some? then [Opt(KindOf(slot), body.value)] else []
  }

  /** Only the last slot ends the list. */
  predicate EndsLast(layout: seq<Slot>) {
    |layout| > 1 ==> layout[0] != Eol && EndsLast(layout[1..])
  }

  /** The window-scale option, if there is one, has the one octet its printed length promises. */
  predicate ScaleFits(opts: seq<Opt>) {
    First(opts, 3).Some? ==> |First(opts, 3).value| == 1
  }

  lemma ScanZeros(r: seq<byte>, at: nat, end: nat, n: nat)
    requires end <= |r| && at <= |r| && r[at..] == Zeros(n)
    ensures Scan(r, at, end) == []
  {
    if at < end {
      assert r[at] == r[at..][0];
      assert TokenAt(r, at, end) == Stop;
    }
  }

  /** The first piece of a layout, and what follows it. */
  lemma FirstPiece(r: seq<byte>, at: nat, layout: seq<Slot>, opts: seq<Opt>, n: nat, piece: seq<byte>)
    requires layout != [] && piece == Piece(layout[0], opts, at)
    requires at <= |r| && r[at..] == Laid(layout, opts, at) + Zeros(n)
    ensures at + |piece| <= |r| && r[at..at + |piece|] == piece
    ensures r[at + |piece|..] == Laid(layout[1..], opts, at + |piece|) + Zeros(n)
  {
    var rest := Laid(layout[1..], opts, at + |piece|);
    Associate(piece, rest, Zeros(n));
    assert r[at..] == piece + (rest + Zeros(n));
    assert r[at..at + |piece|] == r[at..][..|piece|];
    assert r[at + |piece|..] == r[at..][|piece|..];
  }

  /** Reading back one printed option. */
  lemma ReadOption(r: seq<byte>, at: nat, end: nat, kind: byte, len: byte, body: seq<byte>)
    requires at + 2 + |body| <= |r| && at < end <= |r|
    requires r[at..at + 2 + |body|] == [kind, len] + body
    requires kind > 1 && len as nat >= 2
    ensures TokenAt(r, at, end) == if at + len as nat > end then Stop else Item(len as nat)
    ensures len as nat == 2 + |body| && at + len as nat <= end ==> OptAt(r, at, len as nat) == Opt(kind, body)
  {
    var s := r[at..at + 2 + |body|];
    assert r[at] == s[0] == kind && r[at + 1] == s[1] == len;
    assert r[at + 2..at + 2 + |body|] == s[2..] == body;
  }

  /** Printed options read back as the layout restricted to what the list has. */
  lemma {:induction false} ReadBack(r: seq<byte>, at: nat, layout: seq<Slot>, opts: seq<Opt>, n: nat)
    requires at <= |r| && r[at..] == Laid(layout, opts, at) + Zeros(n)
    requires EndsLast(layout) && ScaleFits(opts)
    ensures Scan(r, at, |r|) == Restricted(layout, opts)
    decreases |layout|
  {
    if layout == [] {
      assert r[at..] == Zeros(n);
      ScanZeros(r, at, |r|, n);
    } else {
      var next := ReadSlot(r, at, layout, opts, n);
      if layout[0] != Eol {
        ReadBack(r, next, layout[1..], opts, n);
      }
    }
  }

  /** What the scanner does at the first slot of a layout. */
  lemma ReadSlot(r: seq<byte>, at: nat, layout: seq<Slot>, opts: seq<Opt>, n: nat) returns (next: nat)
    requires at <= |r| && r[at..] == Laid(layout, opts, at) + Zeros(n)
    requires layout != [] && EndsLast(layout) && ScaleFits(opts)
    ensures layout[0] == Eol ==> Scan(r, at, |r|) == [] == Restricted(layout, opts)
    ensures layout[0] != Eol ==>
              && next <= |r| && r[next..] == Laid(layout[1..], opts, next) + Zeros(n) && EndsLast(layout[1..])
              && (Scan(r, next, |r|) == Restricted(layout[1..], opts) ==> Scan(r, at, |r|) == Restricted(layout, opts))
  {
    var piece := Piece(layout[0], opts, at);
    next := at + |piece|;
    FirstPiece(r, at, layout, opts, n, piece);
    if layout[0] == Eol {
      assert layout[1..] == [] && Restricted(layout[1..], opts) == [];
      ReadEol(r, at, |r|, opts, piece);
    } else {
      ReadPiece(r, at, layout[0], opts, piece, Scan(r, next, |r|));
    }
  }

  lemma ReadEol(r: seq<byte>, at: nat, end: nat, opts: seq<Opt>, piece: seq<byte>)
    requires piece == Piece(Eol, opts, at) && at + |piece| <= |r| && r[at..at + |piece|] == piece && at < end <= |r|
    ensures Scan(r, at, end) == []
  {
    assert r[at] == r[at..at + |piece|][0] == 0;
    assert TokenAt(r, at, end) == Stop;
  }

  lemma ReadPiece(r: seq<byte>, at: nat, slot: Slot, opts: seq<Opt>, piece: seq<byte>, rest: seq<Opt>)
    requires slot != Eol && piece == Piece(slot, opts, at) && at + |piece| <= |r|
    requires r[at..at + |piece|] == piece
    requires ScaleFits(opts) && Scan(r, at + |piece|, |r|) == rest
    ensures Scan(r, at, |r|) == Held(slot, opts) + rest
  {
    var body := Taken(slot, opts);
    if slot == Pad {
      assert r[at] == r[at..at + |piece|][0] == 1;
      assert TokenAt(r, at, |r|) == Nop;
    } else if body.Some? {
      assert |body.value| + 2 == LenOf(slot) as nat;
      ReadOption(r, at, |r|, KindOf(slot), LenOf(slot), body.value);
    }
  }

  /** The first window scale read back from a printed layout has one octet, whatever was printed and
      wherever the header is taken to end. */
  lemma {:induction false} ScaleReadBack(r: seq<byte>, at: nat, end: nat, layout: seq<Slot>, opts: seq<Opt>, n: nat)
    requires at <= |r| && end <= |r| && r[at..] == Laid(layout, opts, at) + Zeros(n)
    requires Ws in layout && EndsLast(layout) && First(opts, 3).Some?
    ensures ScaleFits(Scan(r, at, end))
    decreases |layout|
  {
    if at < end {
      var slot := layout[0];
      var piece := Piece(slot, opts, at);
      FirstPiece(r, at, layout, opts, n, piece);
      if slot == Ws {
        ScaleHere(r, at, end, opts, piece);
      } else {
        ScaleReadBack(r, at + |piece|, end, layout[1..], opts, n);
        ScaleLater(r, at, end, slot, opts, piece);
      }
    }
  }

  lemma ScaleHere(r: seq<byte>, at: nat, end: nat, opts: seq<Opt>, piece: seq<byte>)
    requires piece == Piece(Ws, opts, at) && at + |piece| <= |r| && at < end <= |r| && r[at..at + |piece|] == piece
    requires First(opts, 3).Some?
    ensures ScaleFits(Scan(r, at, end))
  {
    var body := Taken(Ws, opts).value;
    assert piece == [3, 3] + body;
    ReadOption(r, at, end, 3, 3, body);
    if at + 3 <= end {
      FirstCons([OptAt(r, at, 3)], Scan(r, at + 3, end), 3);
    }
  }

  lemma ScaleLater(r: seq<byte>, at: nat, end: nat, slot: Slot, opts: seq<Opt>, piece: seq<byte>)
    requires slot != Eol && slot != Ws && piece == Piece(slot, opts, at) && at + |piece| <= |r| && at < end <= |r|
    requires r[at..at + |piece|] == piece && ScaleFits(Scan(r, at + |piece|, end))
    ensures ScaleFits(Scan(r, at, end))
  {
    var body := Taken(slot, opts);
    if slot == Pad {
      assert r[at] == r[at..at + |piece|][0] == 1;
      assert TokenAt(r, at, end) == Nop;
    } else if body.Some? {
      assert |body.value| + 2 == LenOf(slot) as nat;
      assert piece == [KindOf(slot), LenOf(slot)] + body.value;
      ReadOption(r, at, end, KindOf(slot), LenOf(slot), body.value);
      if at + LenOf(slot) as nat <= end {
        FirstCons([Opt(KindOf(slot), body.value)], Scan(r, at + |piece|, end), 3);
      }
    }
  }

  // ----- what a layout asks for, and what it gets -----

  lemma FirstCons(a: seq<Opt>, rest: seq<Opt>, kind: byte)
    requires |a| <= 1
    ensures First(a + rest, kind) == if a != [] && a[0].kind == kind then Some(a[0].body) else First(rest, kind)
  {
    if a == [] {
      assert a + rest == rest;
    } else {
      assert (a + rest)[1..] == rest;
    }
  }

  /** A layout that asks for a kind asks for the first option of that kind there is. */
  lemma {:induction false} OrderedHolds(layout: seq<Slot>, opts: seq<Opt>, slot: Slot)
    requires slot != Pad && slot != Eol
    ensures First(Ordered(layout, opts), KindOf(slot)) == if slot in layout then First(opts, KindOf(slot)) else None
    decreases |layout|
  {
    if layout != [] {
      FirstCons(FirstOf(layout[0], opts), Ordered(layout[1..], opts), KindOf(slot));
      OrderedHolds(layout[1..], opts, slot);
    }
  }

  /** What is printed of a kind is the first option of that kind there was: an MSS or timestamps only
      of the right size, a window scale of any size, and SACK-permitted without the body it may have had. */
  lemma {:induction false} RestrictedHolds(layout: seq<Slot>, opts: seq<Opt>, slot: Slot)
    requires slot in layout && slot != Pad && slot != Eol
    ensures First(Restricted(layout, opts), KindOf(slot)) == Taken(slot, opts)
    decreases |layout|
  {
    FirstCons(Held(layout[0], opts), Restricted(layout[1..], opts), KindOf(slot));
    if slot in layout[1..] {
      RestrictedHolds(layout[1..], opts, slot);
    } else if Taken(slot, opts).None? {
      NotHeld(layout[1..], opts, slot);
    }
  }

  lemma {:induction false} NotHeld(layout: seq<Slot>, opts: seq<Opt>, slot: Slot)
    requires slot !in layout && slot != Pad && slot != Eol
    ensures First(Restricted(layout, opts), KindOf(slot)) == None
    decreases |layout|
  {
    if layout != [] {
      FirstCons(Held(layout[0], opts), Restricted(layout[1..], opts), KindOf(slot));
      NotHeld(layout[1..], opts, slot);
    }
  }

  lemma {:induction false} FittingIsOrdered(layout: seq<Slot>, opts: seq<Opt>)
    requires Fits(layout, opts)
    ensures Restricted(layout, opts) == Ordered(layout, opts)
    decreases |layout|
  {
    if layout != [] {
      assert SlotFits(layout[0], opts);
      FittingIsOrdered(layout[1..], opts);
    }
  }

  /** A slot whose option does not fit takes something else, for another size than a window scale's. */
  lemma OrderedFits(layout: seq<Slot>, opts: seq<Opt>)
    requires Restricted(layout, opts) == Ordered(layout, opts) && ScaleFits(opts)
    ensures Fits(layout, opts)
  {
    forall slot | slot in layout ensures SlotFits(slot, opts) {
      if slot != Pad && slot != Eol {
        RestrictedHolds(layout, opts, slot);
        OrderedHolds(layout, opts, slot);
      }
    }
  }

  // ----- the theorems -----

  /** At most this much is printed for a layout when the window-scale body has at most so many
      octets. */
  function Budget(layout: seq<Slot>, scale: nat): nat {
    if layout == [] then 0
    else
      (match layout[0] case Eol => 4 case Ws => 2 + scale case _ => LenOf(layout[0]) as nat)
          + Budget(layout[1..], scale)
  }

  predicate ScaleWithin(opts: seq<Opt>, scale: nat) {
    First(opts, 3).Some? ==> |First(opts, 3).value| <= scale
  }

  lemma {:induction false} WithinBudget(layout: seq<Slot>, opts: seq<Opt>, at: nat, scale: nat)
    requires ScaleWithin(opts, scale)
    ensures |Laid(layout, opts, at)| <= Budget(layout, scale)
    decreases |layout|
  {
    if layout != [] {
      WithinBudget(layout[1..], opts, at + |Piece(layout[0], opts, at)|, scale);
    }
  }

  /** No option is longer than a header has room for. */
  lemma {:induction false} OptionsShort(r: seq<byte>, at: nat, end: nat)
    requires 20 <= at && end <= |r| && end <= 60
    ensures forall o <- Scan(r, at, end) :: |o.body| <= 38
    decreases end - at
  {
    if at < end {
      match TokenAt(r, at, end) {
        case Stop =>
        case Nop => OptionsShort(r, at + 1, end);
        case Item(len) => OptionsShort(r, at + len, end);
      }
    }
  }

  lemma {:induction false} FirstIsThere(opts: seq<Opt>, kind: byte)
    ensures First(opts, kind).Some? ==> Opt(kind, First(opts, kind).value) in opts
    decreases |opts|
  {
    if opts != [] && opts[0].kind != kind {
      FirstIsThere(opts[1..], kind);
    }
  }

  lemma ScaleShort(tcp: seq<byte>)
    requires IsSegment(tcp)
    ensures ScaleWithin(Options(tcp), 38)
  {
    OptionsShort(tcp, 20, DataEnd(tcp));
    FirstIsThere(Options(tcp), 3);
  }

  lemma {:induction false} NoEolBefore(layout: seq<Slot>)
    requires forall i | 0 <= i < |layout| - 1 :: layout[i] != Eol
    ensures EndsLast(layout)
    decreases |layout|
  {
    if |layout| > 1 {
      NoEolBefore(layout[1..]);
    }
  }

  lemma Layouts(os: Os)
    ensures var layout := ShapeOf(os).layout; EndsLast(layout) && Ws in layout && Mss in layout
  {
    var layout := ShapeOf(os).layout;
    assert layout[0] == Mss;
    assert layout[2] == Ws || layout[4] == Ws;
    NoEolBefore(layout);
  }

  lemma PermissionIn(os: Os)
    ensures Sok in ShapeOf(os).layout
  {
    match os {
      case Windows => assert WINDOWS.layout[5] == Sok;
      case MacOs => assert MACOS.layout[6] == Sok;
      case Linux => assert LINUX.layout[1] == Sok;
    }
  }

  lemma {:induction false} BudgetCat(a: seq<Slot>, b: seq<Slot>, scale: nat)
    ensures Budget(a + b, scale) == Budget(a, scale) + Budget(b, scale)
    decreases |a|
  {
    if a == [] {
      assert a + b == b;
    } else {
      assert (a + b)[1..] == a[1..] + b;
      BudgetCat(a[1..], b, scale);
    }
  }

  lemma BudgetOf(slot: Slot, scale: nat)
    ensures Budget([slot], scale) == match slot case Eol => 4 case Ws => 2 + scale case _ => LenOf(slot) as nat
  {
    assert [slot][1..] == [];
  }

  /** What the layouts of Windows and macOS begin with. */
  lemma FrontBudget(scale: nat)
    ensures Budget([Mss, Pad, Ws, Pad, Pad], scale) == 9 + scale
  {
    BudgetOf(Pad, scale);
    BudgetCat([Pad], [Pad], scale);
    BudgetOf(Ws, scale);
    BudgetCat([Ws], [Pad, Pad], scale);
    BudgetCat([Pad], [Ws, Pad, Pad], scale);
    BudgetOf(Mss, scale);
    BudgetCat([Mss], [Pad, Ws, Pad, Pad], scale);
  }

  lemma TailBudget(scale: nat)
    ensures Budget([Ts, Sok, Eol], scale) == 16
  {
    BudgetOf(Eol, scale);
    BudgetOf(Sok, scale);
    BudgetCat([Sok], [Eol], scale);
    BudgetOf(Ts, scale);
    BudgetCat([Ts], [Sok, Eol], scale);
  }

  lemma LinuxBudget(scale: nat)
    ensures Budget(LINUX.layout, scale) == 19 + scale
  {
    BudgetOf(Ws, scale);
    BudgetOf(Pad, scale);
    BudgetCat([Pad], [Ws], scale);
    BudgetOf(Ts, scale);
    BudgetCat([Ts], [Pad, Ws], scale);
    BudgetOf(Sok, scale);
    BudgetCat([Sok], [Ts, Pad, Ws], scale);
    BudgetOf(Mss, scale);
    BudgetCat([Mss], [Sok, Ts, Pad, Ws], scale);
    assert LINUX.layout == [Mss] + [Sok, Ts, Pad, Ws];
  }

  lemma Budgets(os: Os, scale: nat)
    ensures Budget(ShapeOf(os).layout, scale) <= 25 + scale
  {
    FrontBudget(scale);
    BudgetOf(Sok, scale);
    match os {
      case Windows =>
        BudgetCat([Mss, Pad, Ws, Pad, Pad], [Sok], scale);
        assert [Mss, Pad, Ws, Pad, Pad] + [Sok] == WINDOWS.layout;
      case MacOs =>
        TailBudget(scale);
        BudgetCat([Mss, Pad, Ws, Pad, Pad], [Ts, Sok, Eol], scale);
        assert [Mss, Pad, Ws, Pad, Pad] + [Ts, Sok, Eol] == MACOS.layout;
      case Linux =>
        LinuxBudget(scale);
    }
  }

  lemma LaidShort(os: Os, opts: seq<Opt>, scale: nat)
    requires ScaleWithin(opts, scale)
    ensures |LaidOut(ShapeOf(os).layout, opts)| <= 28 + scale
  {
    Budgets(os, scale);
    WithinBudget(ShapeOf(os).layout, opts, 20, scale);
  }

  /** Shifting left by four in eight bits keeps the low nibble only. */
  lemma LowNibble(words: nat)
    ensures words % 256 * 16 % 256 == words % 16 * 16
  {
    var a := words % 256;
    assert a * 16 == 256 * (a / 16) + 16 * (a % 16);
    assert a % 16 == words % 16;
  }

  lemma Nibbles(high: nat, low: nat)
    requires high < 16 && low < 16
    ensures (high * 16 + low) / 16 == high && (high * 16 + low) % 16 == low
  {
  }

  lemma WordsLeft(len: nat)
    requires len % 4 == 0
    ensures len / 4 % 16 * 4 == len % 64
  {
    assert len == 64 * (len / 64) + len % 64;
  }

  lemma OffsetReads(len: nat, was: byte)
    requires len % 4 == 0
    ensures (OffsetOctet(len, was) / 16) as nat * 4 == len % 64
    ensures OffsetOctet(len, was) % 16 == was % 16
  {
    LowNibble(len / 4);
    Nibbles(len / 4 % 16, was as nat % 16);
    WordsLeft(len);
  }

  lemma DataEndSays(r: seq<byte>)
    requires IsSegment(r) && (r[12] / 16) as nat * 4 == |r| % 64
    ensures DataEnd(r) == |r| <==> |r| < 64
  {
  }

  /** The options of a rebuilt SYN are those the system's layout asks for, with the bodies they had,
      exactly when the first option of every kind in that layout has the size the standards give it:
      two octets for the MSS, one for the window scale, none for SACK-permitted, eight for timestamps. */
  lemma RebuiltOptions(tcp: seq<byte>, os: Os)
    requires IsSegment(tcp)
    ensures Options(Rebuild(tcp, ShapeOf(os))) == Ordered(ShapeOf(os).layout, Options(tcp)) <==>
            Fits(ShapeOf(os).layout, Options(tcp))
  {
    var layout := ShapeOf(os).layout;
    var opts := Options(tcp);
    Layouts(os);
    RebuiltScale(tcp, os);
    OrderedHolds(layout, opts, Ws);
    if ScaleFits(opts) {
      RebuiltChosen(tcp, os);
      if Fits(layout, opts) {
        FittingIsOrdered(layout, opts);
      } else if Restricted(layout, opts) == Ordered(layout, opts) {
        OrderedFits(layout, opts);
      }
    } else {
      assert !SlotFits(Ws, opts);
    }
  }

  /** Read back, a rebuilt SYN never has a window scale of another size. */
  lemma RebuiltScale(tcp: seq<byte>, os: Os)
    requires IsSegment(tcp)
    ensures ScaleFits(Options(Rebuild(tcp, ShapeOf(os))))
  {
    var layout := ShapeOf(os).layout;
    var opts := Options(tcp);
    var r := Rebuild(tcp, ShapeOf(os));
    var laid := Laid(layout, opts, 20);
    Layouts(os);
    assert r[20..] == laid + Zeros(Short(20 + |laid|));
    if First(opts, 3).Some? {
      ScaleReadBack(r, 20, DataEnd(r), layout, opts, Short(20 + |laid|));
    } else {
      RebuiltChosen(tcp, os);
      RestrictedHolds(layout, opts, Ws);
    }
  }

  /** The options of a rebuilt SYN are what the slots took, exactly when the window scale has the one
      octet of section 2.2 of RFC 7323: the printer copies its body but always writes a length of
      three. */
  lemma RebuiltChosen(tcp: seq<byte>, os: Os)
    requires IsSegment(tcp)
    ensures Options(Rebuild(tcp, ShapeOf(os))) == Restricted(ShapeOf(os).layout, Options(tcp)) <==>
            ScaleFits(Options(tcp))
  {
    var layout := ShapeOf(os).layout;
    var opts := Options(tcp);
    var r := Rebuild(tcp, ShapeOf(os));
    var laid := Laid(layout, opts, 20);
    Layouts(os);
    assert r[20..] == laid + Zeros(Short(20 + |laid|));
    if ScaleFits(opts) {
      RebuiltHeader(tcp, os);
      assert DataEnd(r) == |r|;
      ReadBack(r, 20, layout, opts, Short(20 + |laid|));
    } else {
      ScaleReadBack(r, 20, DataEnd(r), layout, opts, Short(20 + |laid|));
      RestrictedHolds(layout, opts, Ws);
    }
  }

  lemma EmptyScale(tcp: seq<byte>)
    requires |tcp| == 24 && tcp[12] == 96 && tcp[20..] == [3, 2, 0, 0]
    ensures Options(tcp) == [Opt(3, [])]
  {
    assert tcp[20] == 3 && tcp[21] == 2 && tcp[22] == 0;
    assert TokenAt(tcp, 20, 24) == Item(2);
    assert OptAt(tcp, 20, 2) == Opt(3, []);
    assert Scan(tcp, 22, 24) == [];
    assert Options(tcp) == [Opt(3, [])] + [];
  }

  /** A SYN with four octets of options. */
  lemma SynWith(tail: seq<byte>) returns (tcp: seq<byte>)
    requires |tail| == 4
    ensures IsSegment(tcp) && IsSyn(tcp) && |tcp| == 24 && tcp[12] == 96 && tcp[20..] == tail
  {
    tcp := Zeros(12) + [96, 2] + Zeros(6) + tail;
  }

  lemma ScalelessSyn() returns (tcp: seq<byte>)
    ensures IsSegment(tcp) && IsSyn(tcp) && Options(tcp) == [Opt(3, [])] && !ScaleFits(Options(tcp))
  {
    tcp := SynWith([3, 2, 0, 0]);
    EmptyScale(tcp);
    FirstAlone(3, []);
  }

  lemma FirstAlone(kind: byte, body: seq<byte>)
    ensures forall k: byte :: First([Opt(kind, body)], k) == if k == kind then Some(body) else None
  {
    var o := [Opt(kind, body)];
    assert o + [] == o;
    forall k: byte ensures First(o, k) == if k == kind then Some(body) else None {
      FirstCons(o, [], k);
    }
  }

  /** Such a SYN exists, whatever the system: a window-scale option with no body at all. */
  lemma SomeScaleIsLost(os: Os) returns (tcp: seq<byte>)
    ensures IsSegment(tcp) && IsSyn(tcp)
    ensures Options(Rebuild(tcp, ShapeOf(os))) != Ordered(ShapeOf(os).layout, Options(tcp))
  {
    tcp := ScalelessSyn();
    UnfitIsLost(tcp, os, Ws);
  }

  lemma UnfitIsLost(tcp: seq<byte>, os: Os, slot: Slot)
    requires IsSegment(tcp) && slot in ShapeOf(os).layout && !SlotFits(slot, Options(tcp))
    ensures Options(Rebuild(tcp, ShapeOf(os))) != Ordered(ShapeOf(os).layout, Options(tcp))
  {
    RebuiltOptions(tcp, os);
  }

  lemma OddPermission(tcp: seq<byte>)
    requires |tcp| == 24 && tcp[12] == 96 && tcp[20..] == [4, 3, 7, 0]
    ensures Options(tcp) == [Opt(4, [7])]
  {
    assert tcp[20] == 4 && tcp[21] == 3 && tcp[23] == 0;
    assert TokenAt(tcp, 20, 24) == Item(3);
    assert tcp[22..23] == tcp[20..][2..3] == [7];
    assert OptAt(tcp, 20, 3) == Opt(4, [7]);
    assert Scan(tcp, 23, 24) == [];
    assert Options(tcp) == [Opt(4, [7])] + [];
  }

  /** And one whose SACK-permitted option has a body: the option is there again, without it. */
  lemma SomeBodyIsDropped(os: Os) returns (tcp: seq<byte>)
    ensures IsSegment(tcp) && IsSyn(tcp) && ScaleFits(Options(tcp))
    ensures First(Options(tcp), 4) == Some([7]) && First(Options(Rebuild(tcp, ShapeOf(os))), 4) == Some([])
    ensures Options(Rebuild(tcp, ShapeOf(os))) != Ordered(ShapeOf(os).layout, Options(tcp))
  {
    tcp := SynWith([4, 3, 7, 0]);
    OddPermission(tcp);
    FirstAlone(4, [7]);
    PermissionIn(os);
    UnfitIsLost(tcp, os, Sok);
    BodyIsDropped(tcp, os);
  }

  lemma BodyIsDropped(tcp: seq<byte>, os: Os)
    requires IsSegment(tcp) && ScaleFits(Options(tcp)) && First(Options(tcp), 4).Some?
    ensures First(Options(Rebuild(tcp, ShapeOf(os))), 4) == Some([])
  {
    PermissionIn(os);
    RebuiltChosen(tcp, os);
    RestrictedHolds(ShapeOf(os).layout, Options(tcp), Sok);
  }

  /** A rebuilt SYN's length is a multiple of four, at most 88 octets; the data offset says its length
      modulo 64, and so says it right exactly below 64 octets, which every SYN stays whose
      window-scale option has one octet. Nothing else of the header moves but window and checksum. */
  lemma RebuiltHeader(tcp: seq<byte>, os: Os)
    requires IsSegment(tcp)
    ensures var r := Rebuild(tcp, ShapeOf(os));
            && |r| % 4 == 0 && |r| <= 88 && (ScaleFits(Options(tcp)) ==> |r| <= 49)
            && (r[12] / 16) as nat * 4 == |r| % 64 && r[12] % 16 == tcp[12] % 16
            && (DataEnd(r) == |r| <==> |r| < 64)
            && r[..12] == tcp[..12] && r[13] == tcp[13] && r[16..18] == [0, 0] && r[18..20] == tcp[18..20]
  {
    var r := Rebuild(tcp, ShapeOf(os));
    RebuiltSize(tcp, os);
    RebuiltFront(tcp, ShapeOf(os), r);
    OffsetReads(|r|, tcp[12]);
    DataEndSays(r);
  }

  lemma RebuiltSize(tcp: seq<byte>, os: Os)
    requires IsSegment(tcp)
    ensures |Rebuild(tcp, ShapeOf(os))| <= 88
    ensures ScaleFits(Options(tcp)) ==> |Rebuild(tcp, ShapeOf(os))| <= 49
  {
    ScaleShort(tcp);
    LaidShort(os, Options(tcp), 38);
    if ScaleFits(Options(tcp)) {
      LaidShort(os, Options(tcp), 1);
    }
  }

  lemma RebuiltFront(tcp: seq<byte>, shape: Shape, r: seq<byte>)
    requires IsSegment(tcp) && r == Rebuild(tcp, shape)
    ensures |r| % 4 == 0 && r[12] == OffsetOctet(|r|, tcp[12])
    ensures r[..12] == tcp[..12] && r[13] == tcp[13] && r[16..18] == [0, 0] && r[18..20] == tcp[18..20]
  {
  }

  /** No greater multiple of m than w fits sixteen bits. */
  predicate LargestMultiple(w: u16, m: u16) {
    m > 0 && w % m == 0 && w + m > 65535
  }

  /** The window of a rebuilt SYN is never above the one offered; under Linux with an MSS it is the
      smaller of that and the greatest multiple of the MSS in sixteen bits, otherwise it is the one offered. */
  lemma RebuiltWindow(tcp: seq<byte>, os: Os)
    requires IsSegment(tcp)
    ensures var w := Offered(Rebuild(tcp, ShapeOf(os)));
            var mss := MssOf(Options(tcp));
            && w <= Offered(tcp)
            && (os == Linux && mss.Some? && mss.value > 0 ==>
                  exists top: u16 :: LargestMultiple(top, mss.value) && w == Min(top, Offered(tcp)))
            && (os != Linux || mss.None? || mss.value == 0 ==> w == Offered(tcp))
  {
    var shape := ShapeOf(os);
    var opts := Options(tcp);
    var window := WindowOf(shape.window, MssOf(opts), Offered(tcp));
    var r := Rebuild(tcp, shape);
    RebuiltOffer(tcp, shape, r);
    var mss := MssOf(opts);
    if os == Linux && mss.Some? && mss.value > 0 {
      assert LargestMultiple(MultipleOf(mss.value), mss.value);
    }
  }

  lemma TakenAgain(layout: seq<Slot>, opts: seq<Opt>, slot: Slot)
    requires slot in layout
    ensures Taken(slot, Restricted(layout, opts)) == Taken(slot, opts)
  {
    if slot != Pad && slot != Eol {
      RestrictedHolds(layout, opts, slot);
    }
  }

  lemma {:induction false} SameLaid(layout: seq<Slot>, a: seq<Opt>, b: seq<Opt>, at: nat)
    requires forall slot <- layout :: Taken(slot, a) == Taken(slot, b)
    ensures Laid(layout, a, at) == Laid(layout, b, at)
    decreases |layout|
  {
    if layout != [] {
      var piece := Piece(layout[0], a, at);
      SamePiece(layout[0], a, b, at);
      LaidNext(layout, a, at, piece);
      LaidNext(layout, b, at, piece);
      SameLaid(layout[1..], a, b, at + |piece|);
    }
  }

  lemma LaidNext(layout: seq<Slot>, opts: seq<Opt>, at: nat, piece: seq<byte>)
    requires layout != [] && piece == Piece(layout[0], opts, at)
    ensures Laid(layout, opts, at) == piece + Laid(layout[1..], opts, at + |piece|)
  {
    var rest := Laid(layout[1..], opts, at + |piece|);
    assert Laid(layout, opts, at) == piece + rest;
  }

  lemma SamePiece(slot: Slot, a: seq<Opt>, b: seq<Opt>, at: nat)
    requires Taken(slot, a) == Taken(slot, b)
    ensures Piece(slot, a, at) == Piece(slot, b, at)
  {
  }

  lemma RebuiltOffer(tcp: seq<byte>, shape: Shape, r: seq<byte>)
    requires IsSegment(tcp) && r == Rebuild(tcp, shape)
    ensures var mss := MssOf(Options(tcp));
            && Offered(r) == WindowOf(shape.window, mss, Offered(tcp))
            && WindowOf(shape.window, mss, Offered(r)) == Offered(r)
  {
    var window := WindowOf(shape.window, MssOf(Options(tcp)), Offered(tcp));
    assert r[14] == Be16Bytes(window)[0] && r[15] == Be16Bytes(window)[1];
  }

  lemma SameHeader(tcp: seq<byte>, r: seq<byte>, len: nat, window: u16)
    requires IsSegment(tcp) && IsSegment(r)
    requires r[..12] == tcp[..12] && r[12] % 16 == tcp[12] % 16 && r[13] == tcp[13] && r[18..20] == tcp[18..20]
    ensures Header(tcp, len, window) == Header(r, len, window)
  {
  }
}
