/** Rebuilding what was rebuilt: which SYNs come out of a second time as they came out of the first,
    system by system. */
module SynTwice {
  import opened Wrappers
  import opened Bytes
  import opened TcpOptions
  import opened SynRebuild

  /** The window-scale bodies a second rebuild keeps. Every system keeps none at all, and one octet.
      Windows keeps no other. Linux, whose layout ends with it, also keeps an empty one, and one or two
      zeros behind the octet where the padding would have put them. macOS takes what the body says of
      timestamps for an option of its own, where there was none and the rest happens to fill it. */
  predicate Settles(os: Os, opts: seq<Opt>) {
    ScaleFits(opts) ||
    var body := First(opts, 3).value;
    match os
    case Windows => false
    case Linux =>
      body == [] ||
      (|body| <= 3 && Taken(Sok, opts).Some? != Taken(Ts, opts).Some? && forall k | 1 <= k < |body| :: body[k] == 0)
    case MacOs =>
      && Taken(Ts, opts).None?
      && |body| >= 5 && body[1..5] == [1, 1, 8, 10]
      && (|body| == 11 || (|body| == 9 && Taken(Sok, opts).Some?))
  }

  // ----- when two rebuilds are one -----

  /** A list that is printed as another with a fitting window scale is read back as that one. */
  lemma ReadAs(tcp: seq<byte>, os: Os, like: seq<Opt>)
    requires IsSegment(tcp) && ScaleFits(like)
    requires LaidOut(ShapeOf(os).layout, like) == LaidOut(ShapeOf(os).layout, Options(tcp))
    ensures Options(Rebuild(tcp, ShapeOf(os))) == Restricted(ShapeOf(os).layout, like)
  {
    var layout := ShapeOf(os).layout;
    var r := Rebuild(tcp, ShapeOf(os));
    var laid := Laid(layout, like, 20);
    Layouts(os);
    LaidShort(os, like, 1);
    RebuiltHeader(tcp, os);
    assert r[20..] == laid + Zeros(Short(20 + |laid|));
    assert DataEnd(r) == |r|;
    ReadBack(r, 20, layout, like, Short(20 + |laid|));
  }

  lemma PrintedAs(os: Os, like: seq<Opt>)
    ensures LaidOut(ShapeOf(os).layout, Restricted(ShapeOf(os).layout, like)) == LaidOut(ShapeOf(os).layout, like)
  {
    var layout := ShapeOf(os).layout;
    forall slot | slot in layout ensures Taken(slot, Restricted(layout, like)) == Taken(slot, like) {
      TakenAgain(layout, like, slot);
    }
    SameLaid(layout, Restricted(layout, like), like, 20);
  }

  /** What the slot prints, wherever it stands. */
  function Word(slot: Slot, opts: seq<Opt>): (w: seq<byte>)
    requires slot != Eol
    ensures forall at: nat :: Piece(slot, opts, at) == w
  {
    Piece(slot, opts, 0)
  }

  lemma Prints(slot: Slot, rest: seq<Slot>, opts: seq<Opt>, at: nat, end: seq<byte>) returns (layout: seq<Slot>)
    requires slot != Eol && Laid(rest, opts, at + |Word(slot, opts)|) == end
    ensures layout == [slot] + rest && Laid(layout, opts, at) == Word(slot, opts) + end
  {
    layout := [slot] + rest;
    assert layout[1..] == rest;
    LaidNext(layout, opts, at, Word(slot, opts));
  }

  /** An option at the front, or none. */
  predicate Lead(w: seq<byte>, kind: byte, len: nat) {
    w == [] || (|w| == len && len > 0 && w[0] == kind)
  }

  predicate Follows(rest: seq<byte>, kind: byte) {
    rest != [] && rest[0] != kind
  }

  lemma Peel(a: seq<byte>, b: seq<byte>, x: seq<byte>, y: seq<byte>, kind: byte, len: nat)
    requires Lead(a, kind, len) && Lead(b, kind, len) && Follows(x, kind) && Follows(y, kind)
    requires a + x == b + y
    ensures a == b && x == y
  {
    assert a == [] ==> (a + x)[0] == x[0];
    assert b == [] ==> (b + y)[0] == y[0];
    assert a != [] ==> (a + x)[0] == a[0];
    assert b != [] ==> (b + y)[0] == b[0];
    assert |a| == |b|;
    assert a == (a + x)[..|a|] == (b + y)[..|b|] == b;
    assert x == (a + x)[|a|..] == (b + y)[|b|..] == y;
  }

  lemma Leads(opts: seq<Opt>)
    ensures Lead(Word(Mss, opts), 2, 4) && Lead(Word(Sok, opts), 4, 2) && Lead(Word(Ts, opts), 8, 10)
    ensures Word(Sok, opts) != [] ==> Word(Sok, opts) == [4, 2]
    ensures Word(Ts, opts) != [] ==> Word(Ts, opts)[1] == 10
    ensures Word(Pad, opts) == [1]
  {
  }

  // ----- what each system prints -----

  lemma PrintsLast(slot: Slot, opts: seq<Opt>, at: nat, w: seq<byte>) returns (layout: seq<Slot>)
    requires w == Piece(slot, opts, at)
    ensures layout == [slot] && Laid(layout, opts, at) == w
  {
    layout := [slot];
    assert layout[1..] == [];
    LaidNext(layout, opts, at, w);
    assert Laid([], opts, at + |w|) == [];
    assert w + [] == w;
  }

  lemma WindowsLayout()
    ensures WINDOWS.layout == [Mss] + ([Pad] + ([Ws] + ([Pad] + ([Pad] + [Sok]))))
  {
  }

  lemma WindowsTail(opts: seq<Opt>, at: nat, p: seq<byte>) returns (l: seq<Slot>)
    requires p == Word(Sok, opts)
    ensures l == [Pad] + ([Pad] + [Sok]) && Laid(l, opts, at) == [1] + ([1] + p)
  {
    l := PrintsLast(Sok, opts, at + 2, p);
    l := Prints(Pad, l, opts, at + 1, p);
    l := Prints(Pad, l, opts, at, [1] + p);
  }

  lemma WindowsLaid(opts: seq<Opt>, m: seq<byte>, w: seq<byte>, tail: seq<Slot>, end: seq<byte>)
    requires m == Word(Mss, opts) && w == Word(Ws, opts)
    requires tail == [Pad] + ([Pad] + [Sok]) && Laid(tail, opts, 21 + |m| + |w|) == end
    ensures Laid(WINDOWS.layout, opts, 20) == m + ([1] + (w + end))
  {
    var l := Prints(Ws, tail, opts, 21 + |m|, end);
    l := Prints(Pad, l, opts, 20 + |m|, w + end);
    l := Prints(Mss, l, opts, 20, [1] + (w + end));
    WindowsLayout();
  }

  lemma Regroup(m: seq<byte>, w: seq<byte>, p: seq<byte>, z: seq<byte>)
    ensures m + ([1] + (w + ([1] + ([1] + p)))) + z == m + ([1] + (w + ([1, 1] + (p + z))))
  {
  }

  lemma WindowsPrints(opts: seq<Opt>) returns (z: nat)
    ensures LaidOut(WINDOWS.layout, opts) ==
            Word(Mss, opts) + ([1] + (Word(Ws, opts) + ([1, 1] + (Word(Sok, opts) + Zeros(z)))))
  {
    var m, w, p := Word(Mss, opts), Word(Ws, opts), Word(Sok, opts);
    var tail := WindowsTail(opts, 21 + |m| + |w|, p);
    WindowsLaid(opts, m, w, tail, [1] + ([1] + p));
    z := Short(20 + |Laid(WINDOWS.layout, opts, 20)|);
    Regroup(m, w, p, Zeros(z));
  }

  lemma LinuxLayout()
    ensures LINUX.layout == [Mss] + ([Sok] + ([Ts] + ([Pad] + [Ws])))
  {
  }

  lemma LinuxLaid(opts: seq<Opt>, m: seq<byte>, p: seq<byte>, t: seq<byte>, w: seq<byte>)
    requires m == Word(Mss, opts) && p == Word(Sok, opts) && t == Word(Ts, opts) && w == Word(Ws, opts)
    ensures Laid(LINUX.layout, opts, 20) == m + (p + (t + ([1] + w)))
  {
    var l := PrintsLast(Ws, opts, 21 + |m| + |p| + |t|, w);
    l := Prints(Pad, l, opts, 20 + |m| + |p| + |t|, w);
    l := Prints(Ts, l, opts, 20 + |m| + |p|, [1] + w);
    l := Prints(Sok, l, opts, 20 + |m|, t + ([1] + w));
    l := Prints(Mss, l, opts, 20, p + (t + ([1] + w)));
    LinuxLayout();
  }

  lemma LinuxRegroup(m: seq<byte>, p: seq<byte>, t: seq<byte>, w: seq<byte>, z: seq<byte>)
    ensures m + (p + (t + ([1] + w))) + z == m + (p + (t + ([1] + (w + z))))
    ensures |m + (p + (t + ([1] + w)))| == |m| + |p| + |t| + 1 + |w|
  {
  }

  lemma LinuxPrints(opts: seq<Opt>) returns (z: nat)
    ensures LaidOut(LINUX.layout, opts) ==
            Word(Mss, opts) + (Word(Sok, opts) + (Word(Ts, opts) + ([1] + (Word(Ws, opts) + Zeros(z)))))
    ensures z == Short(21 + |Word(Mss, opts)| + |Word(Sok, opts)| + |Word(Ts, opts)| + |Word(Ws, opts)|)
  {
    var m, p, t, w := Word(Mss, opts), Word(Sok, opts), Word(Ts, opts), Word(Ws, opts);
    LinuxLaid(opts, m, p, t, w);
    z := Short(20 + |Laid(LINUX.layout, opts, 20)|);
    LinuxRegroup(m, p, t, w, Zeros(z));
  }

  lemma MacOsLayout()
    ensures MACOS.layout == [Mss] + ([Pad] + ([Ws] + ([Pad] + ([Pad] + ([Ts] + ([Sok] + [Eol]))))))
  {
  }

  lemma MacOsTail(opts: seq<Opt>, at: nat, t: seq<byte>, p: seq<byte>, e: seq<byte>) returns (l: seq<Slot>)
    requires t == Word(Ts, opts) && p == Word(Sok, opts) && e == Piece(Eol, opts, at + 2 + |t| + |p|)
    ensures l == [Pad] + ([Pad] + ([Ts] + ([Sok] + [Eol])))
    ensures Laid(l, opts, at) == [1] + ([1] + (t + (p + e)))
  {
    l := PrintsLast(Eol, opts, at + 2 + |t| + |p|, e);
    l := Prints(Sok, l, opts, at + 2 + |t|, e);
    l := Prints(Ts, l, opts, at + 2, p + e);
    l := Prints(Pad, l, opts, at + 1, t + (p + e));
    l := Prints(Pad, l, opts, at, [1] + (t + (p + e)));
  }

  lemma MacOsLaid(opts: seq<Opt>, m: seq<byte>, w: seq<byte>, tail: seq<Slot>, end: seq<byte>)
    requires m == Word(Mss, opts) && w == Word(Ws, opts)
    requires tail == [Pad] + ([Pad] + ([Ts] + ([Sok] + [Eol]))) && Laid(tail, opts, 21 + |m| + |w|) == end
    ensures Laid(MACOS.layout, opts, 20) == m + ([1] + (w + end))
  {
    var l := Prints(Ws, tail, opts, 21 + |m|, end);
    l := Prints(Pad, l, opts, 20 + |m|, w + end);
    l := Prints(Mss, l, opts, 20, [1] + (w + end));
    MacOsLayout();
  }

  lemma MacOsRegroup(m: seq<byte>, w: seq<byte>, t: seq<byte>, p: seq<byte>, e: seq<byte>)
    ensures m + ([1] + (w + ([1] + ([1] + (t + (p + e)))))) == m + ([1] + (w + ([1, 1] + (t + (p + e)))))
    ensures |m + ([1] + (w + ([1] + ([1] + (t + (p + e))))))| == |m| + |w| + |t| + |p| + |e| + 3
  {
  }

  lemma MacOsPrints(opts: seq<Opt>) returns (z: nat)
    ensures 1 <= z <= 4
    ensures LaidOut(MACOS.layout, opts) ==
            Word(Mss, opts) + ([1] + (Word(Ws, opts) + ([1, 1] + (Word(Ts, opts) + (Word(Sok, opts) + Zeros(z))))))
    ensures (23 + |Word(Mss, opts)| + |Word(Ws, opts)| + |Word(Ts, opts)| + |Word(Sok, opts)| + z) % 4 == 0
  {
    var m, w, t, p := Word(Mss, opts), Word(Ws, opts), Word(Ts, opts), Word(Sok, opts);
    var at := 23 + |m| + |w| + |t| + |p|;
    z := 1 + Short(at + 1);
    EolPiece(opts, at, z);
    var tail := MacOsTail(opts, 21 + |m| + |w|, t, p, Zeros(z));
    MacOsLaid(opts, m, w, tail, [1] + ([1] + (t + (p + Zeros(z)))));
    MacOsRegroup(m, w, t, p, Zeros(z));
    var laid := Laid(MACOS.layout, opts, 20);
    assert |laid| == at - 20 + z;
    assert Zeros(0) == [] && laid + [] == laid;
  }

  lemma EolPiece(opts: seq<Opt>, at: nat, z: nat)
    requires z == 1 + Short(at + 1)
    ensures Piece(Eol, opts, at) == Zeros(z) && (at + z) % 4 == 0 && 1 <= z <= 4
  {
  }

  // ----- what two equal prints tell -----

  predicate NoOnes(s: seq<byte>) {
    forall k | 0 <= k < |s| :: s[k] != 1
  }

  /** The window scale's word: nothing, or three, three and the body. */
  lemma ScaleWord(opts: seq<Opt>)
    ensures Word(Ws, opts) == if First(opts, 3).Some? then [3, 3] + First(opts, 3).value else []
  {
  }

  /** Two places behind what is the same: a window scale in both, or in neither. */
  lemma ScaleInBoth(a: seq<Opt>, b: seq<Opt>, x: seq<byte>, y: seq<byte>)
    requires First(a, 3).Some? && (y == [] || y[0] != 3)
    requires Word(Ws, a) + x == Word(Ws, b) + y
    ensures First(b, 3).Some? && First(a, 3).value + x == First(b, 3).value + y
  {
    ScaleWord(a);
    ScaleWord(b);
    var l, r := Word(Ws, a) + x, Word(Ws, b) + y;
    assert l[0] == 3;
    assert First(b, 3).None? ==> r == y;
    assert l[2..] == First(a, 3).value + x;
    assert First(b, 3).Some? ==> r[2..] == First(b, 3).value + y;
  }

  /** The same padding and NOPs behind two bodies, one of them an octet: then both are. */
  lemma OnesTell(body: seq<byte>, c: byte, x: seq<byte>, y: seq<byte>)
    requires (x == [] || x[0] != 1) && NoOnes(y)
    requires body + ([1, 1] + x) == [c] + ([1, 1] + y)
    ensures |body| == 1
  {
    var l, r := body + ([1, 1] + x), [c] + ([1, 1] + y);
    var n := |body|;
    assert l[n] == 1 && l[n + 1] == 1;
    assert r[2] == 1 && forall k | 3 <= k < |r| :: r[k] == y[k - 3];
    assert x != [] ==> l[n + 2] == x[0];
  }

  lemma WindowsTells(a: seq<Opt>, b: seq<Opt>)
    requires ScaleFits(b) && First(a, 3).Some?
    requires LaidOut(WINDOWS.layout, a) == LaidOut(WINDOWS.layout, b)
    ensures ScaleFits(a)
  {
    var za := WindowsPrints(a);
    var zb := WindowsPrints(b);
    var x, y := Word(Sok, a) + Zeros(za), Word(Sok, b) + Zeros(zb);
    Leads(a);
    Leads(b);
    Peel(Word(Mss, a), Word(Mss, b), [1] + (Word(Ws, a) + ([1, 1] + x)), [1] + (Word(Ws, b) + ([1, 1] + y)), 2, 4);
    Drop(Word(Ws, a) + ([1, 1] + x), Word(Ws, b) + ([1, 1] + y));
    ScaleInBoth(a, b, [1, 1] + x, [1, 1] + y);
    var c := First(b, 3).value;
    assert c == [c[0]];
    OnesTell(First(a, 3).value, c[0], x, y);
  }

  lemma Drop(x: seq<byte>, y: seq<byte>)
    requires [1] + x == [1] + y
    ensures x == y
  {
    assert ([1] + x)[1..] == x && ([1] + y)[1..] == y;
  }

  /** A body with padding behind it that is an octet with padding: zeros after the first. */
  lemma ZerosTell(body: seq<byte>, c: byte, z: nat, y: nat)
    requires body + Zeros(z) == [c] + Zeros(y)
    ensures body == [] || (|body| - 1 + z == y && forall k | 1 <= k < |body| :: body[k] == 0)
  {
    var l, r := body + Zeros(z), [c] + Zeros(y);
    assert |l| == |body| + z && |r| == 1 + y;
    forall k | 1 <= k < |body| ensures body[k] == 0 {
      assert body[k] == l[k] == r[k] == Zeros(y)[k - 1];
    }
  }

  lemma LinuxFront(a: seq<Opt>, b: seq<Opt>, x: seq<byte>, y: seq<byte>)
    requires Word(Mss, a) + (Word(Sok, a) + (Word(Ts, a) + ([1] + x))) ==
             Word(Mss, b) + (Word(Sok, b) + (Word(Ts, b) + ([1] + y)))
    ensures Word(Mss, a) == Word(Mss, b) && Word(Sok, a) == Word(Sok, b) && Word(Ts, a) == Word(Ts, b) && x == y
  {
    Leads(a);
    Leads(b);
    var ta, tb := Word(Ts, a) + ([1] + x), Word(Ts, b) + ([1] + y);
    var sa, sb := Word(Sok, a) + ta, Word(Sok, b) + tb;
    Peel(Word(Mss, a), Word(Mss, b), sa, sb, 2, 4);
    Peel(Word(Sok, a), Word(Sok, b), ta, tb, 4, 2);
    Peel(Word(Ts, a), Word(Ts, b), [1] + x, [1] + y, 8, 10);
    Drop(x, y);
  }

  lemma LinuxTells(a: seq<Opt>, b: seq<Opt>)
    requires ScaleFits(b) && First(a, 3).Some?
    requires LaidOut(LINUX.layout, a) == LaidOut(LINUX.layout, b)
    ensures Settles(Linux, a)
  {
    var za := LinuxPrints(a);
    var zb := LinuxPrints(b);
    LinuxFront(a, b, Word(Ws, a) + Zeros(za), Word(Ws, b) + Zeros(zb));
    ScaleInBoth(a, b, Zeros(za), Zeros(zb));
    var c := First(b, 3).value;
    assert c == [c[0]];
    ZerosTell(First(a, 3).value, c[0], za, zb);
    ScaleWord(b);
    Leads(a);
    LinuxSizes(a, zb);
  }

  lemma LinuxSizes(a: seq<Opt>, z: nat)
    requires z == Short(24 + |Word(Mss, a)| + |Word(Sok, a)| + |Word(Ts, a)|)
    ensures z == if Taken(Sok, a).Some? == Taken(Ts, a).Some? then 0 else 2
  {
    Leads(a);
  }

  /** The octet next to the scale, two NOPs, timestamps, and what is left of seventeen octets. */
  predicate Read(r: seq<byte>) {
    && |r| == 17
    && r[1..5] == [1, 1, 8, 10]
    && (r[13] == 4 || r[13] == 0) && r[14] != 1 && r[15] == r[16] == 0
  }

  lemma MacOsRead(r: seq<byte>, c: byte, t: seq<byte>, p: seq<byte>, z: nat)
    requires |t| == 10 && t[0] == 8 && t[1] == 10 && (p == [] || p == [4, 2])
    requires 1 <= z <= 4 && (13 + |p| + z) % 4 == 1
    requires r == [c] + ([1, 1] + (t + (p + Zeros(z))))
    ensures Read(r)
  {
    var y := p + Zeros(z);
    assert y == [0, 0, 0, 0] || y == [4, 2, 0, 0];
    assert r[13..] == y;
    assert r[13] == y[0] && r[14] == y[1] && r[15] == y[2] && r[16] == y[3];
  }

  lemma TailStarts(t: seq<byte>, p: seq<byte>, z: nat)
    requires Lead(t, 8, 10) && (p == [] || p == [4, 2]) && z >= 1
    ensures var x := t + (p + Zeros(z)); x != [] && x[0] != 1 && (t == [] && p != [] ==> x[1] == 2)
  {
    assert t == [] ==> t + (p + Zeros(z)) == p + Zeros(z);
  }

  /** Printed with the body: a body that is not one octet reaches up to these NOPs. */
  lemma MacOsLong(r: seq<byte>, body: seq<byte>, t: seq<byte>, p: seq<byte>, z: nat)
    requires Read(r) && Lead(t, 8, 10) && (p == [] || p == [4, 2]) && 1 <= z <= 4
    requires r == body + ([1, 1] + (t + (p + Zeros(z)))) && |body| != 1
    ensures t == [] && body[..] <= r && 5 <= |body| && (|body| == 11 || (|body| == 9 && p == [4, 2]))
  {
    var n := |body|;
    var x := t + (p + Zeros(z));
    assert |r| == n + 2 + |x| && |x| == |t| + |p| + z;
    assert r[n] == 1 && r[n + 1] == 1;
    assert r[1] == 1 && r[2] == 1 && r[3] == 8 && r[4] == 10;
    TailStarts(t, p, z);
    assert r[n + 2..] == x;
    assert n >= 5;
  }

  /** What stands behind the window scale in both prints, octet for octet, says how long the body is
      and what it says of timestamps. */
  lemma MacOsBody(body: seq<byte>, ta: seq<byte>, pa: seq<byte>, za: nat,
                  c: byte, tb: seq<byte>, pb: seq<byte>, zb: nat)
    requires Lead(ta, 8, 10) && Lead(tb, 8, 10) && (tb != [] ==> tb[1] == 10)
    requires (pa == [] || pa == [4, 2]) && (pb == [] || pb == [4, 2])
    requires 1 <= za <= 4 && 1 <= zb <= 4 && (3 + |tb| + |pb| + zb) % 4 == 1
    requires body + ([1, 1] + (ta + (pa + Zeros(za)))) == [c] + ([1, 1] + (tb + (pb + Zeros(zb))))
    ensures |body| == 1 ||
            (ta == [] && (|body| == 11 || (|body| == 9 && pa == [4, 2])) && body[1..5] == [1, 1, 8, 10])
  {
    var r := [c] + ([1, 1] + (tb + (pb + Zeros(zb))));
    if tb == [] {
      assert tb + (pb + Zeros(zb)) == pb + Zeros(zb);
      OnesTell(body, c, ta + (pa + Zeros(za)), pb + Zeros(zb));
    } else if |body| != 1 {
      MacOsRead(r, c, tb, pb, zb);
      MacOsLong(r, body, ta, pa, za);
      assert body[1..5] == r[1..5];
    }
  }

  lemma MacOsTells(a: seq<Opt>, b: seq<Opt>)
    requires ScaleFits(b) && First(a, 3).Some?
    requires LaidOut(MACOS.layout, a) == LaidOut(MACOS.layout, b)
    ensures Settles(MacOs, a)
  {
    var za := MacOsPrints(a);
    var zb := MacOsPrints(b);
    var x := [1, 1] + (Word(Ts, a) + (Word(Sok, a) + Zeros(za)));
    var y := [1, 1] + (Word(Ts, b) + (Word(Sok, b) + Zeros(zb)));
    MacOsFront(a, b, x, y);
    ScaleInBoth(a, b, x, y);
    MacOsBehind(a, b, za, zb, First(a, 3).value, First(b, 3).value);
  }

  lemma MacOsFront(a: seq<Opt>, b: seq<Opt>, x: seq<byte>, y: seq<byte>)
    requires Word(Mss, a) + ([1] + (Word(Ws, a) + x)) == Word(Mss, b) + ([1] + (Word(Ws, b) + y))
    ensures Word(Ws, a) + x == Word(Ws, b) + y
  {
    Leads(a);
    Leads(b);
    Peel(Word(Mss, a), Word(Mss, b), [1] + (Word(Ws, a) + x), [1] + (Word(Ws, b) + y), 2, 4);
    Drop(Word(Ws, a) + x, Word(Ws, b) + y);
  }

  lemma MacOsBehind(a: seq<Opt>, b: seq<Opt>, za: nat, zb: nat, body: seq<byte>, c: seq<byte>)
    requires First(a, 3) == Some(body) && First(b, 3) == Some(c) && |c| == 1
    requires 1 <= za <= 4 && 1 <= zb <= 4
    requires (23 + |Word(Mss, b)| + |Word(Ws, b)| + |Word(Ts, b)| + |Word(Sok, b)| + zb) % 4 == 0
    requires body + ([1, 1] + (Word(Ts, a) + (Word(Sok, a) + Zeros(za)))) ==
             c + ([1, 1] + (Word(Ts, b) + (Word(Sok, b) + Zeros(zb))))
    ensures Settles(MacOs, a)
  {
    var ta, pa, tb, pb := Word(Ts, a), Word(Sok, a), Word(Ts, b), Word(Sok, b);
    MacOsSizes(b, |tb| + |pb| + zb);
    Leads(a);
    Leads(b);
    assert c == [c[0]];
    MacOsBody(body, ta, pa, za, c[0], tb, pb, zb);
    MacOsMeans(a, body, ta, pa);
  }

  lemma MacOsSizes(b: seq<Opt>, n: nat)
    requires First(b, 3).Some? && |First(b, 3).value| == 1
    requires (23 + |Word(Mss, b)| + |Word(Ws, b)| + n) % 4 == 0
    ensures (3 + n) % 4 == 1
  {
    Leads(b);
    ScaleWord(b);
    assert |Word(Ws, b)| == 3;
    assert |Word(Mss, b)| == 0 || |Word(Mss, b)| == 4;
  }

  lemma MacOsMeans(a: seq<Opt>, body: seq<byte>, t: seq<byte>, p: seq<byte>)
    requires First(a, 3) == Some(body) && t == Word(Ts, a) && p == Word(Sok, a)
    requires |body| == 1 ||
             (t == [] && (|body| == 11 || (|body| == 9 && p == [4, 2])) && body[1..5] == [1, 1, 8, 10])
    ensures Settles(MacOs, a)
  {
  }

  // ----- prints that are another list's -----

  /** The list with another window scale in front. */
  function Rescaled(c: byte, opts: seq<Opt>): seq<Opt> {
    [Opt(3, [c])] + opts
  }

  lemma RescaledWords(c: byte, opts: seq<Opt>)
    ensures ScaleFits(Rescaled(c, opts)) && Word(Ws, Rescaled(c, opts)) == [3, 3, c]
    ensures Word(Mss, Rescaled(c, opts)) == Word(Mss, opts)
    ensures Word(Sok, Rescaled(c, opts)) == Word(Sok, opts)
    ensures Word(Ts, Rescaled(c, opts)) == Word(Ts, opts)
  {
    FirstCons([Opt(3, [c])], opts, 2);
    FirstCons([Opt(3, [c])], opts, 3);
    FirstCons([Opt(3, [c])], opts, 4);
    FirstCons([Opt(3, [c])], opts, 8);
  }

  lemma ScaleThenZeros(body: seq<byte>, z: nat, c: byte, y: nat)
    requires forall k | 1 <= k < |body| :: body[k] == 0
    requires |body| + z == 1 + y && (body != [] ==> c == body[0]) && (body == [] ==> c == 0)
    ensures [3, 3] + body + Zeros(z) == [3, 3, c] + Zeros(y)
  {
  }

  lemma LinuxKeeps(a: seq<Opt>) returns (b: seq<Opt>)
    requires Settles(Linux, a) && !ScaleFits(a)
    ensures ScaleFits(b) && LaidOut(LINUX.layout, b) == LaidOut(LINUX.layout, a)
  {
    var body := First(a, 3).value;
    var c := if body == [] then 0 else body[0];
    b := Rescaled(c, a);
    RescaledWords(c, a);
    ScaleWord(a);
    var za := LinuxPrints(a);
    var zb := LinuxPrints(b);
    LinuxSizes(a, zb);
    LinuxShorter(a, za, |body|);
    ScaleThenZeros(body, za, c, zb);
  }

  lemma LinuxShorter(a: seq<Opt>, z: nat, n: nat)
    requires n == 0 || (n <= 3 && n != 1 && Taken(Sok, a).Some? != Taken(Ts, a).Some?)
    requires z == Short(23 + |Word(Mss, a)| + |Word(Sok, a)| + |Word(Ts, a)| + n)
    ensures n + z == 1 + if Taken(Sok, a).Some? == Taken(Ts, a).Some? then 0 else 2
  {
    Leads(a);
  }

  /** The list with another window scale and other timestamps in front. */
  lemma RestampedWords(c: byte, y: seq<byte>, opts: seq<Opt>) returns (b: seq<Opt>)
    requires |y| == 8
    ensures ScaleFits(b) && Word(Ws, b) == [3, 3, c] && Word(Ts, b) == [8, 10] + y
    ensures Word(Mss, b) == Word(Mss, opts) && Word(Sok, b) == Word(Sok, opts)
  {
    var o := [Opt(8, y)];
    b := Rescaled(c, o + opts);
    RescaledWords(c, o + opts);
    FirstCons(o, opts, 2);
    FirstCons(o, opts, 4);
    FirstCons(o, opts, 8);
  }

  /** The list's MSS alone. */
  lemma MssAlone(opts: seq<Opt>) returns (b: seq<Opt>)
    ensures Word(Mss, b) == Word(Mss, opts) && Word(Sok, b) == []
  {
    var mss := Taken(Mss, opts);
    b := if mss.Some? then [Opt(2, mss.value)] else [];
    if mss.Some? {
      FirstAlone(2, mss.value);
    }
  }

  /** The body as the octet, two NOPs and the timestamps that are read into it. */
  lemma MacOsBodies(body: seq<byte>, p: seq<byte>, q: seq<byte>, z: nat) returns (c: byte, y: seq<byte>)
    requires |body| >= 5 && body[1..5] == [1, 1, 8, 10]
    requires (|body| == 11 && p == q) || (|body| == 9 && p == [4, 2] && q == [])
    ensures |y| == 8
    ensures [3, 3] + body + ([1, 1] + ([] + (p + Zeros(z)))) == [3, 3, c] + ([1, 1] + ([8, 10] + y + (q + Zeros(z))))
  {
    c := body[0];
    y := body[5..] + if |body| == 11 then [1, 1] else [1, 1, 4, 2];
    assert body == [c] + [1, 1, 8, 10] + body[5..];
  }

  lemma MacOsKeeps(a: seq<Opt>) returns (b: seq<Opt>)
    requires Settles(MacOs, a) && !ScaleFits(a)
    ensures ScaleFits(b) && LaidOut(MACOS.layout, b) == LaidOut(MACOS.layout, a)
  {
    var body, p := First(a, 3).value, Word(Sok, a);
    var z := MacOsPrints(a);
    var rest := a;
    if |body| == 9 {
      rest := MssAlone(a);
    }
    var c, y := MacOsBodies(body, p, Word(Sok, rest), z);
    b := RestampedWords(c, y, rest);
    var zb := MacOsPrints(b);
    ScaleWord(a);
    Leads(a);
    SameRest(|Word(Mss, a)|, |body| + |p|, |Word(Sok, rest)|, z, zb);
  }

  lemma SameRest(m: nat, n: nat, p: nat, z: nat, zb: nat)
    requires 1 <= z <= 4 && 1 <= zb <= 4 && n == p + 11
    requires (23 + m + 2 + n + z) % 4 == 0 && (23 + m + 3 + 10 + p + zb) % 4 == 0
    ensures z == zb
  {
  }

  // ----- the theorems -----

  lemma Keeps(tcp: seq<byte>, os: Os, like: seq<Opt>)
    requires IsSegment(tcp) && ScaleFits(like)
    requires LaidOut(ShapeOf(os).layout, like) == LaidOut(ShapeOf(os).layout, Options(tcp))
    ensures LaidOut(ShapeOf(os).layout, Options(Rebuild(tcp, ShapeOf(os)))) ==
            LaidOut(ShapeOf(os).layout, Options(tcp))
  {
    ReadAs(tcp, os, like);
    PrintedAs(os, like);
  }

  lemma AfterMss(opts: seq<Opt>, os: Os) returns (x: seq<byte>)
    ensures LaidOut(ShapeOf(os).layout, opts) == Word(Mss, opts) + x && Follows(x, 2)
  {
    Leads(opts);
    match os {
      case Windows =>
        var z := WindowsPrints(opts);
        x := [1] + (Word(Ws, opts) + ([1, 1] + (Word(Sok, opts) + Zeros(z))));
      case MacOs =>
        var z := MacOsPrints(opts);
        x := [1] + (Word(Ws, opts) + ([1, 1] + (Word(Ts, opts) + (Word(Sok, opts) + Zeros(z)))));
      case Linux =>
        var z := LinuxPrints(opts);
        x := Word(Sok, opts) + (Word(Ts, opts) + ([1] + (Word(Ws, opts) + Zeros(z))));
    }
  }

  lemma MssTold(a: seq<Opt>, b: seq<Opt>, os: Os)
    requires LaidOut(ShapeOf(os).layout, a) == LaidOut(ShapeOf(os).layout, b)
    ensures MssOf(a) == MssOf(b)
  {
    var ma, mb := Word(Mss, a), Word(Mss, b);
    var x := AfterMss(a, os);
    var y := AfterMss(b, os);
    Leads(a);
    Leads(b);
    Peel(ma, mb, x, y, 2, 4);
    MssRead(a);
    MssRead(b);
  }

  lemma MssRead(opts: seq<Opt>)
    ensures var m := Word(Mss, opts);
            MssOf(opts) == if |m| == 4 then Some(Be16(m[2], m[3])) else None
  {
    var m, body := Word(Mss, opts), Taken(Mss, opts);
    if body.Some? {
      assert m == [2, 4] + body.value;
      assert m[2] == body.value[0] && m[3] == body.value[1];
    }
  }

  /** A second rebuild is the first exactly when the same options are printed again. */
  lemma SameAgain(tcp: seq<byte>, os: Os, r: seq<byte>)
    requires IsSegment(tcp) && r == Rebuild(tcp, ShapeOf(os))
    ensures Rebuild(r, ShapeOf(os)) == r <==>
            LaidOut(ShapeOf(os).layout, Options(r)) == LaidOut(ShapeOf(os).layout, Options(tcp))
  {
    var shape := ShapeOf(os);
    assert r[20..] == LaidOut(shape.layout, Options(tcp));
    assert Rebuild(r, shape)[20..] == LaidOut(shape.layout, Options(r));
    if LaidOut(shape.layout, Options(r)) == LaidOut(shape.layout, Options(tcp)) {
      MssTold(Options(r), Options(tcp), os);
      RebuiltHeader(tcp, os);
      RebuiltOffer(tcp, shape, r);
      SameHeader(tcp, r, |r|, WindowOf(shape.window, MssOf(Options(tcp)), Offered(tcp)));
    }
  }

  lemma Told(os: Os, a: seq<Opt>, b: seq<Opt>)
    requires ScaleFits(b) && LaidOut(ShapeOf(os).layout, a) == LaidOut(ShapeOf(os).layout, b)
    ensures Settles(os, a)
  {
    if First(a, 3).Some? {
      match os {
        case Windows => WindowsTells(a, b);
        case MacOs => MacOsTells(a, b);
        case Linux => LinuxTells(a, b);
      }
    }
  }

  lemma SomeLike(os: Os, a: seq<Opt>) returns (b: seq<Opt>)
    requires Settles(os, a)
    ensures ScaleFits(b) && LaidOut(ShapeOf(os).layout, b) == LaidOut(ShapeOf(os).layout, a)
  {
    b := a;
    if !ScaleFits(a) {
      if os == MacOs {
        b := MacOsKeeps(a);
      } else {
        b := LinuxKeeps(a);
      }
    }
  }

  /** Rebuilding a rebuilt SYN changes nothing exactly when the system keeps its window-scale body. */
  lemma RebuildTwice(tcp: seq<byte>, os: Os)
    requires IsSegment(tcp)
    ensures Rebuild(Rebuild(tcp, ShapeOf(os)), ShapeOf(os)) == Rebuild(tcp, ShapeOf(os)) <==>
            Settles(os, Options(tcp))
  {
    var r := Rebuild(tcp, ShapeOf(os));
    SameAgain(tcp, os, r);
    if Settles(os, Options(tcp)) {
      var like := SomeLike(os, Options(tcp));
      Keeps(tcp, os, like);
    } else if LaidOut(ShapeOf(os).layout, Options(r)) == LaidOut(ShapeOf(os).layout, Options(tcp)) {
      RebuiltScale(tcp, os);
      Told(os, Options(tcp), Options(r));
    }
  }

  /** A third rebuild of any SYN changes nothing. */
  lemma RebuildThrice(tcp: seq<byte>, os: Os)
    requires IsSegment(tcp)
    ensures var shape := ShapeOf(os);
            Rebuild(Rebuild(Rebuild(tcp, shape), shape), shape) == Rebuild(Rebuild(tcp, shape), shape)
  {
    RebuiltScale(tcp, os);
    RebuildTwice(Rebuild(tcp, ShapeOf(os)), os);
  }

  lemma LongScale(tcp: seq<byte>)
    requires |tcp| == 24 && tcp[12] == 96 && tcp[20..] == [3, 4, 0, 7]
    ensures Options(tcp) == [Opt(3, [0, 7])]
  {
    assert tcp[20] == 3 && tcp[21] == 4;
    assert TokenAt(tcp, 20, 24) == Item(4);
    assert tcp[22..24] == tcp[20..][2..4] == [0, 7];
    assert OptAt(tcp, 20, 4) == Opt(3, [0, 7]);
    assert Scan(tcp, 24, 24) == [];
    assert Options(tcp) == [Opt(3, [0, 7])] + [];
  }

  /** There is a SYN every system lays out differently the second time. */
  lemma SomeRebuildDiffers() returns (tcp: seq<byte>)
    ensures IsSegment(tcp) && IsSyn(tcp)
    ensures forall os: Os :: Rebuild(Rebuild(tcp, ShapeOf(os)), ShapeOf(os)) != Rebuild(tcp, ShapeOf(os))
  {
    tcp := SynWith([3, 4, 0, 7]);
    LongScale(tcp);
    FirstAlone(3, [0, 7]);
    forall os: Os ensures Rebuild(Rebuild(tcp, ShapeOf(os)), ShapeOf(os)) != Rebuild(tcp, ShapeOf(os)) {
      RebuildTwice(tcp, os);
    }
  }
}
