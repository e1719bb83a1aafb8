/** When no work is lost: over every interleaving of the steps of launches and closes, on any number
    of machines, whatever fails in between and without any help from the lock, as long as the steps
    on one machine keep out of each other's way as `Calm` says. */
module TeamSyncRuns {
  import opened Wrappers
  import opened TeamSync

  // ----- what every step keeps -----

  /** A version the machine's copy grew from: if the server still has it, the copy holds all the
      server holds. */
  ghost predicate GrewFrom(b: nat, local: set<Work>, srv: Server) {
    b <= srv.version && (b == srv.version ==> srv.content <= local)
  }

  /** A browser opened at the server's version was opened on a directory recorded to be it. */
  ghost predicate Tied(b: nat, held: Option<nat>, srv: Server) {
    b == srv.version ==> srv.version == 0 || held == Some(b)
  }

  ghost predicate BaseOk(b: nat, m: Machine, srv: Server) {
    GrewFrom(b, m.local, srv) && Tied(b, m.held, srv)
  }

  ghost predicate IsBase(b: nat, m: Machine) {
    m.held == Some(b) || m.marker == Some(b) || InUse(b, m)
  }

  ghost predicate InUse(b: nat, m: Machine) {
    m.running == Some(b) || b in m.starting || b in m.leaving
  }

  /** An upload no one has answered yet does no harm when it arrives. */
  ghost predicate Harmless(p: Push, srv: Server) {
    p.base <= srv.version && (p.base == srv.version ==> srv.content <= p.snapshot)
  }

  ghost predicate AskedOk(a: Asked, m: Machine, srv: Server) {
    && a.version <= srv.version
    && (Differs(a) && a.version == srv.version ==> a.content == srv.content)
    && (a.held == Some(a.version) ==> BaseOk(a.version, m, srv))
    && (Differs(a) ==> m.held != Some(srv.version) && NoneTaken(m))
  }

  /** The work is somewhere an upload in flight does not touch. */
  ghost predicate Settled(work: Work, m: Machine, srv: Server) {
    work in srv.content || exists a <- m.asides :: work in a
  }

  ghost predicate PendingOk(p: Push, m: Machine, srv: Server) {
    && p.snapshot <= m.local
    && (forall work <- m.done :: work in p.snapshot || Settled(work, m, srv))
    && match p.accepted
       case None => Harmless(p, srv) && Tied(p.base, m.held, srv)
       case Some(v) =>
         && p.base < v <= srv.version
         && p.snapshot <= srv.content
         && (v == srv.version ==> srv.content <= m.local)
         && (m.held.Some? ==> m.held.value < v)
         && (forall b: nat | InUse(b, m) :: b < v)
         && (forall a <- m.asked :: a.version < v)
  }

  /** The work is somewhere it can be got back from: on the server, in a copy moved aside, or in the
      local copy under its marker or while its upload is awaited. */
  ghost predicate Kept(work: Work, m: Machine, srv: Server) {
    Settled(work, m, srv) || (work in m.local && (m.marker.Some? || m.pending != []))
  }

  ghost predicate Sound(m: Machine, srv: Server) {
    && (forall b: nat | IsBase(b, m) :: BaseOk(b, m, srv))
    && m.held != Some(0)
    && |m.asked| <= 1 && (forall a <- m.asked :: AskedOk(a, m, srv))
    && |m.pending| <= 1 && (forall p <- m.pending :: PendingOk(p, m, srv))
    && (forall p <- m.late :: Harmless(p, srv))
    && (forall work <- m.done :: Kept(work, m, srv))
  }

  ghost predicate ServerOk(srv: Server) {
    srv.version == 0 ==> srv.content == {}
  }

  ghost predicate WorldOk(w: World) {
    ServerOk(w.server) && forall m <- w.machines :: Sound(m, w.server)
  }

  /** The server only moves on: a new version holds all the old one held. */
  ghost predicate MovedOn(was: Server, now: Server) {
    && was.content <= now.content
    && (now == was || now.version == was.version + 1)
  }

  lemma BasesOk(m: Machine, srv: Server)
    requires Sound(m, srv)
    ensures m.held.Some? ==> BaseOk(m.held.value, m, srv)
    ensures m.marker.Some? ==> BaseOk(m.marker.value, m, srv)
    ensures m.running.Some? ==> BaseOk(m.running.value, m, srv)
    ensures forall b <- m.leaving :: BaseOk(b, m, srv)
    ensures forall b <- m.starting :: BaseOk(b, m, srv)
  {
    assert m.held.Some? ==> IsBase(m.held.value, m);
    assert m.marker.Some? ==> IsBase(m.marker.value, m);
    assert m.running.Some? ==> IsBase(m.running.value, m);
    assert forall b <- m.leaving :: IsBase(b, m);
    assert forall b <- m.starting :: IsBase(b, m);
  }

  /** A new version on the server harms nobody who took no part in it. */
  lemma OthersStaySound(m: Machine, was: Server, now: Server)
    requires Sound(m, was) && MovedOn(was, now)
    ensures Sound(m, now)
  {
    BasesOk(m, was);
    forall work | work in m.done ensures Kept(work, m, now) {
      assert Kept(work, m, was);
    }
    forall p | p in m.pending ensures PendingOk(p, m, now) {
      assert PendingOk(p, m, was);
      forall work | work in m.done ensures work in p.snapshot || Settled(work, m, now) {
        assert work in p.snapshot || Settled(work, m, was);
      }
    }
    forall a | a in m.asked ensures AskedOk(a, m, now) {
      assert AskedOk(a, m, was);
    }
    forall p | p in m.late ensures Harmless(p, now) {
      assert Harmless(p, was);
    }
    forall b: nat | IsBase(b, m) ensures BaseOk(b, m, now) {
      assert BaseOk(b, m, was);
    }
  }

  lemma AskKeeps(m: Machine, srv: Server, op: Op)
    requires Sound(m, srv) && ServerOk(srv) && op.Ask? && Calm(m, srv, op)
    ensures Sound(Stepped(m, srv, op), srv)
  {
    BasesOk(m, srv);
    var n := Stepped(m, srv, op);
    forall work | work in n.done ensures Kept(work, n, srv) {
      assert Kept(work, m, srv);
    }
    forall p | p in n.pending ensures PendingOk(p, n, srv) {
      assert PendingOk(p, m, srv);
      assert forall b: nat | InUse(b, n) :: InUse(b, m);
    }
  }

  lemma BeginKeeps(m: Machine, srv: Server, op: Op)
    requires Sound(m, srv) && (op.Begin? || op.Request?)
    ensures Sound(Stepped(m, srv, op), srv)
  {
    var n := Stepped(m, srv, op);
    assert forall b: nat | IsBase(b, n) :: IsBase(b, m);
    forall work | work in n.done ensures Kept(work, n, srv) {
      assert Kept(work, m, srv);
    }
    forall p | p in n.pending ensures PendingOk(p, n, srv) {
      assert PendingOk(p, m, srv);
      assert forall b: nat | InUse(b, n) :: InUse(b, m);
    }
  }

  lemma CloseKeeps(m: Machine, srv: Server)
    requires Sound(m, srv)
    ensures Sound(CloseOn(m), srv)
  {
    BasesOk(m, srv);
    var n := CloseOn(m);
    assert forall b: nat | IsBase(b, n) :: IsBase(b, m);
    forall work | work in n.done ensures Kept(work, n, srv) {
      assert Kept(work, m, srv);
    }
    forall p | p in n.pending ensures PendingOk(p, n, srv) {
      assert PendingOk(p, m, srv);
      assert forall b: nat | InUse(b, n) :: InUse(b, m);
    }
  }

  lemma UnpackKeeps(m: Machine, a: Asked, srv: Server, how: Landing)
    requires Sound(m, srv) && m.marker.None? && m.asked == [] && m.pending == []
    requires AskedOk(a, m, srv) && Differs(a)
    ensures Sound(UnpackOver(m, a, how), srv)
  {
    BasesOk(m, srv);
    var n := UnpackOver(m, a, how);
    forall work | work in n.done ensures Kept(work, n, srv) {
      assert Kept(work, m, srv);
    }
  }

  lemma SetAsideKeeps(m: Machine, a: Asked, srv: Server)
    requires Sound(m, srv) && m.asked == [] && m.pending == []
    requires AskedOk(a, m, srv) && Differs(a)
    ensures Sound(SetAside(m), srv) && AskedOk(a, SetAside(m), srv)
  {
    BasesOk(m, srv);
    var n := SetAside(m);
    assert m.local == n.asides[|m.asides|];
    forall work | work in n.done ensures Kept(work, n, srv) {
      assert Kept(work, m, srv);
      assert forall x <- m.asides :: x in n.asides;
    }
  }

  lemma LandKeeps(m: Machine, a: Asked, srv: Server, how: Landing)
    requires Sound(m, srv) && ServerOk(srv) && m.asked == [a]
    requires Differs(a) ==> m.pending == []
    ensures Sound(LandOn(m.(asked := []), a, how), srv)
  {
    var f := m.(asked := []);
    LandedKeeps(m, a, srv);
    if Differs(a) && Decide(m.marker, a.version) == Unpack {
      UnpackKeeps(f, a, srv, how);
    } else if Differs(a) && Decide(m.marker, a.version) == SetAsideThenUnpack {
      SetAsideKeeps(f, a, srv);
      UnpackKeeps(SetAside(f), a, srv, how);
    } else {
      OpenKeeps(f, a, srv, how.spawned);
    }
  }

  /** The waiting launch taken off the list. */
  lemma LandedKeeps(m: Machine, a: Asked, srv: Server)
    requires Sound(m, srv) && m.asked == [a]
    ensures var f := m.(asked := []); Sound(f, srv) && AskedOk(a, f, srv)
    ensures forall p <- m.pending :: p.accepted.Some? ==> a.version < p.accepted.value
  {
    var f := m.(asked := []);
    assert a in m.asked;
    assert AskedOk(a, m, srv);
    assert forall b: nat | IsBase(b, f) :: IsBase(b, m);
    forall work | work in f.done ensures Kept(work, f, srv) {
      assert Kept(work, m, srv);
    }
    forall p | p in f.pending ensures PendingOk(p, f, srv) {
      assert PendingOk(p, m, srv);
      assert forall b: nat | InUse(b, f) :: InUse(b, m);
    }
  }

  /** The browser started on the directory as it is. */
  lemma OpenKeeps(m: Machine, a: Asked, srv: Server, spawned: bool)
    requires Sound(m, srv) && ServerOk(srv) && m.asked == [] && AskedOk(a, m, srv)
    requires Differs(a) ==> m.marker == Some(a.version)
    requires forall p <- m.pending :: p.accepted.Some? ==> a.version < p.accepted.value
    ensures Sound(Opened(m, a.version, spawned), srv)
  {
    BasesOk(m, srv);
    var n := Opened(m, a.version, spawned);
    forall work | work in n.done ensures Kept(work, n, srv) {
      assert Kept(work, m, srv);
    }
    forall b: nat | IsBase(b, n) ensures BaseOk(b, n, srv) {
      assert b != a.version ==> IsBase(b, m);
    }
    forall p | p in n.pending ensures PendingOk(p, n, srv) {
      assert PendingOk(p, m, srv);
      assert forall b: nat | InUse(b, n) :: b == a.version || InUse(b, m);
    }
  }

  lemma EnterKeeps(m: Machine, i: nat, srv: Server)
    requires Sound(m, srv) && i < |m.starting|
    ensures Sound(EnterOn(m, i), srv)
  {
    var n := EnterOn(m, i);
    assert m.starting[i] in m.starting;
    assert forall b: nat | InUse(b, n) :: InUse(b, m);
    assert forall b: nat | IsBase(b, n) :: IsBase(b, m);
    forall work | work in n.done ensures Kept(work, n, srv) {
      assert Kept(work, m, srv);
    }
    forall p | p in n.pending ensures PendingOk(p, n, srv) {
      assert PendingOk(p, m, srv);
    }
  }

  lemma PackKeeps(m: Machine, i: nat, srv: Server, work: Work, packed: bool)
    requires Sound(m, srv) && i < |m.leaving| && m.pending == []
    ensures Sound(PackOn(m, i, work, packed), srv)
  {
    BasesOk(m, srv);
    var n := PackOn(m, i, work, packed);
    assert m.leaving[i] in m.leaving;
    forall x | x in n.done ensures Kept(x, n, srv) {
      assert x in m.done ==> Kept(x, m, srv);
    }
    forall b: nat | IsBase(b, n) ensures BaseOk(b, n, srv) {
      assert IsBase(b, m);
    }
    forall p | p in n.pending ensures PendingOk(p, n, srv) {
      forall x | x in n.done ensures x in p.snapshot || Settled(x, n, srv) {
        assert x in m.done ==> Kept(x, m, srv);
      }
    }
  }

  lemma UploadKeeps(m: Machine, j: nat, srv: Server, allowed: bool)
    requires Sound(m, srv) && ServerOk(srv) && j < |m.pending| && m.pending[j].accepted.None?
    ensures var now := Stored(srv, m.pending[j], allowed);
            Sound(UploadOn(m, j, srv, allowed), now) && MovedOn(srv, now)
  {
    BasesOk(m, srv);
    var p := m.pending[j];
    var now, n := Stored(srv, p, allowed), UploadOn(m, j, srv, allowed);
    assert p in m.pending && PendingOk(p, m, srv);
    OthersStaySound(m, srv, now);
    if Accepts(srv, p, allowed) {
      forall x | x in n.done ensures Kept(x, n, now) {
        assert Kept(x, m, now);
      }
      forall b: nat | IsBase(b, n) ensures BaseOk(b, n, now) && b < now.version {
        assert IsBase(b, m);
        assert BaseOk(b, m, srv);
      }
      forall a | a in n.asked ensures AskedOk(a, n, now) && a.version < now.version {
        assert AskedOk(a, m, srv) && AskedOk(a, m, now);
        assert !Differs(a);
      }
      var q := n.pending[0];
      assert n.pending == [q];
      assert PendingOk(q, n, now);
    }
  }

  lemma FinishKeeps(m: Machine, j: nat, srv: Server, heard: bool)
    requires Sound(m, srv) && j < |m.pending|
    ensures Sound(FinishOn(m, j, heard), srv)
  {
    BasesOk(m, srv);
    var p := m.pending[j];
    var n := FinishOn(m, j, heard);
    assert p in m.pending && PendingOk(p, m, srv);
    assert n.pending == [];
    forall x | x in n.done ensures Kept(x, n, srv) {
      assert x in p.snapshot || Settled(x, m, srv);
    }
    forall b: nat | IsBase(b, n) ensures BaseOk(b, n, srv) {
      assert IsBase(b, m) || b == p.base || p.accepted == Some(b);
    }
    forall a | a in n.asked ensures AskedOk(a, n, srv) {
      assert AskedOk(a, m, srv);
    }
  }

  lemma CopyKeeps(m: Machine, srv: Server, work: Work)
    requires Sound(m, srv) && (Copies(m) ==> m.pending == [])
    ensures Sound(CopyOn(m, work), srv)
  {
    BasesOk(m, srv);
    var n := CopyOn(m, work);
    forall x | x in n.done ensures Kept(x, n, srv) {
      assert x in m.done ==> Kept(x, m, srv);
    }
    forall b: nat | IsBase(b, n) ensures BaseOk(b, n, srv) {
      assert IsBase(b, m);
    }
    forall a | a in n.asked ensures AskedOk(a, n, srv) {
      assert AskedOk(a, m, srv);
    }
  }

  lemma LateKeeps(m: Machine, j: nat, srv: Server, allowed: bool)
    requires Sound(m, srv) && j < |m.late|
    ensures MovedOn(srv, Stored(srv, m.late[j], allowed))
  {
    assert m.late[j] in m.late;
  }

  /** A calm step keeps its machine sound, and moves the server on. */
  lemma OwnStepKeeps(m: Machine, srv: Server, op: Op)
    requires Sound(m, srv) && ServerOk(srv) && Calm(m, srv, op)
    ensures Sound(Stepped(m, srv, op), Served(m, srv, op)) && MovedOn(srv, Served(m, srv, op))
  {
    match op {
      case Begin(_) => BeginKeeps(m, srv, op);
      case Request(_) => BeginKeeps(m, srv, op);
      case Ask(_, _, _) => AskKeeps(m, srv, op);
      case Land(_, i, how) => if i < |m.asked| {
        assert Without(m.asked, i) == [] && m.asked == [m.asked[i]];
        LandKeeps(m, m.asked[i], srv, how);
      }
      case Enter(_, i) => if i < |m.starting| { EnterKeeps(m, i, srv); }
      case Close(_) => CloseKeeps(m, srv);
      case Pack(_, i, work, packed) => if i < |m.leaving| { PackKeeps(m, i, srv, work, packed); }
      case Upload(_, i, allowed) => if i < |m.pending| && m.pending[i].accepted.None? {
        UploadKeeps(m, i, srv, allowed);
      }
      case Finish(_, i, heard) => if i < |m.pending| { FinishKeeps(m, i, srv, heard); }
      case Late(_, i, allowed) => if i < |m.late| {
        LateKeeps(m, i, srv, allowed);
        OthersStaySound(m, srv, Served(m, srv, op));
      }
      case Copy(_, work) => CopyKeeps(m, srv, work);
      case Share(_, _) =>
    }
  }

  /** Every calm step keeps the world sound, and moves the server on. */
  lemma StepKeeps(w: World, op: Op)
    requires WorldOk(w) && CalmIn(w, op)
    ensures WorldOk(Next(w, op)) && MovedOn(w.server, Next(w, op).server)
  {
    var v := Next(w, op);
    if !op.Share? && op.k < |w.machines| {
      assert w.machines[op.k] in w.machines;
      OwnStepKeeps(w.machines[op.k], w.server, op);
    }
    assert MovedOn(w.server, v.server);
    forall m | m in v.machines ensures Sound(m, v.server) {
      var k :| 0 <= k < |v.machines| && v.machines[k] == m;
      assert w.machines[k] in w.machines;
      if op.Share? || k != op.k {
        OthersStaySound(m, w.server, v.server);
      }
    }
  }

  lemma {:induction false} RunKeeps(n: nat, ops: seq<Op>)
    requires CalmRun(Start(n), ops)
    ensures WorldOk(Run(Start(n), ops))
    decreases |ops|
  {
    if ops != [] {
      RunKeeps(n, ops[..|ops| - 1]);
      StepKeeps(Run(Start(n), ops[..|ops| - 1]), ops[|ops| - 1]);
    }
  }

  // ----- the theorems -----

  /** No finished work is lost in a calm run. All that was ever finished on a machine is in the
      server's current bundle, or in one of the copies moved aside, or in that machine's local copy:
      under the marker, or with its upload awaited. */
  lemma NothingLost(n: nat, ops: seq<Op>, k: nat, work: Work)
    requires CalmRun(Start(n), ops)
    requires k < n
    requires work in Run(Start(n), ops).machines[k].done
    ensures Kept(work, Run(Start(n), ops).machines[k], Run(Start(n), ops).server)
  {
    RunKeeps(n, ops);
    var w := Run(Start(n), ops);
    assert w.machines[k] in w.machines;
  }

  /** Each version the server accepts contains all the version before it contained, so nothing that
      was ever on the server leaves it; versions go up one at a time. */
  lemma {:induction false} VersionsGrow(n: nat, ops: seq<Op>, i: nat)
    requires CalmRun(Start(n), ops)
    requires i <= |ops|
    ensures Run(Start(n), ops[..i]).server.content <= Run(Start(n), ops).server.content
    ensures var from, to := Run(Start(n), ops[..i]).server.version, Run(Start(n), ops).server.version;
            from <= to <= from + |ops| - i
    decreases |ops|
  {
    if i == |ops| {
      assert ops[..i] == ops;
    } else {
      var before := ops[..|ops| - 1];
      VersionsGrow(n, before, i);
      assert before[..i] == ops[..i];
      RunKeeps(n, before);
      StepKeeps(Run(Start(n), before), ops[|ops| - 1]);
    }
  }

  /** A version number names one content, in any run: while the version stands, so does what it
      holds. */
  lemma {:induction false} SameVersionSameContent(w: World, ops: seq<Op>, i: nat)
    requires i <= |ops|
    ensures Run(w, ops[..i]).server.version <= Run(w, ops).server.version
    ensures Run(w, ops[..i]).server.version == Run(w, ops).server.version ==>
              Run(w, ops[..i]).server == Run(w, ops).server
    decreases |ops|
  {
    if i == |ops| {
      assert ops[..i] == ops;
    } else {
      var before := ops[..|ops| - 1];
      assert before[..i] == ops[..i];
      SameVersionSameContent(w, before, i);
    }
  }

  /** An unsent session is never overwritten: whatever a launch does to a marked copy, all of it is
      still in the directory, or in a copy moved aside. */
  lemma MarkedIsNeverOverwritten(m: Machine, a: Asked, how: Landing)
    requires m.marker.Some?
    ensures var n := LandOn(m, a, how);
            m.local == n.local || m.local in n.asides
    ensures m.marker == Some(a.version) ==> LandOn(m, a, how).local == m.local && LandOn(m, a, how).marker == m.marker
  {
    if Differs(a) && m.marker != Some(a.version) {
      assert SetAside(m).asides[|m.asides|] == m.local;
    }
  }

  /** An upload whose browser was opened at another version than the server's changes nothing there,
      and its session ends up marked with that version; one that is taken holds all that the version
      before it held. */
  lemma NobodyIsOverwritten(m: Machine, j: nat, srv: Server, allowed: bool, heard: bool)
    requires Sound(m, srv) && ServerOk(srv) && j < |m.pending| && m.pending[j].accepted.None?
    ensures var p, now := m.pending[j], Stored(srv, m.pending[j], allowed);
            var n := FinishOn(UploadOn(m, j, srv, allowed), j, heard);
            && (now != srv ==> p.base == srv.version && now.content == p.snapshot && srv.content <= now.content)
            && (p.base != srv.version ==> now == srv && n.marker == Some(p.base) && p.snapshot <= n.local)
  {
    UploadKeeps(m, j, srv, allowed);
    assert m.pending[j] in m.pending && PendingOk(m.pending[j], m, srv);
  }
}
