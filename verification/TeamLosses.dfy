/** What is lost when the steps on one machine get in each other's way: for every clause of `Calm` the
    states in which breaking it loses work, and a run from the start that breaks it once and does. */
module TeamLosses {
  import opened Wrappers
  import opened TeamSync
  import opened TeamSyncRuns

  // ----- from which states -----

  /** A copy made while an upload is awaited is lost whenever that upload is taken and the answer
      heard: the answer clears the marker the copy set. */
  lemma CopyMeanwhileLoses(m: Machine, srv: Server, p: Push, work: Work)
    requires m.pending == [p] && p.accepted.None? && Accepts(srv, p, true) && Copies(m)
    requires work !in p.snapshot && forall a <- m.asides :: work !in a
    ensures var n := FinishOn(UploadOn(CopyOn(m, work), 0, srv, true), 0, true);
            work in n.done && !Kept(work, n, Stored(srv, p, true))
  {
    var n := FinishOn(UploadOn(CopyOn(m, work), 0, srv, true), 0, true);
    assert n.asides == m.asides && n.pending == [] && n.marker.None?;
  }

  /** A bundle written over the directory while an upload is awaited loses the session being
      uploaded whenever that upload is not taken. */
  lemma UnpackMeanwhileLoses(m: Machine, srv: Server, a: Asked, p: Push, how: Landing, allowed: bool, heard: bool,
                             work: Work)
    requires m.pending == [p] && p.accepted.None? && !Accepts(srv, p, allowed)
    requires Differs(a) && m.marker.None? && how.unpacking == Unpacked({})
    requires work in m.done && work !in srv.content + a.content && forall x <- m.asides :: work !in x
    ensures var n := FinishOn(UploadOn(LandOn(m, a, how), 0, srv, allowed), 0, heard);
            work in n.done && !Kept(work, n, srv)
  {
    var n := FinishOn(UploadOn(LandOn(m, a, how), 0, srv, allowed), 0, heard);
    assert n.asides == m.asides;
  }

  /** The session of a second close whose directory cannot be packed while an upload is awaited is lost
      whenever that upload is taken and the answer heard: the answer clears the marker set for it. */
  lemma SecondCloseLoses(m: Machine, srv: Server, p: Push, i: nat, work: Work)
    requires m.pending == [p] && p.accepted.None? && Accepts(srv, p, true) && i < |m.leaving|
    requires work !in p.snapshot && forall a <- m.asides :: work !in a
    ensures var n := FinishOn(UploadOn(PackOn(m, i, work, false), 0, srv, true), 0, true);
            work in n.done && !Kept(work, n, Stored(srv, p, true))
  {
    var n := FinishOn(UploadOn(PackOn(m, i, work, false), 0, srv, true), 0, true);
    assert n.asides == m.asides && n.pending == [] && n.marker.None?;
  }

  /** And so is one that can be packed, if its own upload is given up before that answer. */
  lemma SecondUploadLoses(m: Machine, srv: Server, p: Push, i: nat, work: Work, heard: bool)
    requires m.pending == [p] && p.accepted.None? && Accepts(srv, p, true) && i < |m.leaving|
    requires work !in p.snapshot && forall a <- m.asides :: work !in a
    ensures var both := PackOn(m, i, work, true);
            |both.pending| == 2 &&
            var n := FinishOn(FinishOn(UploadOn(both, 0, srv, true), 1, heard), 0, true);
            work in n.done && !Kept(work, n, Stored(srv, p, true))
  {
    var both := PackOn(m, i, work, true);
    var taken := UploadOn(both, 0, srv, true);
    var one := FinishOn(taken, 1, heard);
    assert |one.pending| == 1 && one.pending[0].accepted.Some?;
    var n := FinishOn(one, 0, true);
    assert n.asides == m.asides && n.pending == [] && n.marker.None?;
  }

  /** A launch whose unpacking leaves nothing, and a whole session on what is left. */
  function Emptied(m: Machine, a: Asked, srv: Server, next: Work): (Machine, Server) {
    var broken := LandOn(m, a, Landing(true, BrokeOff({}), true));
    StopOn(LaunchOn(broken, srv, true, Landing(true, Unpacked({}), true)), srv, next, Sending(true, true, true))
  }

  /** If the directory is recorded to be what the server has, an older answer unpacked over it that
      breaks off empties the server with the next session. */
  lemma EmptiedLoses(m: Machine, a: Asked, srv: Server, next: Work)
    requires m.running.None? && m.marker.None? && m.pending == [] && m.held == Some(srv.version)
    requires Differs(a)
    ensures var (n, now) := Emptied(m, a, srv, next);
            now.content == {next} && n.local == {next} && n.done == m.done + {next} && n.asides == m.asides
    ensures var (n, now) := Emptied(m, a, srv, next);
            forall work | work in m.done && work != next && (forall x <- m.asides :: work !in x) ::
              !Kept(work, n, now)
  {
    var broken := LandOn(m, a, Landing(true, BrokeOff({}), true));
    assert broken.local == {} && broken.held == m.held;
    var open := LaunchOn(broken, srv, true, Landing(true, Unpacked({}), true));
    assert open.running == Some(srv.version) && open.local == {} && open.pending == [];
    var (n, now) := Emptied(m, a, srv, next);
    assert n.pending == [] && now.content == {next};
  }

  /** A launch answered with a bundle that differs while an upload the server took is awaited: once
      that answer is heard the directory is recorded to be what the launch still unpacks over it. */
  lemma AskMeanwhileLoses(m: Machine, srv: Server, p: Push, i: nat, next: Work, work: Work)
    requires m.running.None? && m.pending == [p] && p.accepted == Some(srv.version)
    requires i < |m.requests| && Differs(Answer(m.requests[i], srv))
    requires work in m.done && work != next && forall x <- m.asides :: work !in x
    ensures var asked := FinishOn(AskOn(m, i, srv, true), 0, true);
            var (n, now) := Emptied(asked, Answer(m.requests[i], srv), srv, next);
            now.content == {next} && work in n.done && !Kept(work, n, now)
  {
    var asked := FinishOn(AskOn(m, i, srv, true), 0, true);
    EmptiedLoses(asked, Answer(m.requests[i], srv), srv, next);
  }

  /** The same if the launch asks after that answer, with the record it read before. */
  lemma StaleRecordLoses(m: Machine, srv: Server, i: nat, next: Work, work: Work)
    requires m.running.None? && m.marker.None? && m.pending == [] && m.held == Some(srv.version)
    requires i < |m.requests| && m.requests[i] != m.held && srv.version != 0
    requires work in m.done && work != next && forall x <- m.asides :: work !in x
    ensures var (n, now) := Emptied(AskOn(m, i, srv, true), Answer(m.requests[i], srv), srv, next);
            now.content == {next} && work in n.done && !Kept(work, n, now)
  {
    EmptiedLoses(AskOn(m, i, srv, true), Answer(m.requests[i], srv), srv, next);
  }

  /** Two launches with an answer each: the newer lands and its browser is open, the older is unpacked
      under it and does not come up, and the browser is closed. */
  function Crossed(m: Machine, newer: Asked, older: Asked, srv: Server, next: Work): (Machine, Server) {
    var open := LandOn(m, newer, Landing(true, Unpacked({}), true));
    if open.starting == [] then (m, srv)
    else
      var under := LandOn(EnterOn(open, |open.starting| - 1), older, Landing(true, Unpacked({}), false));
      StopOn(under, srv, next, Sending(true, true, true))
  }

  /** Whatever of the server's the older bundle has not is gone from the server. */
  lemma SecondLaunchLoses(m: Machine, srv: Server, i: nat, older: Asked, next: Work)
    requires m.asked == [older] && Differs(older) && m.marker.None? && m.pending == []
    requires i < |m.requests|
    ensures var m2, newer := AskOn(m, i, srv, true), Answer(m.requests[i], srv);
            && m2.asked == [older, newer]
            && Crossed(m2.(asked := []), newer, older, srv, next).1 == Server(srv.version + 1, older.content + {next})
            && Crossed(m2.(asked := []), newer, older, srv, next).0.local == older.content + {next}
  {
    var m2, newer := AskOn(m, i, srv, true).(asked := []), Answer(m.requests[i], srv);
    var open := LandOn(m2, newer, Landing(true, Unpacked({}), true));
    assert open.starting[|open.starting| - 1] == srv.version && open.marker.None? && open.pending == [];
    var entered := EnterOn(open, |open.starting| - 1);
    var under := LandOn(entered, older, Landing(true, Unpacked({}), false));
    assert under.local == older.content && under.running == Some(srv.version);
  }

  // ----- runs that lose -----

  /** A run of two machines from w that is calm but for step i, and ends with work of machine k
      nowhere. */
  ghost predicate Loses(w: World, ops: seq<Op>, i: nat, k: nat, work: Work) {
    && (forall j | 0 <= j < |ops| :: CalmIn(Run(w, ops[..j]), ops[j]) <==> j != i)
    && k < |w.machines|
    && var v := Run(w, ops);
       work in v.machines[k].done && !Kept(work, v.machines[k], v.server)
  }

  lemma {:induction false} RunsJoin(w: World, a: seq<Op>, b: seq<Op>)
    ensures Run(w, a + b) == Run(Run(w, a), b)
    decreases |b|
  {
    if b == [] {
      assert a + b == a;
    } else {
      var last := |b| - 1;
      assert (a + b)[..|a + b| - 1] == a + b[..last];
      assert (a + b)[|a + b| - 1] == b[last];
      RunsJoin(w, a, b[..last]);
    }
  }

  lemma {:induction false} CalmSteps(w: World, ops: seq<Op>, j: nat)
    requires CalmRun(w, ops) && j < |ops|
    ensures CalmIn(Run(w, ops[..j]), ops[j])
    decreases |ops|
  {
    var before := ops[..|ops| - 1];
    if j < |before| {
      CalmSteps(w, before, j);
      assert before[..j] == ops[..j];
    }
  }

  /** A run that loses goes on from a calm one to its beginning. */
  lemma LosesAfter(w: World, a: seq<Op>, v: World, ops: seq<Op>, i: nat, k: nat, work: Work)
    requires CalmRun(w, a) && Run(w, a) == v && Loses(v, ops, i, k, work)
    ensures Loses(w, a + ops, |a| + i, k, work)
  {
    var all := a + ops;
    RunsJoin(w, a, ops);
    forall j | 0 <= j < |all| ensures CalmIn(Run(w, all[..j]), all[j]) <==> j != |a| + i {
      if j < |a| {
        assert all[..j] == a[..j];
        CalmSteps(w, a, j);
      } else {
        assert all[..j] == a + ops[..j - |a|];
        RunsJoin(w, a, ops[..j - |a|]);
      }
    }
  }

  /** A run from w to a server and two machines, and which of its steps are calm. */
  datatype Path = Path(w: World, ops: seq<Op>, calm: seq<bool>, srv: Server, m: Machine, o: Machine)

  function End(p: Path): World {
    World(p.srv, [p.m, p.o])
  }

  ghost function Paths(): iset<Path> {
    iset p: Path | |p.calm| == |p.ops| && End(p) == Run(p.w, p.ops) &&
      forall j | 0 <= j < |p.ops| :: CalmIn(Run(p.w, p.ops[..j]), p.ops[j]) == p.calm[j]
  }

  lemma PathLoses(p: Path, i: nat, k: nat, work: Work)
    requires p in Paths()
    requires p.calm == CalmBut(i, |p.calm|)
    requires k < 2
    requires var m := if k == 0 then p.m else p.o; work in m.done && !Kept(work, m, p.srv)
    ensures Loses(p.w, p.ops, i, k, work)
  {
  }

  function CalmBut(i: nat, n: nat): seq<bool> {
    seq(n, j => j != i)
  }

  function FromWorld(w: World, m: Machine, o: Machine): Path {
    Path(w, [], [], w.server, m, o)
  }

  ghost predicate GoesOn(p: Path, op: Op, q: Path) {
    && q.w == p.w
    && q.ops == p.ops + [op]
    && q.calm == p.calm + [CalmIn(End(p), op)]
    && End(q) == Next(End(p), op)
  }

  /** A set of paths each of which can go on by any step. */
  ghost predicate Closed(R: iset<Path>) {
    forall p: Path, op: Op, q: Path :: p in R && GoesOn(p, op, q) ==> q in R
  }

  lemma PathsClosed()
    ensures Closed(Paths())
  {
    forall p: Path, op: Op, q: Path | p in Paths() && GoesOn(p, op, q) ensures q in Paths() {
      PathGrows(p, op, q);
    }
  }

  lemma PathGrows(p: Path, op: Op, q: Path)
    requires p in Paths() && GoesOn(p, op, q)
    ensures q in Paths()
  {
    LongerRun(p.w, p.ops, op);
    forall j | 0 <= j < |q.ops| ensures CalmIn(Run(q.w, q.ops[..j]), q.ops[j]) == q.calm[j] {
      if j < |p.ops| {
        assert q.ops[..j] == p.ops[..j] && q.ops[j] == p.ops[j];
      } else {
        assert q.ops[..j] == p.ops && q.ops[j] == op;
      }
    }
  }

  lemma LongerRun(w: World, ops: seq<Op>, op: Op)
    ensures Run(w, ops + [op]) == Next(Run(w, ops), op)
  {
    assert (ops + [op])[..|ops|] == ops;
  }

  /** A step of the first machine. */
  lemma Moves(R: iset<Path>, p: Path, op: Op, m: Machine, srv: Server, calm: bool) returns (q: Path)
    requires Closed(R) && p in R && !op.Share? && op.k == 0
    requires m == Stepped(p.m, p.srv, op)
    requires srv == Served(p.m, p.srv, op)
    requires calm == Calm(p.m, p.srv, op)
    ensures q == Path(p.w, p.ops + [op], p.calm + [calm], srv, m, p.o) && q in R
  {
    q := Path(p.w, p.ops + [op], p.calm + [calm], srv, m, p.o);
    assert End(p).machines[0 := m] == End(q).machines;
    assert GoesOn(p, op, q);
  }

  /** A step of the second machine. */
  lemma OtherMoves(R: iset<Path>, p: Path, op: Op, o: Machine, srv: Server, calm: bool) returns (q: Path)
    requires Closed(R) && p in R && !op.Share? && op.k == 1
    requires o == Stepped(p.o, p.srv, op)
    requires srv == Served(p.o, p.srv, op)
    requires calm == Calm(p.o, p.srv, op)
    ensures q == Path(p.w, p.ops + [op], p.calm + [calm], srv, p.m, o) && q in R
  {
    q := Path(p.w, p.ops + [op], p.calm + [calm], srv, p.m, o);
    assert End(p).machines[1 := o] == End(q).machines;
    assert GoesOn(p, op, q);
  }

  /** A launch that has read the record and not asked with it yet. */
  lemma Begins(R: iset<Path>, p: Path) returns (q: Path)
    requires Closed(R) && p in R && p.m.running.None? && p.m.begun == 0 && p.m.requests == []
    ensures q in R && q.w == p.w && q.ops == p.ops + [Begin(0), Request(0)] && q.calm == p.calm + [true, true]
    ensures q.srv == p.srv && q.o == p.o && q.m == p.m.(requests := [p.m.held])
  {
    q := Moves(R, p, Begin(0), p.m.(begun := 1), p.srv, true);
    q := Moves(R, q, Request(0), p.m.(requests := [] + [p.m.held]), p.srv, true);
  }

  lemma IsAnswered(R: iset<Path>, p: Path, held: Option<nat>, calm: bool) returns (q: Path)
    requires Closed(R) && p in R && p.m.requests == [held] && p.m.asked == []
    requires calm == (held == p.m.held && (NoneTaken(p.m) || !Differs(Answer(p.m.held, p.srv))))
    ensures q in R && q.w == p.w && q.ops == p.ops + [Ask(0, 0, true)] && q.calm == p.calm + [calm]
    ensures q.srv == p.srv && q.o == p.o && q.m == p.m.(requests := [], asked := [Answer(held, p.srv)])
  {
    assert Without(p.m.requests, 0) == [];
    q := Moves(R, p, Ask(0, 0, true), p.m.(requests := [], asked := [] + [Answer(held, p.srv)]), p.srv, calm);
  }

  lemma Asks(R: iset<Path>, p: Path, calm: bool) returns (q: Path)
    requires Closed(R) && p in R && p.m.running.None? && p.m.begun == 0 && p.m.requests == [] && p.m.asked == []
    requires calm == (NoneTaken(p.m) || !Differs(Answer(p.m.held, p.srv)))
    ensures q in R && q.w == p.w && q.calm == p.calm + [true, true, calm]
    ensures q.ops == p.ops + [Begin(0), Request(0), Ask(0, 0, true)]
    ensures q.srv == p.srv && q.o == p.o && q.m == p.m.(asked := [Answer(p.m.held, p.srv)])
  {
    q := Begins(R, p);
    q := IsAnswered(R, q, p.m.held, calm);
  }

  /** A launch that has nothing to unpack. */
  lemma Opens(R: iset<Path>, p: Path, a: Asked) returns (q: Path)
    requires Closed(R) && p in R && p.m.asked == [a] && p.m.starting == [] && !Differs(a)
    ensures q in R && q.w == p.w && q.calm == p.calm + [true, true]
    ensures q.ops == p.ops + [Land(0, 0, PLAIN), Enter(0, 0)]
    ensures q.srv == p.srv && q.o == p.o && q.m == p.m.(asked := [], running := Some(a.version))
  {
    assert Without(p.m.asked, 0) == [];
    q := Moves(R, p, Land(0, 0, PLAIN), p.m.(asked := [], starting := [] + [a.version]), p.srv, true);
    q := Enters(R, q, a.version);
  }

  /** The browser started is the one open from now on. */
  lemma Enters(R: iset<Path>, p: Path, version: nat) returns (q: Path)
    requires Closed(R) && p in R && p.m.starting == [version]
    ensures q in R && q.w == p.w && q.ops == p.ops + [Enter(0, 0)] && q.calm == p.calm + [true]
    ensures q.srv == p.srv && q.o == p.o && q.m == p.m.(starting := [], running := Some(version))
  {
    assert Without(p.m.starting, 0) == [];
    q := Moves(R, p, Enter(0, 0), p.m.(starting := [], running := Some(version)), p.srv, true);
  }

  lemma Closes(R: iset<Path>, p: Path) returns (q: Path)
    requires Closed(R) && p in R && p.m.running.Some? && p.m.leaving == []
    ensures q in R && q.w == p.w && q.ops == p.ops + [Close(0)] && q.calm == p.calm + [true]
    ensures q.srv == p.srv && q.o == p.o && q.m == p.m.(running := None, leaving := [p.m.running.value])
  {
    q := Moves(R, p, Close(0), p.m.(running := None, leaving := [p.m.running.value]), p.srv, true);
  }

  lemma Packs(R: iset<Path>, p: Path, work: Work, base: nat) returns (q: Path)
    requires Closed(R) && p in R && p.m.leaving == [base] && p.m.pending == []
    ensures q in R && q.w == p.w && q.ops == p.ops + [Pack(0, 0, work, true)] && q.calm == p.calm + [true]
    ensures q.srv == p.srv && q.o == p.o
    ensures q.m == p.m.(leaving := [], local := p.m.local + {work}, done := p.m.done + {work},
                        pending := [Push(base, p.m.local + {work}, None)])
  {
    assert Without(p.m.leaving, 0) == [];
    q := Moves(R, p, Pack(0, 0, work, true),
               p.m.(leaving := [], local := p.m.local + {work}, done := p.m.done + {work},
                    pending := [Push(base, p.m.local + {work}, None)]), p.srv, true);
  }

  lemma Uploads(R: iset<Path>, p: Path, sent: Push) returns (q: Path)
    requires Closed(R) && p in R && p.m.pending == [sent] && sent.accepted.None? && sent.base == p.srv.version
    ensures q in R && q.w == p.w && q.ops == p.ops + [Upload(0, 0, true)] && q.calm == p.calm + [true]
    ensures q.srv == Server(p.srv.version + 1, sent.snapshot) && q.o == p.o
    ensures q.m == p.m.(pending := [sent.(accepted := Some(p.srv.version + 1))])
  {
    var taken := sent.(accepted := Some(p.srv.version + 1));
    assert p.m.pending[0 := taken] == [taken];
    q := Moves(R, p, Upload(0, 0, true), p.m.(pending := [taken]), Server(p.srv.version + 1, sent.snapshot), true);
  }

  lemma Hears(R: iset<Path>, p: Path, sent: Push) returns (q: Path)
    requires Closed(R) && p in R && p.m.pending == [sent] && sent.accepted.Some?
    ensures q in R && q.w == p.w && q.ops == p.ops + [Finish(0, 0, true)] && q.calm == p.calm + [true]
    ensures q.srv == p.srv && q.o == p.o && q.m == p.m.(pending := [], marker := None, held := sent.accepted)
  {
    assert Without(p.m.pending, 0) == [];
    q := Moves(R, p, Finish(0, 0, true), p.m.(pending := [], marker := None, held := sent.accepted), p.srv, true);
  }

  /** A copy into a directory whose upload is awaited. */
  lemma Copied(R: iset<Path>, p: Path, work: Work, held: nat) returns (q: Path)
    requires Closed(R) && p in R && p.m.running.None? && p.m.held == Some(held) && p.m.marker.None? && p.m.pending != []
    ensures q in R && q.w == p.w && q.ops == p.ops + [Copy(0, work)] && q.calm == p.calm + [false]
    ensures q.srv == p.srv && q.o == p.o
    ensures q.m == p.m.(local := p.m.local + {work}, done := p.m.done + {work}, marker := Some(held))
  {
    q := Moves(R, p, Copy(0, work), CopyOn(p.m, work), p.srv, false);
  }

  /** The bundle is unpacked over the directory, and the browser does not come up. */
  lemma Unpacks(R: iset<Path>, p: Path, a: Asked, calm: bool) returns (q: Path)
    requires Closed(R) && p in R && p.m.asked == [a] && Differs(a) && p.m.marker.None?
    requires calm == (p.m.pending == [])
    ensures q in R && q.w == p.w && q.calm == p.calm + [calm]
    ensures q.ops == p.ops + [Land(0, 0, Landing(true, Unpacked({}), false))]
    ensures q.srv == p.srv && q.o == p.o
    ensures q.m == p.m.(asked := [], local := a.content + {} * p.m.local, held := Some(a.version))
  {
    assert Without(p.m.asked, 0) == [];
    var m := p.m.(asked := [], local := a.content + {} * p.m.local, held := Some(a.version));
    q := Moves(R, p, Land(0, 0, Landing(true, Unpacked({}), false)), m, p.srv, calm);
  }

  /** Unpacking breaks off and leaves nothing. */
  lemma Breaks(R: iset<Path>, p: Path, a: Asked) returns (q: Path)
    requires Closed(R) && p in R && p.m.asked == [a] && Differs(a) && p.m.marker.None? && p.m.pending == []
    ensures q in R && q.w == p.w && q.calm == p.calm + [true]
    ensures q.ops == p.ops + [Land(0, 0, Landing(true, BrokeOff({}), true))]
    ensures q.srv == p.srv && q.o == p.o && q.m == p.m.(asked := [], local := {} * (a.content + p.m.local))
  {
    assert Without(p.m.asked, 0) == [];
    var m := p.m.(asked := [], local := {} * (a.content + p.m.local));
    q := Moves(R, p, Land(0, 0, Landing(true, BrokeOff({}), true)), m, p.srv, true);
  }

  /** An upload that was not taken is given up. */
  lemma GivesUp(R: iset<Path>, p: Path, sent: Push) returns (q: Path)
    requires Closed(R) && p in R && p.m.pending == [sent] && sent.accepted.None?
    ensures q in R && q.w == p.w && q.ops == p.ops + [Finish(0, 0, true)] && q.calm == p.calm + [true]
    ensures q.srv == p.srv && q.o == p.o
    ensures q.m == p.m.(pending := [], marker := Some(sent.base), late := p.m.late + [sent])
  {
    assert Without(p.m.pending, 0) == [];
    q := Moves(R, p, Finish(0, 0, true), p.m.(pending := [], marker := Some(sent.base), late := p.m.late + [sent]),
               p.srv, true);
  }

  const PLAIN: Landing := Landing(true, Unpacked({}), true)

  const LANDED: Machine := EMPTY.(local := {1}, held := Some(1), starting := [1])
  const AT_ONE: Machine := EMPTY.(local := {1}, held := Some(1), running := Some(1))

  /** A profile shared with {1}, open on both machines. */
  const BOTH: World := World(Server(1, {1}), [AT_ONE, AT_ONE])

  /** The first machine waits for the bundle at version 1, while the second has it open. */
  const WAITING: World := World(Server(1, {1}), [EMPTY.(asked := [Asked(None, 1, {1})]), AT_ONE])

  lemma LandsAtOne(op: Op)
    requires op.Land? && op.i == 0 && op.how == PLAIN
    ensures Stepped(EMPTY.(asked := [Asked(None, 1, {1})]), Server(1, {1}), op) == LANDED
  {
    assert Without([Asked(None, 1, {1})], 0) == [];
    assert {1} + {} * EMPTY.local == {1};
  }

  /** The second machine asks. */
  lemma OtherAsks(R: iset<Path>, p: Path) returns (q: Path)
    requires Closed(R) && p in R && p.o == EMPTY && p.srv == Server(1, {1})
    ensures q in R && q.w == p.w && q.calm == p.calm + [true, true, true] && |q.ops| == |p.ops| + 3
    ensures q.srv == p.srv && q.m == p.m && q.o == EMPTY.(asked := [Asked(None, 1, {1})])
  {
    q := OtherMoves(R, p, Begin(1), EMPTY.(begun := 1), p.srv, true);
    q := OtherMoves(R, q, Request(1), EMPTY.(requests := [None]), p.srv, true);
    var none: Option<nat> := None;
    assert Without([none], 0) == [];
    q := OtherMoves(R, q, Ask(1, 0, true), EMPTY.(asked := [Asked(None, 1, {1})]), p.srv, true);
  }

  /** And opens what it got. */
  lemma OtherOpens(R: iset<Path>, p: Path) returns (q: Path)
    requires Closed(R) && p in R && p.o == EMPTY.(asked := [Asked(None, 1, {1})]) && p.srv == Server(1, {1})
    ensures q in R && q.w == p.w && q.calm == p.calm + [true, true] && |q.ops| == |p.ops| + 2
    ensures q.srv == p.srv && q.m == p.m && q.o == AT_ONE
  {
    LandsAtOne(Land(1, 0, PLAIN));
    assert Without([1], 0) == [];
    q := OtherMoves(R, p, Land(1, 0, PLAIN), LANDED, p.srv, true);
    q := OtherMoves(R, q, Enter(1, 0), AT_ONE, p.srv, true);
  }

  lemma FirstOpens(R: iset<Path>, p: Path) returns (q: Path)
    requires Closed(R) && p in R && p.m == EMPTY.(asked := [Asked(None, 1, {1})]) && p.srv == Server(1, {1})
    ensures q in R && q.w == p.w && q.calm == p.calm + [true, true] && |q.ops| == |p.ops| + 2
    ensures q.srv == p.srv && q.m == AT_ONE && q.o == p.o
  {
    LandsAtOne(Land(0, 0, PLAIN));
    assert Without([1], 0) == [];
    q := Moves(R, p, Land(0, 0, PLAIN), LANDED, p.srv, true);
    q := Moves(R, q, Enter(0, 0), AT_ONE, p.srv, true);
  }

  /** Two machines, and a profile that was shared. */
  lemma SharedPath(R: iset<Path>, p: Path) returns (q: Path)
    requires Closed(R) && p in R && p == FromWorld(Start(2), EMPTY, EMPTY)
    ensures q in R && q.w == Start(2) && q.ops == [Share({1}, true)] && q.calm == [true]
    ensures q.srv == Server(1, {1}) && q.m == q.o == EMPTY
  {
    q := Path(p.w, p.ops + [Share({1}, true)], p.calm + [true], Server(1, {1}), EMPTY, EMPTY);
    assert Start(2).machines == [EMPTY, EMPTY];
    assert GoesOn(p, Share({1}, true), q);
  }

  /** The first machine waits for the bundle at version 1, while the second has it open. */
  lemma WaitingPath(R: iset<Path>, p: Path) returns (q: Path)
    requires Closed(R) && p in R && p == FromWorld(Start(2), EMPTY, EMPTY)
    ensures q in R && q.w == Start(2) && End(q) == WAITING && |q.ops| == |q.calm| == 9
    ensures q.calm == [true] + [true, true, true] + [true, true, true] + [true, true]
  {
    q := SharedPath(R, p);
    q := Asks(R, q, true);
    q := OtherAsks(R, q);
    q := OtherOpens(R, q);
  }

  lemma Waiting() returns (ops: seq<Op>)
    ensures CalmRun(Start(2), ops) && Run(Start(2), ops) == WAITING
  {
    var p := FirstPath();
    p := WaitingPath(Paths(), p);
    PathIsCalm(p);
    return p.ops;
  }

  /** A profile shared with {1} can be open on both machines. */
  lemma BothOpen() returns (ops: seq<Op>)
    ensures CalmRun(Start(2), ops) && Run(Start(2), ops) == BOTH
  {
    var p := FirstPath();
    p := WaitingPath(Paths(), p);
    p := FirstOpens(Paths(), p);
    PathIsCalm(p);
    return p.ops;
  }

  lemma FirstPath() returns (p: Path)
    ensures Closed(Paths()) && p in Paths() && p == FromWorld(Start(2), EMPTY, EMPTY)
  {
    PathsClosed();
    p := FromWorld(Start(2), EMPTY, EMPTY);
    assert Start(2).machines == [EMPTY, EMPTY];
  }

  lemma PathIsCalm(p: Path)
    requires p in Paths() && forall j | 0 <= j < |p.calm| :: p.calm[j]
    ensures CalmRun(p.w, p.ops) && Run(p.w, p.ops) == End(p)
  {
    forall j | 0 <= j < |p.ops| ensures CalmIn(Run(p.w, p.ops[..j]), p.ops[j]) {
      assert p.calm[j];
    }
    CalmThroughout(p.w, p.ops);
  }

  lemma {:induction false} CalmThroughout(w: World, ops: seq<Op>)
    requires forall j | 0 <= j < |ops| :: CalmIn(Run(w, ops[..j]), ops[j])
    ensures CalmRun(w, ops)
    decreases |ops|
  {
    if ops != [] {
      var before := ops[..|ops| - 1];
      forall j | 0 <= j < |before| ensures CalmIn(Run(w, before[..j]), before[j]) {
        assert before[..j] == ops[..j];
      }
      CalmThroughout(w, before);
      assert ops[..|ops| - 1] == before;
    }
  }

  /** A copy while an upload is awaited. */
  lemma SomeCopyIsLostPath(R: iset<Path>, s: Path) returns (p: Path, i: nat)
    requires Closed(R) && s in R && s == FromWorld(BOTH, AT_ONE, AT_ONE)
    ensures p in R && p.w == BOTH && i < |p.ops| == |p.calm| && p.ops[i].Copy? && p.calm == CalmBut(i, |p.calm|)
    ensures 20 in p.m.done && !Kept(20, p.m, p.srv)
  {
    p := s;
    p := Closes(R, p);
    p := Packs(R, p, 10, 1);
    i := |p.ops|;
    p := Copied(R, p, 20, 1);
    var sent := Push(1, {1} + {10}, None);
    p := Uploads(R, p, sent);
    p := Hears(R, p, sent.(accepted := Some(2)));
  }

  lemma SomeCopyIsLost() returns (ops: seq<Op>, i: nat)
    ensures Loses(Start(2), ops, i, 0, 20) && i < |ops| && ops[i].Copy?
  {
    PathsClosed();
    var before := BothOpen();
    var p;
    p, i := SomeCopyIsLostPath(Paths(), FromWorld(BOTH, AT_ONE, AT_ONE));
    PathLoses(p, i, 0, 20);
    LosesAfter(Start(2), before, BOTH, p.ops, i, 0, 20);
    return before + p.ops, |before| + i;
  }

  /** The second machine's session 5 reaches the server. */
  lemma OtherPushes(R: iset<Path>, p: Path) returns (q: Path)
    requires Closed(R) && p in R && p.o == AT_ONE && p.srv == Server(1, {1})
    ensures q in R && q.w == p.w && q.m == p.m && q.srv == Server(2, {1} + {5})
    ensures p.ops <= q.ops && |q.ops| == |p.ops| + 3 && q.calm == p.calm + [true, true, true]
    ensures q.o.pending == [Push(1, {1} + {5}, Some(2))] && q.o.done == {} + {5} && q.o.asides == []
  {
    var sent, taken := Push(1, {1} + {5}, None), Push(1, {1} + {5}, Some(2));
    var m1 := AT_ONE.(running := None, leaving := [1]);
    var m2 := m1.(leaving := [], local := {1} + {5}, done := {} + {5}, pending := [sent]);
    assert Without([1], 0) == [];
    assert [sent][0 := taken] == [taken];
    q := OtherMoves(R, p, Close(1), m1, p.srv, true);
    q := OtherMoves(R, q, Pack(1, 0, 5, true), m2, p.srv, true);
    q := OtherMoves(R, q, Upload(1, 0, true), m2.(pending := [taken]), Server(2, {1} + {5}), true);
  }

  /** The second machine's session is sent while the first's browser closes, and the first asks again
      before it has packed. */
  lemma AsksBeforePacking(R: iset<Path>, s: Path) returns (p: Path)
    requires Closed(R) && s in R && s == FromWorld(BOTH, AT_ONE, AT_ONE)
    ensures p in R && p.w == BOTH && |p.ops| == 7 && p.srv == Server(2, {1} + {5})
    ensures p.calm == [true, true, true] + [true] + [true, true, true]
    ensures p.m == EMPTY.(local := {1}, held := Some(1), leaving := [1], asked := [Asked(Some(1), 2, {1} + {5})])
  {
    p := OtherPushes(R, s);
    p := Closes(R, p);
    p := Asks(R, p, true);
  }

  /** A bundle unpacked while an upload is awaited. */
  lemma SomeSessionIsOverwrittenPath(R: iset<Path>, s: Path) returns (p: Path, i: nat)
    requires Closed(R) && s in R && s == FromWorld(BOTH, AT_ONE, AT_ONE)
    ensures p in R && p.w == BOTH && i < |p.ops| == |p.calm| && p.ops[i].Land? && p.calm == CalmBut(i, |p.calm|)
    ensures 10 in p.m.done && !Kept(10, p.m, p.srv)
  {
    p := AsksBeforePacking(R, s);
    p := Packs(R, p, 10, 1);
    i := |p.ops|;
    p := Unpacks(R, p, Asked(Some(1), 2, {1} + {5}), false);
    p := GivesUp(R, p, Push(1, {1} + {10}, None));
  }

  lemma SomeSessionIsOverwritten() returns (ops: seq<Op>, i: nat)
    ensures Loses(Start(2), ops, i, 0, 10) && i < |ops| && ops[i].Land?
  {
    PathsClosed();
    var before := BothOpen();
    var p;
    p, i := SomeSessionIsOverwrittenPath(Paths(), FromWorld(BOTH, AT_ONE, AT_ONE));
    PathLoses(p, i, 0, 10);
    LosesAfter(Start(2), before, BOTH, p.ops, i, 0, 10);
    return before + p.ops, |before| + i;
  }

  /** A second close while the first one's upload is awaited: its own directory cannot be packed. */
  lemma SomeSecondCloseIsLostPath(R: iset<Path>, s: Path) returns (p: Path, i: nat)
    requires Closed(R) && s in R && s == FromWorld(BOTH, AT_ONE, AT_ONE)
    ensures p in R && p.w == BOTH && i < |p.ops| == |p.calm| && p.ops[i].Pack? && p.calm == CalmBut(i, |p.calm|)
    ensures 20 in p.m.done && !Kept(20, p.m, p.srv)
  {
    var sent := Push(1, {1} + {10}, None);
    p := ReopensAndCloses(R, s);
    i := |p.ops|;
    p := PacksNot(R, p, 20, 1, false);
    p := Uploads(R, p, sent);
    p := Hears(R, p, sent.(accepted := Some(2)));
  }

  /** Opened again before the first close has packed, and closed again after. */
  lemma ReopensAndCloses(R: iset<Path>, s: Path) returns (p: Path)
    requires Closed(R) && s in R && s == FromWorld(BOTH, AT_ONE, AT_ONE)
    ensures p in R && p.w == BOTH && |p.ops| == 8
    ensures p.calm == [true, true, true, true, true, true, true, true]
    ensures p.srv == BOTH.server && p.o == AT_ONE
    ensures p.m == EMPTY.(local := {1} + {10}, held := Some(1), leaving := [1], done := {} + {10},
                          pending := [Push(1, {1} + {10}, None)])
  {
    p := Closes(R, s);
    p := Asks(R, p, true);
    p := Opens(R, p, Asked(Some(1), 1, {}));
    p := Packs(R, p, 10, 1);
    p := Closes(R, p);
  }

  /** A directory that cannot be packed. */
  lemma PacksNot(R: iset<Path>, p: Path, work: Work, base: nat, calm: bool) returns (q: Path)
    requires Closed(R) && p in R && p.m.leaving == [base] && calm == (p.m.pending == [])
    ensures q in R && q.w == p.w && q.ops == p.ops + [Pack(0, 0, work, false)] && q.calm == p.calm + [calm]
    ensures q.srv == p.srv && q.o == p.o
    ensures q.m == p.m.(leaving := [], local := p.m.local + {work}, done := p.m.done + {work}, marker := Some(base))
  {
    assert Without(p.m.leaving, 0) == [];
    var m := p.m.(leaving := [], local := p.m.local + {work}, done := p.m.done + {work}, marker := Some(base));
    q := Moves(R, p, Pack(0, 0, work, false), m, p.srv, calm);
  }

  lemma SomeSecondCloseIsLost() returns (ops: seq<Op>, i: nat)
    ensures Loses(Start(2), ops, i, 0, 20) && i < |ops| && ops[i].Pack?
  {
    PathsClosed();
    var before := BothOpen();
    var p;
    p, i := SomeSecondCloseIsLostPath(Paths(), FromWorld(BOTH, AT_ONE, AT_ONE));
    PathLoses(p, i, 0, 20);
    LosesAfter(Start(2), before, BOTH, p.ops, i, 0, 20);
    return before + p.ops, |before| + i;
  }

  /** The directory as it is goes up with one more session. */
  lemma SendsAnother(R: iset<Path>, p: Path) returns (q: Path)
    requires Closed(R) && p in R && p.srv.version == 2
    requires p.m.running == Some(2) && p.m.leaving == [] && p.m.pending == []
    ensures q in R && q.w == p.w && p.ops <= q.ops && |q.ops| == |p.ops| + 3
    ensures q.calm == p.calm + [true, true, true]
    ensures q.srv == Server(3, p.m.local + {30}) && q.o == p.o
    ensures q.m.local == p.m.local + {30} && q.m.done == p.m.done + {30} && q.m.asides == p.m.asides
  {
    q := Closes(R, p);
    q := Packs(R, q, 30, 2);
    q := Uploads(R, q, Push(2, p.m.local + {30}, None));
  }

  /** A launch that asks while an upload is awaited, and whose unpacking breaks off after it: the
      directory stays recorded as the version it no longer is. */
  lemma SomeBrokenCopyIsSentPath(R: iset<Path>, s: Path) returns (p: Path, i: nat)
    requires Closed(R) && s in R && s == FromWorld(BOTH, AT_ONE, AT_ONE)
    ensures p in R && p.w == BOTH && i < |p.ops| == |p.calm| && p.ops[i].Ask? && p.calm == CalmBut(i, |p.calm|)
    ensures 10 in p.m.done && !Kept(10, p.m, p.srv)
  {
    p, i := SomeCopyBreaks(R, s);
    p := Asks(R, p, true);
    p := Opens(R, p, Asked(Some(2), 2, {}));
    p := SendsAnother(R, p);
  }

  /** Up to the broken unpacking. */
  lemma SomeCopyBreaks(R: iset<Path>, s: Path) returns (p: Path, i: nat)
    requires Closed(R) && s in R && s == FromWorld(BOTH, AT_ONE, AT_ONE)
    ensures p in R && p.w == BOTH && i == 5 && |p.ops| == |p.calm| == 8 && p.ops[i].Ask? && p.calm == CalmBut(i, 8)
    ensures p.srv.version == 2 && 10 in p.m.done
    ensures p.m == EMPTY.(local := {}, held := Some(2), done := p.m.done)
  {
    var sent := Push(1, {1} + {10}, None);
    p := Closes(R, s);
    p := Packs(R, p, 10, 1);
    p := Uploads(R, p, sent);
    p := Begins(R, p);
    i := |p.ops|;
    p := IsAnswered(R, p, Some(1), false);
    p := Hears(R, p, sent.(accepted := Some(2)));
    p := Breaks(R, p, Asked(Some(1), 2, {1} + {10}));
    assert p.m.local == {};
  }

  lemma SomeBrokenCopyIsSent() returns (ops: seq<Op>, i: nat)
    ensures Loses(Start(2), ops, i, 0, 10) && i < |ops| && ops[i].Ask?
  {
    PathsClosed();
    var before := BothOpen();
    var p;
    p, i := SomeBrokenCopyIsSentPath(Paths(), FromWorld(BOTH, AT_ONE, AT_ONE));
    PathLoses(p, i, 0, 10);
    LosesAfter(Start(2), before, BOTH, p.ops, i, 0, 10);
    return before + p.ops, |before| + i;
  }

  /** A launch that begins while another is waiting: the older bundle is unpacked last, under the
      browser opened at the newer one. */
  lemma SomeSecondLaunchLosesPath(R: iset<Path>, s: Path) returns (p: Path, i: nat)
    requires Closed(R) && s in R && s == FromWorld(WAITING, EMPTY.(asked := [Asked(None, 1, {1})]), AT_ONE)
    ensures p in R && p.w == WAITING && i < |p.ops| == |p.calm| && p.ops[i].Ask? && p.calm == CalmBut(i, |p.calm|)
    ensures 5 in p.o.done && !Kept(5, p.o, p.srv)
  {
    p := OtherPushes(R, s);
    assert Without(p.o.pending, 0) == [];
    p := OtherMoves(R, p, Finish(1, 0, true), p.o.(pending := [], marker := None, held := Some(2)), p.srv, true);
    p := Begins(R, p);
    i := |p.ops|;
    var a := Asked(None, 1, {1});
    p := AsksAgain(R, p, a);
    p := Unpacks(R, p, a, true);
    p := SendsAnother(R, p);
  }

  /** A second launch asks while the first waits, and lands before it. */
  lemma AsksAgain(R: iset<Path>, p: Path, a: Asked) returns (q: Path)
    requires Closed(R) && p in R && p.m == EMPTY.(requests := [None], asked := [a]) && p.srv.version == 2
    ensures q in R && q.w == p.w && q.srv == p.srv && q.o == p.o
    ensures q.ops == p.ops + [Ask(0, 0, true), Land(0, 1, PLAIN), Enter(0, 0)] && q.calm == p.calm + [false, true, true]
    ensures q.m == p.m.(requests := [], local := q.m.local, held := Some(2), running := Some(2))
  {
    var b := Asked(None, 2, p.srv.content);
    assert Without(p.m.requests, 0) == [];
    q := Moves(R, p, Ask(0, 0, true), p.m.(requests := [], asked := [a] + [b]), p.srv, false);
    assert Without(q.m.asked, 1) == [a];
    var m := p.m.(requests := [], local := b.content + {} * p.m.local, held := Some(2), starting := [] + [2]);
    q := Moves(R, q, Land(0, 1, PLAIN), m, p.srv, true);
    q := Enters(R, q, 2);
  }

  lemma SomeSecondLaunchLoses() returns (ops: seq<Op>, i: nat)
    ensures Loses(Start(2), ops, i, 1, 5) && i < |ops| && ops[i].Ask?
  {
    PathsClosed();
    var before := Waiting();
    var p;
    p, i := SomeSecondLaunchLosesPath(Paths(), FromWorld(WAITING, EMPTY.(asked := [Asked(None, 1, {1})]), AT_ONE));
    PathLoses(p, i, 1, 5);
    LosesAfter(Start(2), before, WAITING, p.ops, i, 1, 5);
    return before + p.ops, |before| + i;
  }

  /** A launch that reads the record while an upload is awaited and asks after the answer. */
  lemma SomeStaleRecordLosesPath(R: iset<Path>, s: Path) returns (p: Path, i: nat)
    requires Closed(R) && s in R && s == FromWorld(BOTH, AT_ONE, AT_ONE)
    ensures p in R && p.w == BOTH && i < |p.ops| == |p.calm| && p.ops[i].Ask? && p.calm == CalmBut(i, |p.calm|)
    ensures 10 in p.m.done && !Kept(10, p.m, p.srv)
  {
    p, i := SomeRecordIsStale(R, s);
    p := Asks(R, p, true);
    p := Opens(R, p, Asked(Some(2), 2, {}));
    p := SendsAnother(R, p);
  }

  lemma SomeRecordIsStale(R: iset<Path>, s: Path) returns (p: Path, i: nat)
    requires Closed(R) && s in R && s == FromWorld(BOTH, AT_ONE, AT_ONE)
    ensures p in R && p.w == BOTH && i == 6 && |p.ops| == |p.calm| == 8 && p.ops[i].Ask? && p.calm == CalmBut(i, 8)
    ensures p.srv.version == 2 && 10 in p.m.done
    ensures p.m == EMPTY.(local := {}, held := Some(2), done := p.m.done)
  {
    var sent := Push(1, {1} + {10}, None);
    p := Closes(R, s);
    p := Packs(R, p, 10, 1);
    p := Uploads(R, p, sent);
    p := Begins(R, p);
    p := Hears(R, p, sent.(accepted := Some(2)));
    i := |p.ops|;
    p := IsAnswered(R, p, Some(1), false);
    p := Breaks(R, p, Asked(Some(1), 2, {1} + {10}));
    assert p.m.local == {};
  }

  lemma SomeStaleRecordLoses() returns (ops: seq<Op>, i: nat)
    ensures Loses(Start(2), ops, i, 0, 10) && i < |ops| && ops[i].Ask?
  {
    PathsClosed();
    var before := BothOpen();
    var p;
    p, i := SomeStaleRecordLosesPath(Paths(), FromWorld(BOTH, AT_ONE, AT_ONE));
    PathLoses(p, i, 0, 10);
    LosesAfter(Start(2), before, BOTH, p.ops, i, 0, 10);
    return before + p.ops, |before| + i;
  }
}
