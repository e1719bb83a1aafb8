/** One team profile, the server that keeps it and the machines that open it: what a launch pulls,
    what a close pushes, and what is remembered beside the profile directory in between. A launch
    and a close wait for the network and for the browser, and other requests run while they wait, so
    each is several steps here. */
module TeamSync {
  import opened Wrappers

  /** A finished session, or anything else done in a profile. A directory, or a bundle of it, is the
      set of what it holds. */
  type Work = nat

  /** The profile on the server. Version 0 is a profile that was never uploaded. */
  datatype Server = Server(version: nat, content: set<Work>)

  /** What a launch that waits for its bundle goes on with: the version recorded for the directory
      when it asked, and the bundle the server answered with. */
  datatype Asked = Asked(held: Option<nat>, version: nat, content: set<Work>)

  /** A close's upload: the version its browser was opened at, the directory as it was packed, and
      the version the server gave it, once it did. */
  datatype Push = Push(base: nat, snapshot: set<Work>, accepted: Option<nat>)

  /** The profile on one machine. On disk: its directory, the version that directory is recorded to
      be, the marker of an unsent session, and the copies moved out of the way. In the agent: how many
      launches found the profile closed and have not asked yet, the records the others asked with, the
      launches whose answer is here, the versions browsers not listed yet were started at, that of the
      open browser, those of browsers told to close, the uploads being waited for, and those given up
      that may still arrive. `done` is what was ever finished here. */
  datatype Machine = Machine(local: set<Work>, held: Option<nat>, marker: Option<nat>, asides: seq<set<Work>>,
                             begun: nat, requests: seq<Option<nat>>, asked: seq<Asked>, starting: seq<nat>,
                             running: Option<nat>, leaving: seq<nat>, pending: seq<Push>, late: seq<Push>,
                             done: set<Work>)

  const EMPTY: Machine := Machine({}, None, None, [], 0, [], [], [], None, [], [], [], {})

  function Without<T>(s: seq<T>, i: nat): seq<T>
    requires i < |s|
  {
    s[..i] + s[i + 1..]
  }

  // ----- a launch -----

  datatype Pull = Unpack | KeepLocal | SetAsideThenUnpack

  /** How a bundle that differs is met, by the marker's version and its own. */
  function Decide(base: Option<nat>, server: nat): Pull {
    match base
    case None => Unpack
    case Some(b) => if b == server then KeepLocal else SetAsideThenUnpack
  }

  /** How unpacking over a directory ends: the server's files written, with some of what was there
      before still beside them, or broken off with anything of either. */
  datatype Unpacking = Unpacked(rest: set<Work>) | BrokeOff(left: set<Work>)

  /** What happens once the bundle is here: whether the old directory could be moved, how unpacking
      went, whether the browser came up. */
  datatype Landing = Landing(moved: bool, unpacking: Unpacking, spawned: bool)

  /** The bundle is not what the directory was recorded to be. */
  predicate Differs(a: Asked) {
    a.version != 0 && a.held != Some(a.version)
  }

  /** What the server's answer comes to; a bundle that is here already is not taken again. */
  function Answer(held: Option<nat>, srv: Server): Asked {
    Asked(held, srv.version, if srv.version == 0 || held == Some(srv.version) then {} else srv.content)
  }

  /** The first part of a launch: an open profile is refused. */
  function BeginOn(m: Machine): Machine {
    if m.running.Some? then m else m.(begun := m.begun + 1)
  }

  /** The second: the version recorded for the directory is read, to ask with. */
  function RequestOn(m: Machine): Machine
    requires m.begun > 0
  {
    m.(begun := m.begun - 1, requests := m.requests + [m.held])
  }

  /** The third: the server answers, or the launch is over. */
  function AskOn(m: Machine, i: nat, srv: Server, answered: bool): Machine
    requires i < |m.requests|
  {
    var f := m.(requests := Without(m.requests, i));
    if answered then f.(asked := m.asked + [Answer(m.requests[i], srv)]) else f
  }

  /** The browser is started, or fails to. */
  function Opened(m: Machine, version: nat, spawned: bool): Machine {
    if spawned then m.(starting := m.starting + [version]) else m
  }

  function SetAside(m: Machine): Machine {
    m.(local := {}, held := None, marker := None, asides := m.asides + [m.local])
  }

  function UnpackOver(m: Machine, a: Asked, how: Landing): Machine {
    match how.unpacking
    case Unpacked(rest) =>
      Opened(m.(local := a.content + rest * m.local, held := Some(a.version)), a.version, how.spawned)
    case BrokeOff(left) => m.(local := left * (a.content + m.local))
  }

  /** The fourth: the marker is read only now. */
  function LandOn(m: Machine, a: Asked, how: Landing): Machine {
    if !Differs(a) then Opened(m, a.version, how.spawned)
    else
      match Decide(m.marker, a.version)
      case KeepLocal => Opened(m, a.version, how.spawned)
      case Unpack => UnpackOver(m, a, how)
      case SetAsideThenUnpack => if how.moved then UnpackOver(SetAside(m), a, how) else m
  }

  /** The last part: once the browser is ready the profile counts as open. */
  function EnterOn(m: Machine, i: nat): Machine
    requires i < |m.starting|
  {
    m.(starting := Without(m.starting, i), running := Some(m.starting[i]))
  }

  // ----- a close -----

  /** The first part: the profile stops counting as open before its browser has exited. */
  function CloseOn(m: Machine): Machine {
    if m.running.None? then m else m.(running := None, leaving := m.leaving + [m.running.value])
  }

  /** The second: the browser has exited and left its session in the directory, which is packed for
      the upload. A directory that cannot be packed is marked at once. */
  function PackOn(m: Machine, i: nat, work: Work, packed: bool): Machine
    requires i < |m.leaving|
  {
    var base := m.leaving[i];
    var f := m.(leaving := Without(m.leaving, i), local := m.local + {work}, done := m.done + {work});
    if packed then f.(pending := m.pending + [Push(base, f.local, None)]) else f.(marker := Some(base))
  }

  /** The server takes an upload that grew from the version it has, unless the lock, the key
      generation or the way there says no. */
  predicate Accepts(srv: Server, p: Push, allowed: bool) {
    allowed && p.base == srv.version
  }

  function Stored(srv: Server, p: Push, allowed: bool): Server {
    if Accepts(srv, p, allowed) then Server(srv.version + 1, p.snapshot) else srv
  }

  /** The third: the upload reaches the server. */
  function UploadOn(m: Machine, j: nat, srv: Server, allowed: bool): Machine
    requires j < |m.pending|
  {
    var p := m.pending[j];
    if p.accepted.Some? || !Accepts(srv, p, allowed) then m
    else m.(pending := m.pending[j := p.(accepted := Some(srv.version + 1))])
  }

  /** The last: the answer is here, or is given up. An upload given up before the server saw it may
      still arrive. */
  function FinishOn(m: Machine, j: nat, heard: bool): Machine
    requires j < |m.pending|
  {
    var p := m.pending[j];
    var f := m.(pending := Without(m.pending, j));
    if p.accepted.Some? then
      if heard then f.(marker := None, held := p.accepted) else f.(marker := Some(p.base))
    else
      f.(marker := Some(p.base), late := m.late + [p])
  }

  // ----- both with nobody in between -----

  function LaunchOn(m: Machine, srv: Server, answered: bool, how: Landing): Machine {
    if m.running.Some? || !answered then m
    else
      var n := LandOn(m, Answer(m.held, srv), how);
      if |n.starting| > |m.starting| then EnterOn(n, |m.starting|) else n
  }

  /** How an upload ends: taken or refused, and the answer heard or not. */
  datatype Sending = Sending(packed: bool, allowed: bool, heard: bool)

  function StopOn(m: Machine, srv: Server, work: Work, how: Sending): (Machine, Server) {
    if m.running.None? then (m, srv)
    else
      var f := PackOn(CloseOn(m), |m.leaving|, work, how.packed);
      if !how.packed then (f, srv)
      else
        var j := |m.pending|;
        (FinishOn(UploadOn(f, j, srv, how.allowed), j, how.heard), Stored(srv, f.pending[j], how.allowed))
  }

  // ----- everything else -----

  /** A directory may be copied into while no browser has it and a version is recorded for it. */
  predicate Copies(m: Machine) {
    m.running.None? && m.held.Some?
  }

  function CopyOn(m: Machine, work: Work): Machine {
    if !Copies(m) then m
    else
      m.(local := m.local + {work}, done := m.done + {work}, marker := if m.marker.None? then m.held else m.marker)
  }

  // ----- runs -----

  datatype World = World(server: Server, machines: seq<Machine>)

  /** One step of machine k, and `Share`: a profile of one machine gets its first upload. */
  datatype Op =
    | Begin(k: nat)
    | Request(k: nat)
    | Ask(k: nat, i: nat, answered: bool)
    | Land(k: nat, i: nat, how: Landing)
    | Enter(k: nat, i: nat)
    | Close(k: nat)
    | Pack(k: nat, i: nat, work: Work, packed: bool)
    | Upload(k: nat, i: nat, allowed: bool)
    | Finish(k: nat, i: nat, heard: bool)
    | Late(k: nat, i: nat, allowed: bool)
    | Copy(k: nat, work: Work)
    | Share(works: set<Work>, allowed: bool)

  /** The machine after its step; a step that has nothing to work on changes nothing. */
  function Stepped(m: Machine, srv: Server, op: Op): Machine {
    match op
    case Begin(_) => BeginOn(m)
    case Request(_) => if m.begun == 0 then m else RequestOn(m)
    case Ask(_, i, answered) => if i >= |m.requests| then m else AskOn(m, i, srv, answered)
    case Land(_, i, how) =>
      if i >= |m.asked| then m else LandOn(m.(asked := Without(m.asked, i)), m.asked[i], how)
    case Enter(_, i) => if i >= |m.starting| then m else EnterOn(m, i)
    case Close(_) => CloseOn(m)
    case Pack(_, i, work, packed) => if i >= |m.leaving| then m else PackOn(m, i, work, packed)
    case Upload(_, i, allowed) => if i >= |m.pending| then m else UploadOn(m, i, srv, allowed)
    case Finish(_, i, heard) => if i >= |m.pending| then m else FinishOn(m, i, heard)
    case Late(_, _, _) => m
    case Copy(_, work) => CopyOn(m, work)
    case Share(_, _) => m
  }

  /** The server after machine m's step. */
  function Served(m: Machine, srv: Server, op: Op): Server {
    match op
    case Upload(_, i, allowed) =>
      if i < |m.pending| && m.pending[i].accepted.None? then Stored(srv, m.pending[i], allowed) else srv
    case Late(_, i, allowed) => if i < |m.late| then Stored(srv, m.late[i], allowed) else srv
    case _ => srv
  }

  function Next(w: World, op: Op): (v: World)
    ensures |v.machines| == |w.machines|
  {
    if op.Share? then w.(server := Stored(w.server, Push(0, op.works, None), op.allowed))
    else if op.k >= |w.machines| then w
    else
      var m := w.machines[op.k];
      World(Served(m, w.server, op), w.machines[op.k := Stepped(m, w.server, op)])
  }

  /** n machines that never saw the profile, and a server that never got it. */
  function Start(n: nat): World {
    World(Server(0, {}), seq(n, _ => EMPTY))
  }

  function Run(w: World, ops: seq<Op>): (v: World)
    ensures |v.machines| == |w.machines|
  {
    if ops == [] then w else Next(Run(w, ops[..|ops| - 1]), ops[|ops| - 1])
  }

  // ----- what the steps must not do to each other -----

  /** The step keeps out of the way of what machine m is waiting for: while an upload is awaited, no
      copy is made into the directory, no second close packs it, and no launch unpacks a bundle over
      it; while one the server has taken is, no launch is answered with a bundle to unpack. One launch
      has an answer at a time, to the record as it still is. */
  predicate Calm(m: Machine, srv: Server, op: Op) {
    match op
    case Ask(_, i, answered) =>
      i < |m.requests| && answered ==>
        m.requests[i] == m.held && m.asked == [] && (NoneTaken(m) || !Differs(Answer(m.held, srv)))
    case Land(_, i, _) => i < |m.asked| && Differs(m.asked[i]) ==> m.pending == []
    case Pack(_, i, _, _) => i < |m.leaving| ==> m.pending == []
    case Copy(_, _) => Copies(m) ==> m.pending == []
    case _ => true
  }

  /** The server has taken none of the uploads that are awaited. */
  predicate NoneTaken(m: Machine) {
    forall p <- m.pending :: p.accepted.None?
  }

  predicate CalmIn(w: World, op: Op) {
    op.Share? || op.k >= |w.machines| || Calm(w.machines[op.k], w.server, op)
  }

  predicate CalmRun(w: World, ops: seq<Op>) {
    ops == [] || (CalmRun(w, ops[..|ops| - 1]) && CalmIn(Run(w, ops[..|ops| - 1]), ops[|ops| - 1]))
  }
}
