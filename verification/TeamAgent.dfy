/** The same protocol as objects that change: a server with its two bundle requests, and one machine's
    launches, closes and extension copies, each in the parts that run without waiting. */
module TeamAgent {
  import opened Wrappers
  import opened TeamSync

  datatype Fetched = Nothing | Unchanged(version: nat) | Bundle(version: nat, content: set<Work>)

  class TeamServer {
    var version: nat
    var content: set<Work>

    ghost function State(): Server
      reads this
    {
      Server(version, content)
    }

    constructor ()
      ensures State() == Server(0, {})
    {
      version, content := 0, {};
    }

    /** Answers with what is stored. A caller's own version is answered briefly, except by a server that
        knows nothing of If-None-Match. */
    method Download(have: Option<nat>, answers304: bool) returns (f: Fetched)
      ensures f == if version == 0 then Nothing
                   else if answers304 && have == Some(version) then Unchanged(version)
                   else Bundle(version, content)
    {
      if version == 0 {
        f := Nothing;
      } else if answers304 && have == Some(version) {
        f := Unchanged(version);
      } else {
        f := Bundle(version, content);
      }
    }

    /** Stores a bundle as the next version if it says it grew from this one. */
    method Upload(base: nat, bundle: set<Work>, allowed: bool) returns (r: Result<nat, ()>)
      modifies this
      ensures old(allowed && base == version) ==>
                r == Ok(old(version) + 1) && State() == Server(old(version) + 1, bundle)
      ensures !old(allowed && base == version) ==> r == Err(()) && State() == old(State())
    {
      if !allowed || base != version {
        return Err(());
      }
      version, content := version + 1, bundle;
      r := Ok(version);
    }
  }

  /** The agent's part in one profile. What its tasks hold while they wait is kept in the lists. */
  class Agent {
    var local: set<Work>
    var held: Option<nat>
    var marker: Option<nat>
    var asides: seq<set<Work>>
    var begun: nat
    var requests: seq<Option<nat>>
    var asked: seq<Asked>
    var starting: seq<nat>
    var running: Option<nat>
    var leaving: seq<nat>
    var pending: seq<Push>
    var late: seq<Push>
    ghost var done: set<Work>

    ghost function State(): Machine
      reads this
    {
      Machine(local, held, marker, asides, begun, requests, asked, starting, running, leaving, pending, late, done)
    }

    constructor ()
      ensures State() == EMPTY
    {
      local, held, marker, asides, done := {}, None, None, [], {};
      begun, requests, asked, starting, running, leaving, pending, late := 0, [], [], [], None, [], [], [];
    }

    // ----- a launch -----

    method Begin() returns (closed: bool)
      modifies this
      ensures State() == BeginOn(old(State()))
      ensures closed <==> old(running).None?
    {
      closed := running.None?;
      if closed {
        begun := begun + 1;
      }
    }

    method Request()
      requires begun > 0
      modifies this
      ensures State() == RequestOn(old(State()))
    {
      begun := begun - 1;
      requests := requests + [held];
    }

    method AskFor(i: nat, server: TeamServer, answers304: bool, answered: bool)
      requires i < |requests|
      modifies this
      ensures State() == AskOn(old(State()), i, server.State(), answered)
    {
      var have := requests[i];
      requests := Without(requests, i);
      if !answered {
        return;
      }
      var fetched := server.Download(have, answers304);
      match fetched {
        case Unchanged(version) =>
          asked := asked + [Asked(have, version, {})];
        case Bundle(version, content) =>
          asked := asked + [Asked(have, version, if have == Some(version) then {} else content)];
        case Nothing =>
          asked := asked + [Asked(have, 0, {})];
      }
    }

    method MoveAside()
      modifies this
      ensures State() == SetAside(old(State()))
    {
      asides := asides + [local];
      local, held, marker := {}, None, None;
    }

    /** Writes the bundle over the directory, and the record after it. */
    method Unpack(a: Asked, how: Unpacking) returns (whole: bool)
      modifies this
      ensures whole <==> how.Unpacked?
      ensures State() == match how
                         case Unpacked(rest) =>
                           old(State()).(local := a.content + rest * old(local), held := Some(a.version))
                         case BrokeOff(left) =>
                           old(State()).(local := left * (a.content + old(local)))
    {
      match how {
        case BrokeOff(left) =>
          local := left * (a.content + local);
        case Unpacked(rest) =>
          local := a.content + rest * local;
          held := Some(a.version);
      }
      whole := how.Unpacked?;
    }

    method Spawn(version: nat, spawned: bool)
      modifies this
      ensures State() == Opened(old(State()), version, spawned)
    {
      if spawned {
        starting := starting + [version];
      }
    }

    method Land(i: nat, how: Landing) returns (up: bool)
      requires i < |asked|
      modifies this
      ensures State() == LandOn(old(State()).(asked := Without(old(asked), i)), old(asked)[i], how)
      ensures starting == old(starting) + if up then [old(asked)[i].version] else []
    {
      var a := asked[i];
      asked := Without(asked, i);
      if Differs(a) {
        var pull := Decide(marker, a.version);
        if pull != KeepLocal {
          if pull == SetAsideThenUnpack {
            if !how.moved {
              return false;
            }
            MoveAside();
          }
          var whole := Unpack(a, how.unpacking);
          if !whole {
            return false;
          }
        }
      }
      Spawn(a.version, how.spawned);
      up := how.spawned;
    }

    method Enter(i: nat)
      requires i < |starting|
      modifies this
      ensures State() == EnterOn(old(State()), i)
    {
      running := Some(starting[i]);
      starting := Without(starting, i);
    }

    /** A launch during which nothing else is asked of the agent. */
    method Launch(server: TeamServer, answers304: bool, answered: bool, how: Landing) returns (up: bool)
      modifies this
      ensures State() == LaunchOn(old(State()), server.State(), answered, how)
    {
      var closed := Begin();
      if !closed {
        return false;
      }
      Request();
      AskFor(|requests| - 1, server, answers304, answered);
      assert requests == old(requests);
      if !answered {
        return false;
      }
      assert Without(asked, |asked| - 1) == old(asked);
      up := Land(|asked| - 1, how);
      if up {
        Enter(|starting| - 1);
      }
    }

    // ----- a close -----

    method Close() returns (closing: bool)
      modifies this
      ensures State() == CloseOn(old(State()))
      ensures closing <==> old(running).Some?
    {
      if running.None? {
        return false;
      }
      leaving := leaving + [running.value];
      running := None;
      closing := true;
    }

    method PackUp(i: nat, work: Work, packed: bool)
      requires i < |leaving|
      modifies this
      ensures State() == PackOn(old(State()), i, work, packed)
    {
      var base := leaving[i];
      leaving := Without(leaving, i);
      local := local + {work};
      done := done + {work};
      if packed {
        pending := pending + [Push(base, local, None)];
      } else {
        marker := Some(base);
      }
    }

    method Send(j: nat, server: TeamServer, allowed: bool)
      requires j < |pending| && pending[j].accepted.None?
      modifies this, server
      ensures State() == UploadOn(old(State()), j, old(server.State()), allowed)
      ensures server.State() == Stored(old(server.State()), old(pending)[j], allowed)
    {
      var p := pending[j];
      var r := server.Upload(p.base, p.snapshot, allowed);
      if r.Ok? {
        pending := pending[j := p.(accepted := Some(r.value))];
      }
    }

    method Finish(j: nat, heard: bool) returns (uploaded: Option<nat>)
      requires j < |pending|
      modifies this
      ensures State() == FinishOn(old(State()), j, heard)
      ensures uploaded == if heard then old(pending)[j].accepted else None
    {
      var p := pending[j];
      pending := Without(pending, j);
      uploaded := if heard then p.accepted else None;
      match uploaded {
        case Some(version) =>
          marker := None;
          held := Some(version);
        case None =>
          marker := Some(p.base);
          if p.accepted.None? {
            late := late + [p];
          }
      }
    }

    /** A close during which nothing else is asked of the agent. */
    method Stop(server: TeamServer, work: Work, how: Sending) returns (stopped: bool, uploaded: Option<nat>)
      modifies this, server
      ensures (State(), server.State()) == StopOn(old(State()), old(server.State()), work, how)
      ensures stopped <==> old(running).Some?
      ensures uploaded.Some? ==> uploaded == held
    {
      uploaded := None;
      stopped := Close();
      if stopped {
        PackUp(|leaving| - 1, work, how.packed);
        if how.packed {
          Send(|pending| - 1, server, how.allowed);
          uploaded := Finish(|pending| - 1, how.heard);
        }
      }
    }

    /** An upload given up reaches the server after all. */
    method Arrive(j: nat, server: TeamServer, allowed: bool)
      requires j < |late|
      modifies server
      ensures server.State() == Stored(old(server.State()), late[j], allowed)
    {
      var _ := server.Upload(late[j].base, late[j].snapshot, allowed);
    }

    method CopyExtension(work: Work) returns (copied: bool)
      modifies this
      ensures State() == CopyOn(old(State()), work)
      ensures copied <==> old(running).None? && old(held).Some?
    {
      if running.Some? || held.None? {
        return false;
      }
      local := local + {work};
      done := done + {work};
      if marker.None? {
        marker := held;
      }
      copied := true;
    }
  }
}
