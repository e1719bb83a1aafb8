/** What every interleaving of a synchronised group keeps: no feedback, one order, every action counted. */
module MirrorRuns {
  import opened Wrappers
  import opened MirrorSpec

  // ----- what is kept -----

  /** A member's hand is its own, and its mute covers the last replay that began in it. */
  predicate MemberOk(g: Group, id: string)
    requires id in g.members
  {
    var m := g.members[id];
    && m.hand < |g.hands| && g.hands[m.hand].id == id
    && (m.struck.Some? ==> m.struck.value <= g.clock && m.struck.value + MUTE_REPLAY <= m.mutedUntil)
  }

  /** Everything a hand was ever given, performed first. */
  function Given(hand: Hand): seq<Action> {
    hand.performed + hand.queue
  }

  /** The numbers of the fan-outs that went to a hand, in their order. */
  function Projection(casts: seq<Cast>, h: nat): seq<nat> {
    if casts == [] then []
    else
      var k := |casts| - 1;
      Projection(casts[..k], h) + if h in casts[k].to then [k] else []
  }

  function Numbers(actions: seq<Action>): seq<nat> {
    seq(|actions|, i requires 0 <= i < |actions| => actions[i].cast)
  }

  /** The actions carry the events of the fan-outs they are numbered by. */
  predicate Faithful(actions: seq<Action>, casts: seq<Cast>) {
    forall a <- actions :: a.cast < |casts| && a.ev == casts[a.cast].ev
  }

  /** A hand was given the fan-outs that went to it, each once, in order. */
  predicate HandOk(g: Group, h: nat)
    requires h < |g.hands|
  {
    Numbers(Given(g.hands[h])) == Projection(g.casts, h) && Faithful(Given(g.hands[h]), g.casts)
  }

  predicate GroupOk(g: Group) {
    && (forall id <- g.members :: MemberOk(g, id))
    && (forall h | 0 <= h < |g.hands| :: HandOk(g, h))
    && (forall c <- g.casts :: forall h <- c.to :: h < |g.hands|)
  }

  // ----- fan-out -----

  lemma ProjectionAdd(casts: seq<Cast>, c: Cast, h: nat)
    ensures Projection(casts + [c], h) == Projection(casts, h) + if h in c.to then [|casts|] else []
  {
    assert (casts + [c])[..|casts|] == casts;
  }

  lemma {:induction false} ProjectionBeyond(casts: seq<Cast>, h: nat)
    requires forall c <- casts :: h !in c.to
    ensures Projection(casts, h) == []
    decreases |casts|
  {
    if casts != [] {
      assert casts[|casts| - 1] in casts;
      ProjectionBeyond(casts[..|casts| - 1], h);
    }
  }

  lemma FanOutHand(g: Group, from: string, ev: PageEvent, now: int, h: nat)
    requires GroupOk(g) && h < |g.hands| && !Dropped(g, from, ev, now)
    ensures HandOk(FannedOut(g, from, ev, now), h)
  {
    var n := FannedOut(g, from, ev, now);
    var c := Cast(from, ev, HandsOf(g, from));
    assert n.hands[h] == Queued(g, from, ev, h);
    assert HandOk(g, h);
    ProjectionAdd(g.casts, c, h);
    var was, given := Given(g.hands[h]), Given(n.hands[h]);
    if Hears(g, from, h) {
      var a := Action(|g.casts|, ev, Last(g.members[g.hands[h].id].sessions));
      assert given == was + [a];
      assert Numbers(given) == Numbers(was) + [|g.casts|];
      assert n.casts[|g.casts|] == c;
    } else {
      assert given == was;
    }
    forall x | x in given ensures x.cast < |n.casts| && x.ev == n.casts[x.cast].ev {
    }
  }

  lemma FanOutKeeps(g: Group, from: string, ev: PageEvent, now: int)
    requires GroupOk(g) && now >= g.clock
    ensures GroupOk(FannedOut(g, from, ev, now).(clock := now))
  {
    var n := FannedOut(g, from, ev, now).(clock := now);
    forall id | id in n.members ensures MemberOk(n, id) {
      assert MemberOk(g, id);
    }
    if !Dropped(g, from, ev, now) {
      forall h | 0 <= h < |n.hands| ensures HandOk(n, h) {
        FanOutHand(g, from, ev, now, h);
        assert HandOk(FannedOut(g, from, ev, now), h);
      }
    } else {
      SameHands(g, n);
    }
  }

  lemma SameHands(g: Group, n: Group)
    requires GroupOk(g) && n.hands == g.hands && n.casts == g.casts
    ensures forall h | 0 <= h < |n.hands| :: HandOk(n, h)
  {
    forall h | 0 <= h < |n.hands| ensures HandOk(n, h) {
      assert HandOk(g, h);
    }
  }

  // ----- the other steps -----

  lemma JoinKeeps(g: Group, id: string, now: int)
    requires GroupOk(g) && now >= g.clock
    ensures GroupOk(Joined(g, id, now).(clock := now))
  {
    var n := Joined(g, id, now).(clock := now);
    forall x | x in n.members ensures MemberOk(n, x) {
      if x != id {
        assert MemberOk(g, x);
      }
    }
    forall h | 0 <= h < |n.hands| ensures HandOk(n, h) {
      if h < |g.hands| {
        assert HandOk(g, h);
      } else {
        ProjectionBeyond(g.casts, h);
      }
    }
  }

  lemma ReplayKeeps(g: Group, h: nat, now: int)
    requires GroupOk(g) && now >= g.clock
    ensures GroupOk(Replayed(g, h, now).(clock := now))
  {
    var n := Replayed(g, h, now).(clock := now);
    forall x | x in n.members ensures MemberOk(n, x) {
      assert MemberOk(g, x);
    }
    forall k | 0 <= k < |n.hands| ensures HandOk(n, k) {
      assert HandOk(g, k);
      assert Given(n.hands[k]) == Given(g.hands[k]);
    }
  }

  /** The hands and the fan-outs are as they were, and whoever is still in the group has its hand and
      its last replay, and is muted as long as before or as long as for a replay now. */
  ghost predicate OnlyMembers(g: Group, n: Group, now: int) {
    && n.hands == g.hands && n.casts == g.casts && n.mirrored == g.mirrored
    && forall x <- n.members ::
         && x in g.members && n.members[x].hand == g.members[x].hand && n.members[x].struck == g.members[x].struck
         && (n.members[x].mutedUntil >= g.members[x].mutedUntil || n.members[x].mutedUntil >= now + MUTE_REPLAY)
  }

  lemma PlainStep(g: Group, op: Op)
    requires op.step.Leave? || op.step.Stop? || op.step.Arm? || op.step.Detach? || op.step.Typing?
    ensures OnlyMembers(g, Do(g, op), op.now)
  {
  }

  lemma ArriveStep(g: Group, id: string, url: string, now: int)
    ensures OnlyMembers(g, Navigated(g, id, url, now), now)
  {
  }

  lemma OtherStep(g: Group, op: Op)
    requires !op.step.Join? && !op.step.Replay? && !op.step.Report?
    ensures OnlyMembers(g, Do(g, op), op.now)
  {
    if op.step.Arrive? {
      ArriveStep(g, op.step.id, op.step.url, op.now);
    } else {
      PlainStep(g, op);
    }
  }

  lemma OnlyMembersKeeps(g: Group, n: Group, now: int)
    requires GroupOk(g) && now >= g.clock && OnlyMembers(g, n, now)
    ensures GroupOk(n.(clock := now))
  {
    SameHands(g, n.(clock := now));
    forall x | x in n.members ensures MemberOk(n.(clock := now), x) {
      assert MemberOk(g, x);
    }
  }

  lemma StepKeeps(g: Group, op: Op)
    requires GroupOk(g) && op.now >= g.clock
    ensures GroupOk(Next(g, op))
  {
    if op.step.Join? {
      JoinKeeps(g, op.step.id, op.now);
    } else if op.step.Report? {
      FanOutKeeps(g, op.step.id, op.step.ev, op.now);
    } else if op.step.Replay? {
      ReplayKeeps(g, op.step.hand, op.now);
    } else {
      OtherStep(g, op);
      OnlyMembersKeeps(g, Do(g, op), op.now);
    }
  }

  lemma {:induction false} RunKeeps(ops: seq<Op>)
    requires InTime(EMPTY, ops)
    ensures GroupOk(Run(EMPTY, ops))
    decreases |ops|
  {
    if ops != [] {
      RunKeeps(ops[..|ops| - 1]);
      StepKeeps(Run(EMPTY, ops[..|ops| - 1]), ops[|ops| - 1]);
    }
  }

  // ----- no feedback -----

  /** A replay that began at t still counts: the member, if it is there, was struck then or later. */
  predicate StruckSince(g: Group, id: string, t: int) {
    id in g.members ==> g.members[id].struck.Some? && g.members[id].struck.value >= t
  }

  predicate JoinsNot(ops: seq<Op>, id: string) {
    forall op <- ops :: op.step != Join(id)
  }

  /** What one step can do to a member that does not join in it. */
  lemma StepMember(g: Group, op: Op, id: string)
    requires op.step != Join(id) && id in Next(g, op).members
    ensures id in g.members
    ensures var m, n := g.members[id], Next(g, op).members[id];
            && (n.struck == m.struck || n.struck == Some(op.now))
            && (n.lastClick == m.lastClick || n.lastClick == op.now)
  {
  }

  lemma {:induction false} StaysStruck(g: Group, ops: seq<Op>, id: string, t: int)
    requires StruckSince(g, id, t) && g.clock >= t && InTime(g, ops) && JoinsNot(ops, id)
    ensures StruckSince(Run(g, ops), id, t) && Run(g, ops).clock >= t
    decreases |ops|
  {
    if ops != [] {
      var before, op := ops[..|ops| - 1], ops[|ops| - 1];
      assert op in ops;
      StaysStruck(g, before, id, t);
      if id in Run(g, ops).members {
        StepMember(Run(g, before), op, id);
      }
    }
  }

  /** No feedback. After any run, let a hand begin a replay in its member at moment t; then let any
      other steps happen, save that the member does not join anew. Whatever the member's page reports
      less than 600 ms after t is not fanned out, and changes nothing. */
  lemma NoFeedback(before: seq<Op>, h: nat, t: int, after: seq<Op>, id: string, ev: PageEvent, echo: bool, now: int)
    requires InTime(EMPTY, before + [At(t, Replay(h))] + after + [At(now, Report(id, ev, echo))])
    requires var g := Run(EMPTY, before); h < |g.hands| && g.hands[h].id == id && g.hands[h].queue != []
    requires JoinsNot(after, id) && now < t + 600
    ensures var g := Run(EMPTY, before + [At(t, Replay(h))] + after);
            Next(g, At(now, Report(id, ev, echo))) == g.(clock := now)
  {
    var whole := before + [At(t, Replay(h))] + after;
    InTimePrefix(EMPTY, whole, [At(now, Report(id, ev, echo))]);
    StaysStruckAfter(before, h, t, after, id);
    RunKeeps(whole);
    StruckIsDeaf(Run(EMPTY, whole), id, t, ev, echo, now);
  }

  lemma StaysStruckAfter(before: seq<Op>, h: nat, t: int, after: seq<Op>, id: string)
    requires InTime(EMPTY, before + [At(t, Replay(h))] + after)
    requires var g := Run(EMPTY, before); h < |g.hands| && g.hands[h].id == id && g.hands[h].queue != []
    requires JoinsNot(after, id)
    ensures StruckSince(Run(EMPTY, before + [At(t, Replay(h))] + after), id, t)
  {
    var begun := before + [At(t, Replay(h))];
    InTimePrefix(EMPTY, begun, after);
    RunSplit(EMPTY, begun, after);
    assert begun[..|before|] == before;
    ReplayStrikes(Run(EMPTY, before), h, t, id);
    StaysStruck(Run(EMPTY, begun), after, id, t);
  }

  lemma ReplayStrikes(g: Group, h: nat, t: int, id: string)
    requires h < |g.hands| && g.hands[h].id == id && g.hands[h].queue != []
    ensures StruckSince(Next(g, At(t, Replay(h))), id, t)
  {
  }

  lemma StruckIsDeaf(g: Group, id: string, t: int, ev: PageEvent, echo: bool, now: int)
    requires GroupOk(g) && StruckSince(g, id, t) && now < t + MUTE_REPLAY
    ensures Next(g, At(now, Report(id, ev, echo))) == g.(clock := now)
  {
    if id in g.members {
      assert MemberOk(g, id);
    }
  }

  lemma {:induction false} RunSplit(g: Group, a: seq<Op>, b: seq<Op>)
    ensures Run(g, a + b) == Run(Run(g, a), b)
    decreases |b|
  {
    if b == [] {
      assert a + b == a;
    } else {
      assert (a + b)[..|a + b| - 1] == a + b[..|b| - 1];
      RunSplit(g, a, b[..|b| - 1]);
    }
  }

  lemma {:induction false} InTimePrefix(g: Group, a: seq<Op>, b: seq<Op>)
    requires InTime(g, a + b)
    ensures InTime(g, a) && InTime(Run(g, a), b)
    decreases |b|
  {
    if b == [] {
      assert a + b == a;
    } else {
      assert (a + b)[..|a + b| - 1] == a + b[..|b| - 1];
      InTimePrefix(g, a, b[..|b| - 1]);
      RunSplit(g, a, b[..|b| - 1]);
    }
  }

  /** Joining anew is what forgets: a member that joins again hears itself at once, however recently a
      replay began in its page. */
  lemma JoiningForgets(g: Group, id: string, joined: int, ev: PageEvent, echo: bool, now: int)
    requires now >= joined && (g.typing || !ev.Key?)
    ensures var s := Next(g, At(joined, Join(id)));
            Next(s, At(now, Report(id, ev, echo))).casts == s.casts + [Cast(id, ev, HandsOf(s, id))]
  {
  }

  // ----- every action counted -----

  /** How many actions all hands were ever given. */
  function Total(hands: seq<Hand>): nat {
    if hands == [] then 0 else Total(hands[..|hands| - 1]) + |Given(hands[|hands| - 1])|
  }

  /** When every hand of a set is given one more action, and no other, the total grows by its size. */
  lemma {:induction false} TotalGrows(a: seq<Hand>, b: seq<Hand>, who: set<nat>)
    requires |a| == |b| && forall h <- who :: h < |a|
    requires forall h | 0 <= h < |a| :: |Given(b[h])| == |Given(a[h])| + if h in who then 1 else 0
    ensures Total(b) == Total(a) + |who|
    decreases |a|
  {
    if a != [] {
      var k := |a| - 1;
      TotalGrows(a[..k], b[..k], who - {k});
    } else {
      assert who == {};
    }
  }

  lemma TotalFanOut(g: Group, from: string, ev: PageEvent, now: int)
    requires !Dropped(g, from, ev, now)
    ensures Total(FannedOut(g, from, ev, now).hands) == Total(g.hands) + |HandsOf(g, from)|
  {
    var after := FannedOut(g, from, ev, now).hands;
    forall h | 0 <= h < |g.hands|
      ensures |Given(after[h])| == |Given(g.hands[h])| + if h in HandsOf(g, from) then 1 else 0
    {
      assert after[h] == Queued(g, from, ev, h);
    }
    TotalGrows(g.hands, after, HandsOf(g, from));
  }

  lemma {:induction false} SameSize(a: set<nat>, b: set<string>, name: map<nat, string>)
    requires name.Keys == a && (forall h <- a :: name[h] in b) && (forall s <- b :: exists h <- a :: name[h] == s)
    requires forall h, k | h in a && k in a && name[h] == name[k] :: h == k
    ensures |a| == |b|
    decreases |a|
  {
    if a != {} {
      var h :| h in a;
      var a', b' := a - {h}, b - {name[h]};
      forall s | s in b' ensures exists k <- a' :: name[k] == s {
        var k :| k in a && name[k] == s;
        assert k in a';
      }
      SameSize(a', b', map k | k in a' :: name[k]);
    } else {
      assert b == {};
    }
  }

  /** Each member of an audience has one hand, and hears the event with it. */
  lemma AudienceHands(g: Group, from: string)
    requires GroupOk(g)
    ensures |HandsOf(g, from)| == |Audience(g, from)|
  {
    var a, b := HandsOf(g, from), Audience(g, from);
    var name := map h | h in a :: g.hands[h].id;
    forall s | s in b ensures exists h <- a :: name[h] == s {
      assert MemberOk(g, s);
      assert g.members[s].hand in a;
    }
    SameSize(a, b, name);
  }

  lemma {:induction false} TotalSame(a: seq<Hand>, b: seq<Hand>)
    requires |a| == |b| && forall h | 0 <= h < |a| :: |Given(a[h])| == |Given(b[h])|
    ensures Total(a) == Total(b)
    decreases |a|
  {
    if a != [] {
      TotalSame(a[..|a| - 1], b[..|b| - 1]);
    }
  }

  /** How many actions one step queues. */
  function QueuedBy(g: Group, op: Op): nat {
    if op.step.Report? && !Dropped(g, op.step.id, op.step.ev, op.now) then |Audience(g, op.step.id)| else 0
  }

  lemma StepCounts(g: Group, op: Op)
    requires GroupOk(g)
    ensures Total(Next(g, op).hands) == Total(g.hands) + QueuedBy(g, op)
    ensures Next(g, op).mirrored == g.mirrored + QueuedBy(g, op)
  {
    if op.step.Report? {
      ReportCounts(g, op.step.id, op.step.ev, op.now);
    } else if op.step.Join? {
      JoinCounts(g, op.step.id, op.now);
    } else if op.step.Replay? {
      ReplayCounts(g, op.step.hand, op.now);
    } else {
      OtherStep(g, op);
    }
  }

  lemma ReportCounts(g: Group, id: string, ev: PageEvent, now: int)
    requires GroupOk(g)
    ensures var n, queued := FannedOut(g, id, ev, now), if Dropped(g, id, ev, now) then 0 else |Audience(g, id)|;
            Total(n.hands) == Total(g.hands) + queued && n.mirrored == g.mirrored + queued
  {
    if !Dropped(g, id, ev, now) {
      TotalFanOut(g, id, ev, now);
      AudienceHands(g, id);
    }
  }

  lemma JoinCounts(g: Group, id: string, now: int)
    ensures Total(Joined(g, id, now).hands) == Total(g.hands) && Joined(g, id, now).mirrored == g.mirrored
  {
    var hands := Joined(g, id, now).hands;
    assert hands[..|hands| - 1] == g.hands;
  }

  lemma ReplayCounts(g: Group, h: nat, now: int)
    ensures Total(Replayed(g, h, now).hands) == Total(g.hands) && Replayed(g, h, now).mirrored == g.mirrored
  {
    TotalSame(Replayed(g, h, now).hands, g.hands);
  }

  /** Every echo arrives within 600 ms of the last replay that began in the page it comes from. */
  predicate EchoesInTime(g: Group, ops: seq<Op>) {
    ops == [] ||
    (EchoesInTime(g, ops[..|ops| - 1]) && EchoInTime(Run(g, ops[..|ops| - 1]), ops[|ops| - 1]))
  }

  predicate EchoInTime(g: Group, op: Op) {
    op.step.Report? && op.step.echo && op.step.id in g.members ==>
      var m := g.members[op.step.id];
      m.struck.Some? && op.now < m.struck.value + 600
  }

  /** Over all genuine events that were not muted, how many other members held a page session. */
  function GenuineAudience(g: Group, ops: seq<Op>): nat {
    if ops == [] then 0
    else
      var before, op := ops[..|ops| - 1], ops[|ops| - 1];
      GenuineAudience(g, before) + if op.step.Report? && !op.step.echo then QueuedBy(Run(g, before), op) else 0
  }

  /** When the echoes come in time, the counter on the status line, and the number of actions ever
      queued, is exactly the audience of what people did: nothing is counted twice, nothing an echo. */
  lemma {:induction false} EveryActionCounted(ops: seq<Op>)
    requires InTime(EMPTY, ops) && EchoesInTime(EMPTY, ops)
    ensures Run(EMPTY, ops).mirrored == Total(Run(EMPTY, ops).hands) == GenuineAudience(EMPTY, ops)
    decreases |ops|
  {
    if ops != [] {
      var before, op := ops[..|ops| - 1], ops[|ops| - 1];
      var g := Run(EMPTY, before);
      EveryActionCounted(before);
      RunKeeps(before);
      StepCounts(g, op);
      if op.step.Report? && op.step.echo && op.step.id in g.members {
        assert MemberOk(g, op.step.id);
      }
    }
  }

  // ----- one order everywhere -----

  lemma {:induction false} ProjectionOrder(casts: seq<Cast>, h: nat)
    ensures forall i | 0 <= i < |Projection(casts, h)| :: Projection(casts, h)[i] < |casts|
    ensures forall i, j | 0 <= i < j < |Projection(casts, h)| :: Projection(casts, h)[i] < Projection(casts, h)[j]
    ensures forall k | 0 <= k < |casts| :: k in Projection(casts, h) <==> h in casts[k].to
    decreases |casts|
  {
    if casts != [] {
      ProjectionOrder(casts[..|casts| - 1], h);
    }
  }

  /** A hand performs the fan-outs that went to it, all of them, in the order they were made: what it
      has performed and what it still holds are that projection of the one sequence. */
  lemma PerformsTheProjection(ops: seq<Op>, h: nat)
    requires InTime(EMPTY, ops) && h < |Run(EMPTY, ops).hands|
    ensures var g := Run(EMPTY, ops);
            Numbers(g.hands[h].performed + g.hands[h].queue) == Projection(g.casts, h)
            && forall a <- g.hands[h].performed :: a.cast < |g.casts| && a.ev == g.casts[a.cast].ev
  {
    RunKeeps(ops);
    assert HandOk(Run(EMPTY, ops), h);
    var g := Run(EMPTY, ops);
    assert forall a <- g.hands[h].performed :: a in Given(g.hands[h]);
  }

  /** Any two hands perform any two events they both received in the same order. */
  lemma SameOrder(ops: seq<Op>, h: nat, k: nat, a: nat, b: nat, c: nat, d: nat)
    requires InTime(EMPTY, ops)
    requires var hands := Run(EMPTY, ops).hands;
             && h < |hands| && k < |hands|
             && a < |Given(hands[h])| && b < |Given(hands[h])| && c < |Given(hands[k])| && d < |Given(hands[k])|
             && Given(hands[h])[a].cast == Given(hands[k])[c].cast
             && Given(hands[h])[b].cast == Given(hands[k])[d].cast
    ensures a < b <==> c < d
  {
    RunKeeps(ops);
    var g := Run(EMPTY, ops);
    assert HandOk(g, h) && HandOk(g, k);
    ProjectionOrder(g.casts, h);
    ProjectionOrder(g.casts, k);
    var x, y := Numbers(Given(g.hands[h])), Numbers(Given(g.hands[k]));
    assert x[a] == y[c] && x[b] == y[d];
  }

  /** An event is heard by every member but its own that holds a page session at that moment, and by
      nobody else. */
  lemma HeardByAllOthers(g: Group, from: string, ev: PageEvent, now: int, id: string)
    requires GroupOk(g) && !Dropped(g, from, ev, now) && id in g.members
    ensures var n := FannedOut(g, from, ev, now);
            && |n.casts| == |g.casts| + 1
            && (g.members[id].hand in n.casts[|g.casts|].to <==> id != from && g.members[id].sessions != [])
  {
    assert MemberOk(g, id);
  }

  // ----- navigation -----

  /** A step does not move a page: its member does not join or navigate, and no broadcast sends it
      anywhere. */
  predicate LeavesPage(g: Group, op: Op, id: string) {
    && op.step != Join(id)
    && (op.step.Arrive? ==>
          && op.step.id != id
          && (op.step.id in g.members && !Explained(g.members[op.step.id], op.step.url, op.now)
              ==> id !in Followers(g, op.step.id, op.step.url)))
  }

  predicate LeavesPageThroughout(g: Group, ops: seq<Op>, id: string) {
    ops == [] ||
    (LeavesPageThroughout(g, ops[..|ops| - 1], id) && LeavesPage(Run(g, ops[..|ops| - 1]), ops[|ops| - 1], id))
  }

  lemma PageStep(g: Group, op: Op, id: string)
    requires LeavesPage(g, op, id) && id in Next(g, op).members
    ensures id in g.members && Next(g, op).members[id].url == g.members[id].url
  {
  }

  lemma {:induction false} PageStays(g: Group, ops: seq<Op>, id: string, url: string)
    requires LeavesPageThroughout(g, ops, id) && (id in g.members ==> g.members[id].url == url)
    ensures id in Run(g, ops).members ==> Run(g, ops).members[id].url == url
    decreases |ops|
  {
    if ops != [] {
      PageStays(g, ops[..|ops| - 1], id, url);
      if id in Run(g, ops).members {
        PageStep(Run(g, ops[..|ops| - 1]), ops[|ops| - 1], id);
      }
    }
  }

  /** A navigation a broadcast causes is never broadcast again: whenever its page arrives, however
      long after every mute has run out, provided it was sent and went nowhere else in between. */
  lemma BroadcastIsNotRebroadcast(g: Group, from: string, url: string, t: int, after: seq<Op>, id: string, now: int)
    requires from in g.members && !Explained(g.members[from], url, t) && id in Followers(g, from, url)
    requires LeavesPageThroughout(Next(g, At(t, Arrive(from, url))), after, id)
    ensures var s := Run(Next(g, At(t, Arrive(from, url))), after);
            Next(s, At(now, Arrive(id, url))) == s.(clock := now)
  {
    var begun := Next(g, At(t, Arrive(from, url)));
    PageStays(begun, after, id, url);
    var s := Run(begun, after);
    if id in s.members {
      assert s.members[id].(url := url) == s.members[id];
      assert s.members[id := s.members[id]] == s.members;
    }
  }

  /** Nor is the navigation a mirrored click causes: for four seconds after a click is fanned out, no
      arrival in the page that was clicked or in one that mirrors it is broadcast. */
  lemma {:induction false} ClickExplains(g: Group, id: string, t: int, ops: seq<Op>, url: string, now: int)
    requires InTime(g, ops) && JoinsNot(ops, id) && g.clock >= t && now < t + 4000
    requires id in g.members ==> g.members[id].lastClick >= t
    ensures id in Run(g, ops).members ==> Run(g, ops).members[id].lastClick >= t
    ensures Next(Run(g, ops), At(now, Arrive(id, url))).navs == Run(g, ops).navs
    decreases |ops|
  {
    if ops != [] {
      var before, op := ops[..|ops| - 1], ops[|ops| - 1];
      assert op in ops;
      ClickExplains(g, id, t, before, url, now);
      ClockHolds(g, before, t);
      if id in Run(g, ops).members {
        StepMember(Run(g, before), op, id);
      }
    }
  }

  lemma {:induction false} ClockHolds(g: Group, ops: seq<Op>, t: int)
    requires InTime(g, ops) && g.clock >= t
    ensures Run(g, ops).clock >= t
    decreases |ops|
  {
    if ops != [] {
      ClockHolds(g, ops[..|ops| - 1], t);
    }
  }

  /** And a click that is fanned out is remembered by both sides. */
  lemma ClickIsRemembered(g: Group, from: string, what: string, now: int, id: string)
    requires GroupOk(g) && !Dropped(g, from, Click(what), now) && id in g.members
    requires id == from || g.members[id].sessions != []
    ensures FannedOut(g, from, Click(what), now).members[id].lastClick == now
  {
  }
}
