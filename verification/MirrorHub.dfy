/** The hub itself: one mutex's worth of state, and the loops that go round its members. */
module MirrorHub {
  import opened Wrappers
  import opened MirrorSpec

  class Hub {
    var members: map<string, Member>
    var hands: seq<Hand>
    var typing: bool
    var mirrored: nat
    // History, for what whole runs promise: what was fanned out, how often, and where pages were sent.
    var made: nat
    ghost var casts: seq<Cast>
    ghost var navs: seq<Nav>
    ghost var clock: int

    ghost function State(): Group
      reads this
    {
      Group(members, hands, typing, mirrored, clock, casts, navs)
    }

    /** Every member has a hand of its own. */
    ghost predicate Valid()
      reads this
    {
      made == |casts| && Rooted(members, hands)
    }

    constructor ()
      ensures Valid() && State() == EMPTY
    {
      members, hands, typing, mirrored := map[], [], true, 0;
      made, casts, navs, clock := 0, [], [], 0;
    }

    method Join(id: string, now: int)
      requires Valid()
      modifies this
      ensures Valid() && State() == Next(old(State()), At(now, MirrorSpec.Join(id)))
    {
      members := members[id := Member(|hands|, [], now, now - NO_CLICK, "", None)];
      hands := hands + [Hand(id, [], [])];
      clock := now;
    }

    method Leave(id: string, now: int)
      requires Valid()
      modifies this
      ensures Valid() && State() == Next(old(State()), At(now, MirrorSpec.Leave(id)))
    {
      members := members - {id};
      clock := now;
    }

    method Stop(now: int)
      requires Valid()
      modifies this
      ensures Valid() && State() == Next(old(State()), At(now, MirrorSpec.Stop))
    {
      members := map[];
      clock := now;
    }

    method Arm(id: string, session: string, now: int)
      requires Valid()
      modifies this
      ensures Valid() && State() == Next(old(State()), At(now, MirrorSpec.Arm(id, session)))
    {
      if id in members && session !in members[id].sessions {
        members := members[id := members[id].(sessions := members[id].sessions + [session])];
      }
      clock := now;
    }

    method Detach(id: string, session: string, now: int)
      requires Valid()
      modifies this
      ensures Valid() && State() == Next(old(State()), At(now, MirrorSpec.Detach(id, session)))
    {
      if id in members {
        var kept := Retained(members[id].sessions, session);
        members := members[id := members[id].(sessions := kept)];
      }
      clock := now;
    }

    method SetTyping(on: bool, now: int)
      requires Valid()
      modifies this
      ensures Valid() && State() == Next(old(State()), At(now, Typing(on)))
    {
      typing := on;
      clock := now;
    }

    /** Takes a page's report: unless it is dropped, it is put at the end of every other queue. */
    method FanOut(from: string, ev: PageEvent, now: int, ghost echo: bool)
      requires Valid()
      modifies this
      ensures Valid() && State() == Next(old(State()), At(now, Report(from, ev, echo)))
    {
      ghost var g := State();
      clock := now;
      if (ev.Key? && !typing) || from !in members || now < members[from].mutedUntil {
        return;
      }
      var ms, hs, n := Spread(g, members, hands, from, ev, now, made);
      StaysRooted(g, from, ev, now);
      ReportIs(g, from, ev, echo, now, ms, hs, n);
      members, hands, mirrored := ms, hs, mirrored + n;
      casts := casts + [Cast(from, ev, HandsOf(g, from))];
      made := made + 1;
    }

    /** One turn of a hand: takes the front of its queue and mutes its member for the replay. */
    method Work(h: nat, now: int) returns (action: Option<Action>)
      requires Valid()
      modifies this
      ensures Valid() && State() == Next(old(State()), At(now, Replay(h)))
      ensures action == if h < |old(hands)| && old(hands)[h].queue != [] then Some(old(hands)[h].queue[0]) else None
    {
      clock := now;
      if h >= |hands| || hands[h].queue == [] {
        return None;
      }
      var hand := hands[h];
      action := Some(hand.queue[0]);
      hands := hands[h := hand.(queue := hand.queue[1..], performed := hand.performed + [hand.queue[0]])];
      if hand.id in members {
        members := members[hand.id := members[hand.id].(mutedUntil := now + MUTE_REPLAY, struck := Some(now))];
      }
    }

    /** Takes a page's arrival at an address, and returns who is to be sent there. */
    method OnNavigated(from: string, url: string, now: int) returns (targets: set<string>)
      requires Valid()
      modifies this
      ensures Valid() && State() == Next(old(State()), At(now, Arrive(from, url)))
      ensures targets == if from !in old(members) || Explained(old(members)[from], url, now) then {}
                         else Followers(old(State()), from, url)
    {
      clock := now;
      targets := {};
      if from !in members {
        return;
      }
      ghost var g := old(State());
      var src := members[from];
      members := members[from := src.(url := url)];
      if src.url == url || now < src.mutedUntil || now - src.lastClick < CLICK_NAVIGATES {
        return;
      }
      var ms;
      ms, targets := SendAll(g, members, from, url, now);
      FollowedRooted(g, from, url, now);
      members := ms;
      navs := navs + [Nav(from, url, targets)];
    }
  }

  lemma FollowedRooted(g: Group, from: string, url: string, now: int)
    requires Rooted(g.members, g.hands)
    ensures Rooted(map id | id in g.members :: Followed(g, from, url, now, id), g.hands)
  {
  }

  lemma ReportIs(g: Group, from: string, ev: PageEvent, echo: bool, now: int, ms: map<string, Member>, hs: seq<Hand>,
                 n: nat)
    requires !Dropped(g, from, ev, now)
    requires ms == FannedOut(g, from, ev, now).members && hs == FannedOut(g, from, ev, now).hands
    requires n == |Audience(g, from)|
    ensures Next(g, At(now, Report(from, ev, echo)))
         == g.(members := ms, hands := hs, mirrored := g.mirrored + n, clock := now,
               casts := g.casts + [Cast(from, ev, HandsOf(g, from))])
  {
  }

  ghost predicate Rooted(members: map<string, Member>, hands: seq<Hand>) {
    forall id <- members :: members[id].hand < |hands| && hands[members[id].hand].id == id
  }

  /** The event to every other member with a page: it is muted, and the action queued for its hand. */
  method Spread(ghost g: Group, members: map<string, Member>, hands: seq<Hand>, from: string, ev: PageEvent, now: int,
                k: nat)
    returns (ms: map<string, Member>, hs: seq<Hand>, n: nat)
    requires members == g.members && hands == g.hands && Rooted(members, hands) && from in members && k == |g.casts|
    requires !Dropped(g, from, ev, now)
    ensures ms == FannedOut(g, from, ev, now).members
    ensures hs == FannedOut(g, from, ev, now).hands
    ensures n == |Audience(g, from)|
  {
    ms := members;
    if ev.Click? {
      ms := ms[from := ms[from].(lastClick := now)];
    }
    SpreadStart(g, from, ev, now, ms);
    ms, hs, n := DeliverAll(g, ms, hands, from, ev, now, k);
    SpreadDone(g, from, ev, now, ms, hs);
  }

  method DeliverAll(ghost g: Group, members: map<string, Member>, hands: seq<Hand>, from: string, ev: PageEvent,
                    now: int, k: nat)
    returns (ms: map<string, Member>, hs: seq<Hand>, n: nat)
    requires members.Keys == g.members.Keys && (members, hands) in Spreads(g, from, ev, now, g.members.Keys)
    requires Rooted(g.members, g.hands) && k == |g.casts|
    ensures (ms, hs) in Spreads(g, from, ev, now, {})
    ensures n == |Audience(g, from)|
  {
    ghost var audience := Audience(g, from);
    assert audience - g.members.Keys == {};
    ms, hs, n := DeliverTo(g, members.Keys, members, hands, 0, from, ev, now, k, audience);
    assert audience - {} == audience;
  }

  method DeliverTo(ghost g: Group, ids: set<string>, members: map<string, Member>, hands: seq<Hand>, heard: nat,
                   from: string, ev: PageEvent, now: int, k: nat, ghost audience: set<string>)
    returns (ms: map<string, Member>, hs: seq<Hand>, n: nat)
    requires (members, hands) in Spreads(g, from, ev, now, ids) && ids <= g.members.Keys
    requires Rooted(g.members, g.hands) && k == |g.casts|
    requires audience == Audience(g, from) && heard == |audience - ids|
    ensures (ms, hs) in Spreads(g, from, ev, now, {})
    ensures n == |audience - {}|
  {
    ms, hs, n := members, hands, heard;
    var todo := ids;
    while todo != {}
      invariant todo <= g.members.Keys && (ms, hs) in Spreads(g, from, ev, now, todo)
      invariant n == |audience - todo|
      decreases |todo|
    {
      var id :| id in todo;
      ms, hs, n := DeliverNext(g, todo, ms, hs, n, from, ev, now, k, id, audience);
      todo := todo - {id};
    }
  }

  /** The event to one member, counted if it hears it. */
  method DeliverNext(ghost g: Group, ghost todo: set<string>, ms: map<string, Member>, hs: seq<Hand>, n: nat,
                     from: string, ev: PageEvent, now: int, k: nat, id: string, ghost audience: set<string>)
    returns (ms': map<string, Member>, hs': seq<Hand>, n': nat)
    requires (ms, hs) in Spreads(g, from, ev, now, todo) && Rooted(g.members, g.hands) && k == |g.casts|
    requires id in todo && id in g.members && audience == Audience(g, from) && n == |audience - todo|
    ensures (ms', hs') in Spreads(g, from, ev, now, todo - {id})
    ensures n' == |audience - (todo - {id})|
  {
    OneLess(audience, todo, id);
    var heard;
    ms', hs', heard := Deliver(g, todo, ms, hs, from, ev, now, k, id);
    n' := if heard then n + 1 else n;
  }

  lemma OneLess(a: set<string>, todo: set<string>, id: string)
    requires id in todo
    ensures |a - (todo - {id})| == |a - todo| + if id in a then 1 else 0
  {
    if id in a {
      assert a - (todo - {id}) == (a - todo) + {id};
    } else {
      assert a - (todo - {id}) == a - todo;
    }
  }

  /** The event to one member, if it is another and has a page. */
  method Deliver(ghost g: Group, ghost todo: set<string>, ms: map<string, Member>, hs: seq<Hand>, from: string,
                 ev: PageEvent,
                 now: int, k: nat, id: string) returns (ms': map<string, Member>, hs': seq<Hand>, heard: bool)
    requires (ms, hs) in Spreads(g, from, ev, now, todo) && Rooted(g.members, g.hands) && k == |g.casts|
    requires id in todo && id in g.members
    ensures (ms', hs') in Spreads(g, from, ev, now, todo - {id})
    ensures heard <==> id in Audience(g, from)
  {
    if id == from {
      SpreadNone(g, from, ev, now, todo, ms, hs, id);
      return ms, hs, false;
    }
    var m := ms[id];
    assert m == g.members[id];
    if m.sessions == [] {
      SpreadNone(g, from, ev, now, todo, ms, hs, id);
      return ms, hs, false;
    }
    assert hs[m.hand] == g.hands[m.hand];
    ms' := ms[id := m.(mutedUntil := now + MUTE_QUEUED, lastClick := if ev.Click? then now else m.lastClick)];
    hs' := hs[m.hand := hs[m.hand].(queue := hs[m.hand].queue + [Action(k, ev, Last(m.sessions))])];
    SpreadOne(g, from, ev, now, todo, ms, hs, id, ms', hs');
    return ms', hs', true;
  }

  lemma SpreadDone(g: Group, from: string, ev: PageEvent, now: int, ms: map<string, Member>, hs: seq<Hand>)
    requires SpreadTo(g, from, ev, now, {}, ms, hs) && !Dropped(g, from, ev, now) && Rooted(g.members, g.hands)
    ensures ms == FannedOut(g, from, ev, now).members
    ensures hs == FannedOut(g, from, ev, now).hands
  {
  }

  lemma StaysRooted(g: Group, from: string, ev: PageEvent, now: int)
    requires Rooted(g.members, g.hands)
    ensures Rooted(FannedOut(g, from, ev, now).members, FannedOut(g, from, ev, now).hands)
  {
  }

  lemma SpreadStart(g: Group, from: string, ev: PageEvent, now: int, ms: map<string, Member>)
    requires from in g.members && ms == g.members[from := Touched(g, from, ev, now, from)]
    requires Rooted(g.members, g.hands)
    ensures SpreadTo(g, from, ev, now, g.members.Keys, ms, g.hands)
  {
    forall h | 0 <= h < |g.hands| && g.hands[h].id !in g.members ensures !Hears(g, from, h) {
    }
  }

  /** How far a fan-out has got, when some members are still to do. */
  ghost predicate SpreadTo(g: Group, from: string, ev: PageEvent, now: int, todo: set<string>,
                           ms: map<string, Member>, hs: seq<Hand>) {
    && ms.Keys == g.members.Keys && |hs| == |g.hands|
    && (forall id <- ms :: ms[id] == if id in todo && id != from then g.members[id] else Touched(g, from, ev, now, id))
    && (forall h | 0 <= h < |hs| :: hs[h] == if g.hands[h].id in todo then g.hands[h] else Queued(g, from, ev, h))
  }

  ghost function Spreads(g: Group, from: string, ev: PageEvent, now: int,
                         todo: set<string>): iset<(map<string, Member>, seq<Hand>)> {
    iset p: (map<string, Member>, seq<Hand>) | SpreadTo(g, from, ev, now, todo, p.0, p.1)
  }

  lemma SpreadOne(g: Group, from: string, ev: PageEvent, now: int, todo: set<string>, ms: map<string, Member>,
                  hs: seq<Hand>, id: string, ms': map<string, Member>, hs': seq<Hand>)
    requires SpreadTo(g, from, ev, now, todo, ms, hs) && Rooted(g.members, g.hands)
    requires id in todo && id in g.members && id != from && g.members[id].sessions != []
    requires ms' == ms[id := Touched(g, from, ev, now, id)]
    requires var h := g.members[id].hand;
             var queue := g.hands[h].queue + [Action(|g.casts|, ev, Last(g.members[id].sessions))];
             hs' == hs[h := g.hands[h].(queue := queue)]
    ensures SpreadTo(g, from, ev, now, todo - {id}, ms', hs')
  {
    assert Hears(g, from, g.members[id].hand);
  }

  lemma SpreadNone(g: Group, from: string, ev: PageEvent, now: int, todo: set<string>, ms: map<string, Member>,
                   hs: seq<Hand>, id: string)
    requires SpreadTo(g, from, ev, now, todo, ms, hs)
    requires id in todo && id in g.members && (id == from || g.members[id].sessions == [])
    ensures SpreadTo(g, from, ev, now, todo - {id}, ms, hs)
  {
  }

  /** Every other member with a page elsewhere is sent there. */
  method SendAll(ghost g: Group, members: map<string, Member>, from: string, url: string, now: int)
    returns (ms: map<string, Member>, targets: set<string>)
    requires from in g.members && members == g.members[from := g.members[from].(url := url)]
    ensures ms == (map id | id in g.members :: Followed(g, from, url, now, id))
    ensures targets == Followers(g, from, url)
  {
    ms, targets := members, {};
    var todo := members.Keys;
    assert (ms, targets) in Sent(g, from, url, now, todo);
    while todo != {}
      invariant todo <= g.members.Keys && (ms, targets) in Sent(g, from, url, now, todo)
      decreases todo
    {
      var id :| id in todo;
      ms, targets := SendOne(g, todo, ms, targets, from, url, now, id);
      todo := todo - {id};
    }
    AllSent(g, from, url, now, ms, targets);
  }

  /** How far the sending has got, when some members are still to do. */
  ghost predicate SentTo(g: Group, from: string, url: string, now: int, todo: set<string>, ms: map<string, Member>,
                         targets: set<string>) {
    && ms.Keys == g.members.Keys
    && (forall id <- ms ::
          ms[id] == if id in todo && id != from then g.members[id] else Followed(g, from, url, now, id))
    && targets == Followers(g, from, url) - todo
  }

  ghost function Sent(g: Group, from: string, url: string, now: int, todo: set<string>)
    : iset<(map<string, Member>, set<string>)>
  {
    iset p: (map<string, Member>, set<string>) | SentTo(g, from, url, now, todo, p.0, p.1)
  }

  lemma AllSent(g: Group, from: string, url: string, now: int, ms: map<string, Member>, targets: set<string>)
    requires SentTo(g, from, url, now, {}, ms, targets)
    ensures ms == (map id | id in g.members :: Followed(g, from, url, now, id))
    ensures targets == Followers(g, from, url)
  {
  }

  method SendOne(ghost g: Group, ghost todo: set<string>, ms: map<string, Member>, targets: set<string>, from: string,
                 url: string, now: int, id: string) returns (ms': map<string, Member>, targets': set<string>)
    requires id in todo && id in g.members && (ms, targets) in Sent(g, from, url, now, todo)
    ensures (ms', targets') in Sent(g, from, url, now, todo - {id})
  {
    ms', targets' := ms, targets;
    var m := ms[id];
    if id != from && m.url != url && m.sessions != [] {
      ms' := ms[id := m.(mutedUntil := now + MUTE_NAVIGATE, url := url)];
      targets' := targets + {id};
    }
    SentOne(g, from, url, now, todo, ms, targets, id, ms', targets');
  }

  lemma SentOne(g: Group, from: string, url: string, now: int, todo: set<string>, ms: map<string, Member>,
                targets: set<string>, id: string, ms': map<string, Member>, targets': set<string>)
    requires SentTo(g, from, url, now, todo, ms, targets) && id in todo && id in g.members
    requires var sent := id in Followers(g, from, url);
             ms' == (if sent then ms[id := Followed(g, from, url, now, id)] else ms)
             && targets' == if sent then targets + {id} else targets
    ensures SentTo(g, from, url, now, todo - {id}, ms', targets')
  {
  }

  method Retained(s: seq<string>, x: string) returns (r: seq<string>)
    ensures r == Without(s, x)
  {
    r := [];
    for i := 0 to |s|
      invariant r + Without(s[i..], x) == Without(s, x)
    {
      assert s[i..][0] == s[i] && s[i..][1..] == s[i + 1..];
      if s[i] != x {
        r := r + [s[i]];
      }
    }
  }
}
