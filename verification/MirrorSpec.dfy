/** Synchronised windows: the group under its one mutex, as the atomic steps that change it. */
module MirrorSpec {
  import opened Wrappers

  /** What a page reports. Coordinates and keys are carried, never looked at. */
  datatype PageEvent = Click(what: string) | Key(what: string) | Wheel(what: string)

  /** An event to perform in a page session, numbered by the fan-out it comes from. */
  datatype Action = Action(cast: nat, ev: PageEvent, session: string)

  /** One browser of the group. `struck` is history: when a replay last began in it. */
  datatype Member = Member(hand: nat, sessions: seq<string>, mutedUntil: int, lastClick: int, url: string,
      struck: Option<int>)

  /** The worker that drains one member's queue, and what it has performed. It outlives the member:
      what was queued before a leave is still performed. */
  datatype Hand = Hand(id: string, queue: seq<Action>, performed: seq<Action>)

  /** History: one event fanned out, and to which hands; one navigation broadcast, and to whom. */
  datatype Cast = Cast(from: string, ev: PageEvent, to: set<nat>)
  datatype Nav = Nav(from: string, url: string, to: set<string>)

  datatype Group = Group(members: map<string, Member>, hands: seq<Hand>, typing: bool, mirrored: nat, clock: int,
                         casts: seq<Cast>, navs: seq<Nav>)

  const EMPTY: Group := Group(map[], [], true, 0, 0, [], [])

  const MUTE_QUEUED := 1200
  const MUTE_REPLAY := 600
  const MUTE_NAVIGATE := 1500
  const CLICK_NAVIGATES := 4000
  const NO_CLICK := 10000

  function Last(s: seq<string>): string
    requires s != []
  {
    s[|s| - 1]
  }

  // ----- membership -----

  function Joined(g: Group, id: string, now: int): Group {
    var m := Member(|g.hands|, [], now, now - NO_CLICK, "", None);
    g.(members := g.members[id := m], hands := g.hands + [Hand(id, [], [])])
  }

  function Armed(g: Group, id: string, session: string): Group {
    if id in g.members && session !in g.members[id].sessions then
      g.(members := g.members[id := g.members[id].(sessions := g.members[id].sessions + [session])])
    else g
  }

  function Without(s: seq<string>, x: string): seq<string> {
    if s == [] then [] else (if s[0] == x then [] else [s[0]]) + Without(s[1..], x)
  }

  function Detached(g: Group, id: string, session: string): Group {
    if id in g.members then
      g.(members := g.members[id := g.members[id].(sessions := Without(g.members[id].sessions, session))])
    else g
  }

  // ----- fan-out -----

  /** The event is dropped: typing is off, its page left the group, or it is an echo. */
  predicate Dropped(g: Group, from: string, ev: PageEvent, now: int) {
    (ev.Key? && !g.typing) || from !in g.members || now < g.members[from].mutedUntil
  }

  /** The other members that hold a page session. */
  function Audience(g: Group, from: string): set<string> {
    set id | id in g.members && id != from && g.members[id].sessions != []
  }

  /** The hand of a member that hears an event. */
  predicate Hears(g: Group, from: string, h: nat) {
    h < |g.hands| && g.hands[h].id in Audience(g, from) && g.members[g.hands[h].id].hand == h
  }

  function HandsOf(g: Group, from: string): set<nat> {
    set h | 0 <= h < |g.hands| && Hears(g, from, h)
  }

  /** What a fan-out does to one member: the sender remembers its click, an audience is muted. */
  function Touched(g: Group, from: string, ev: PageEvent, now: int, id: string): Member
    requires id in g.members
  {
    var m := g.members[id];
    if id == from then (if ev.Click? then m.(lastClick := now) else m)
    else if m.sessions == [] then m
    else m.(mutedUntil := now + MUTE_QUEUED, lastClick := if ev.Click? then now else m.lastClick)
  }

  function Queued(g: Group, from: string, ev: PageEvent, h: nat): Hand
    requires h < |g.hands|
  {
    var hand := g.hands[h];
    if Hears(g, from, h) then
      hand.(queue := hand.queue + [Action(|g.casts|, ev, Last(g.members[hand.id].sessions))])
    else hand
  }

  function FannedOut(g: Group, from: string, ev: PageEvent, now: int): Group {
    if Dropped(g, from, ev, now) then g
    else
      g.(members := map id | id in g.members :: Touched(g, from, ev, now, id),
         hands := seq(|g.hands|, h requires 0 <= h < |g.hands| => Queued(g, from, ev, h)),
         mirrored := g.mirrored + |Audience(g, from)|,
         casts := g.casts + [Cast(from, ev, HandsOf(g, from))])
  }

  // ----- the workers -----

  /** A hand begins its next action: whoever is in the group under its name is muted for it. */
  function Replayed(g: Group, h: nat, now: int): Group {
    if h >= |g.hands| || g.hands[h].queue == [] then g
    else
      var hand := g.hands[h];
      var id := hand.id;
      g.(hands := g.hands[h := hand.(queue := hand.queue[1..], performed := hand.performed + [hand.queue[0]])],
         members := if id in g.members
                    then g.members[id := g.members[id].(mutedUntil := now + MUTE_REPLAY, struck := Some(now))]
                    else g.members)
  }

  // ----- navigation -----

  /** The navigation is nobody's news: the page is where it was sent, or it is an echo, or a click
      explains it. */
  predicate Explained(m: Member, url: string, now: int) {
    m.url == url || now < m.mutedUntil || now - m.lastClick < CLICK_NAVIGATES
  }

  function Followers(g: Group, from: string, url: string): set<string> {
    set id | id in g.members && id != from && g.members[id].url != url && g.members[id].sessions != []
  }

  function Followed(g: Group, from: string, url: string, now: int, id: string): Member
    requires id in g.members
  {
    var m := g.members[id];
    if id == from then m.(url := url)
    else if m.url != url && m.sessions != [] then m.(mutedUntil := now + MUTE_NAVIGATE, url := url)
    else m
  }

  function Navigated(g: Group, from: string, url: string, now: int): Group {
    if from !in g.members then g
    else if Explained(g.members[from], url, now) then
      g.(members := g.members[from := g.members[from].(url := url)])
    else
      g.(members := map id | id in g.members :: Followed(g, from, url, now, id),
         navs := g.navs + [Nav(from, url, Followers(g, from, url))])
  }

  // ----- runs -----

  datatype Step =
    | Join(id: string)
    | Leave(id: string)
    | Stop
    | Arm(id: string, session: string)
    | Detach(id: string, session: string)
    | Typing(on: bool)
    | Report(id: string, ev: PageEvent, echo: bool)
    | Replay(hand: nat)
    | Arrive(id: string, url: string)

  /** A step at a moment of the clock. */
  datatype Op = At(now: int, step: Step)

  function Do(g: Group, op: Op): Group {
    match op.step
    case Join(id) => Joined(g, id, op.now)
    case Leave(id) => g.(members := g.members - {id})
    case Stop => g.(members := map[])
    case Arm(id, s) => Armed(g, id, s)
    case Detach(id, s) => Detached(g, id, s)
    case Typing(on) => g.(typing := on)
    case Report(id, ev, _) => FannedOut(g, id, ev, op.now)
    case Replay(h) => Replayed(g, h, op.now)
    case Arrive(id, url) => Navigated(g, id, url, op.now)
  }

  function Next(g: Group, op: Op): Group {
    Do(g, op).(clock := op.now)
  }

  function Run(g: Group, ops: seq<Op>): Group {
    if ops == [] then g else Next(Run(g, ops[..|ops| - 1]), ops[|ops| - 1])
  }

  /** The clock never goes back. */
  predicate InTime(g: Group, ops: seq<Op>) {
    ops == [] || (InTime(g, ops[..|ops| - 1]) && ops[|ops| - 1].now >= Run(g, ops[..|ops| - 1]).clock)
  }
}
