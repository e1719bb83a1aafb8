/** Planning one profile's day: which date, which sites, which sessions, when. */
module FarmDay {
  import opened Wrappers
  import opened FarmTypes

  datatype DayPlan = DayPlan(date: int, endMs: nat, sessions: seq<Session>)

  // ----- what a day plan is -----

  /** The earliest date the plan may take: today, or the day after the last one planned. */
  function FirstDate(zone: Zone, after: Option<int>, now: int): int {
    var today := zone.Today(now);
    if after.Some? && today <= after.value then after.value + 1 else today
  }

  /** The first instant of a date's hours that is still at least a minute away. */
  function Begin(spec: Spec, zone: Zone, date: int, now: int): int {
    var start := zone.At(date, spec.hours.0);
    if start >= now + MINUTE_MS then start else now + MINUTE_MS
  }

  function End(spec: Spec, zone: Zone, date: int): int {
    zone.At(date, spec.hours.1)
  }

  /** Enough of the date's hours is left to start it. */
  predicate Roomy(spec: Spec, zone: Zone, date: int, now: int) {
    End(spec, zone, date) - Begin(spec, zone, date, now) >= MIN_WINDOW_MS
  }

  function Clamp(x: int, lo: int, hi: int): int
    requires lo <= hi
  {
    if x < lo then lo else if x > hi then hi else x
  }

  /** How many sites a draw from the range stands for on a list of this length. */
  function SiteCount(drawn: nat, listed: nat): nat {
    Clamp(drawn, 1, if listed >= 1 then listed else 1)
  }

  /** All the sites of a day, in visiting order. */
  function Sites(sessions: seq<Session>): seq<string> {
    if sessions == [] then [] else Sites(sessions[..|sessions| - 1]) + sessions[|sessions| - 1].urls
  }

  /** The sittings a number of sites may be spread over. */
  ghost predicate SittingsFor(k: nat, n: nat) {
    if k <= 3 then n == 1 else 1 <= n <= 3 && n <= k / 2
  }

  /** Session i of n starts early in slot i. */
  ghost predicate InItsSlot(begin: int, slot: nat, i: nat, s: Session) {
    Ms(begin) + slot * i <= s.atMs <= Ms(begin) + slot * i + slot * 6 / 10
  }

  ghost predicate Untouched(s: Session) {
    s.startedMs.None? && s.ended.None?
  }

  /** The length of one of n equal parts of the day's remaining hours. */
  function Slot(spec: Spec, zone: Zone, date: int, now: int, n: nat): nat
    requires n > 0
    requires Roomy(spec, zone, date, now)
  {
    (End(spec, zone, date) - Begin(spec, zone, date, now)) / n
  }

  /** The date is the first one with room, and only the first. */
  ghost predicate RightDate(spec: Spec, zone: Zone, after: Option<int>, now: int, date: int) {
    && FirstDate(zone, after, now) <= date
    && Roomy(spec, zone, date, now)
    && forall d | FirstDate(zone, after, now) <= d < date :: !Roomy(spec, zone, d, now)
  }

  /** The sites are drawn without repetition from the list, as many as the range allows. */
  ghost predicate RightSites(spec: Spec, chosen: seq<string>) {
    && multiset(chosen) <= multiset(spec.urls)
    && exists drawn: nat ::
         spec.sitesPerDay.0 <= drawn <= spec.sitesPerDay.1
         && |chosen| == (if spec.urls == [] then 0 else SiteCount(drawn, |spec.urls|))
  }

  /** The sites are dealt out evenly, and nobody gets none. */
  ghost predicate EvenlySplit(sessions: seq<Session>) {
    && |sessions| >= 1
    && forall s <- sessions ::
         |s.urls| == |Sites(sessions)| / |sessions| || |s.urls| == |Sites(sessions)| / |sessions| + 1
  }

  /** Everything plan_day promises about the day it returns. */
  ghost predicate PlansDay(spec: Spec, zone: Zone, after: Option<int>, now: int, p: DayPlan) {
    && RightDate(spec, zone, after, now, p.date)
    && p.endMs == Ms(End(spec, zone, p.date))
    && RightSites(spec, Sites(p.sessions))
    && EvenlySplit(p.sessions)
    && SittingsFor(|Sites(p.sessions)|, |p.sessions|)
    && (forall s <- p.sessions :: Untouched(s))
    && AllInSlots(Begin(spec, zone, p.date, now), Slot(spec, zone, p.date, now, |p.sessions|), p.sessions)
  }

  /** The plans a day may be given. */
  ghost function DayPlans(spec: Spec, zone: Zone, after: Option<int>, now: int): iset<DayPlan> {
    iset p | PlansDay(spec, zone, after, now, p)
  }

  // ----- chance -----

  /** A draw from lo to hi, both included: any of them. */
  method Draw(lo: nat, hi: nat) returns (x: nat)
    requires lo <= hi
    ensures lo <= x <= hi
  {
    assert lo <= lo <= hi;
    x :| lo <= x <= hi;
  }

  /** Any order of the list: walks down, swapping each place with a drawn one at or below it. */
  method Shuffle(s: seq<string>) returns (r: seq<string>)
    ensures multiset(r) == multiset(s)
  {
    r := s;
    var i := |s|;
    while i > 1
      invariant |r| == |s|
      invariant multiset(r) == multiset(s)
    {
      i := i - 1;
      var j := Draw(0, i);
      r := r[i := r[j]][j := r[i]];
    }
  }

  // ----- planning -----

  /** A date whose hours have not begun has all of them left. */
  lemma NarrowMeansLate(spec: Spec, zone: Zone, date: int, now: int)
    requires spec.hours.0 < spec.hours.1 <= 24
    requires !Roomy(spec, zone, date, now)
    ensures zone.At(date, spec.hours.0) < now + MINUTE_MS
  {
  }

  lemma SitesAppend(sessions: seq<Session>, s: Session)
    ensures Sites(sessions + [s]) == Sites(sessions) + s.urls
  {
    assert (sessions + [s])[..|sessions|] == sessions;
  }

  lemma PrefixIsSubMultiset(s: seq<string>, k: nat)
    requires k <= |s|
    ensures multiset(s[..k]) <= multiset(s)
  {
    assert s == s[..k] + s[k..];
  }

  /** What is left can still be dealt into this many shares of q or q + 1. */
  ghost predicate EvenLeft(q: nat, left: nat, parts: nat) {
    && parts <= 3
    && (parts == 0 ==> left == 0)
    && (parts == 1 ==> q <= left <= q + 1)
    && (parts == 2 ==> 2 * q <= left <= 2 * q + 2)
    && (parts == 3 ==> 3 * q <= left <= 3 * q + 3)
  }

  /** The next share of an even split, which leaves an even split. */
  method Share(left: nat, parts: nat, ghost q: nat) returns (take: nat)
    requires parts >= 1 && EvenLeft(q, left, parts)
    ensures take <= left && (take == q || take == q + 1)
    ensures EvenLeft(q, left - take, parts - 1)
  {
    take := left / parts;
    if parts == 3 {
    } else if parts == 2 {
    }
  }

  lemma EvenStart(total: nat, n: nat)
    requires 1 <= n <= 3
    ensures EvenLeft(total / n, total, n)
  {
  }

  method SearchDate(spec: Spec, zone: Zone, after: Option<int>, now: int) returns (date: int)
    requires spec.hours.0 < spec.hours.1 <= 24
    ensures RightDate(spec, zone, after, now, date)
  {
    date := zone.Today(now);
    if after.Some? && date <= after.value {
      date := after.value + 1;
    }
    while !Roomy(spec, zone, date, now)
      invariant FirstDate(zone, after, now) <= date
      invariant forall d | FirstDate(zone, after, now) <= d < date :: !Roomy(spec, zone, d, now)
      decreases now + MINUTE_MS + zone.offsetMs - date * DAY_MS
    {
      NarrowMeansLate(spec, zone, date, now);
      date := date + 1;
    }
  }

  /** Draws how many sites the day gets, shuffles the list and keeps that many. */
  method ChooseSites(spec: Spec) returns (k: nat, urls: seq<string>)
    requires spec.sitesPerDay.0 <= spec.sitesPerDay.1
    ensures RightSites(spec, urls)
    ensures k >= 1 && if spec.urls == [] then k == 1 && urls == [] else |urls| == k
  {
    var drawn := Draw(spec.sitesPerDay.0, spec.sitesPerDay.1);
    k := SiteCount(drawn, |spec.urls|);
    var order := Shuffle(spec.urls);
    assert |order| == |spec.urls| by { assert |multiset(order)| == |multiset(spec.urls)|; }
    urls := if k < |order| then order[..k] else order;
    PrefixIsSubMultiset(order, |urls|);
    assert urls == order[..|urls|];
  }

  /** Puts one sitting into its slot, within the first six tenths of it. */
  method Sitting(begin: int, slot: nat, i: nat, urls: seq<string>) returns (s: Session)
    ensures InItsSlot(begin, slot, i, s) && Untouched(s) && s.urls == urls
  {
    var early := Draw(0, slot * 6 / 10);
    s := Session(Ms(begin) + slot * i + early, urls, None, None);
  }

  /** The sittings so far and the sites left make up the list, in shares of q or q + 1. */
  ghost predicate Dealt(urls: seq<string>, q: nat, sessions: seq<Session>, rest: seq<string>) {
    && Sites(sessions) + rest == urls
    && forall s <- sessions :: Untouched(s) && (|s.urls| == q || |s.urls| == q + 1)
  }

  lemma DealOne(urls: seq<string>, q: nat, sessions: seq<Session>, rest: seq<string>, take: nat, s: Session)
    requires Dealt(urls, q, sessions, rest)
    requires take <= |rest| && (take == q || take == q + 1)
    requires Untouched(s) && s.urls == rest[..take]
    ensures Dealt(urls, q, sessions + [s], rest[take..])
  {
    SitesAppend(sessions, s);
    assert rest == rest[..take] + rest[take..];
    assert Sites(sessions) + rest == Sites(sessions) + rest[..take] + rest[take..];
  }

  ghost predicate AllInSlots(begin: int, slot: nat, sessions: seq<Session>) {
    forall i {:trigger InItsSlot(begin, slot, i, sessions[i])} | 0 <= i < |sessions| ::
        InItsSlot(begin, slot, i, sessions[i])
  }

  lemma NextInSlot(begin: int, slot: nat, sessions: seq<Session>, s: Session)
    requires AllInSlots(begin, slot, sessions) && InItsSlot(begin, slot, |sessions|, s)
    ensures AllInSlots(begin, slot, sessions + [s])
  {
    forall i | 0 <= i < |sessions + [s]| ensures InItsSlot(begin, slot, i, (sessions + [s])[i]) {
      if i < |sessions| {
        assert InItsSlot(begin, slot, i, sessions[i]);
      }
    }
  }

  lemma AllDealt(urls: seq<string>, q: nat, sessions: seq<Session>)
    requires Dealt(urls, q, sessions, []) && |sessions| >= 1 && q == |urls| / |sessions|
    ensures Sites(sessions) == urls && EvenlySplit(sessions) && forall s <- sessions :: Untouched(s)
  {
  }

  /** Deals the sites into n sittings, one early in each of n equal slots. */
  method SplitIntoSessions(urls: seq<string>, n: nat, begin: int, slot: nat) returns (sessions: seq<Session>)
    requires 1 <= n <= 3
    ensures |sessions| == n
    ensures Dealt(urls, |urls| / n, sessions, [])
    ensures AllInSlots(begin, slot, sessions)
  {
    sessions := [];
    var rest := urls;
    ghost var q := |urls| / n;
    EvenStart(|urls|, n);
    for i := 0 to n
      invariant |sessions| == i
      invariant Dealt(urls, q, sessions, rest)
      invariant EvenLeft(q, |rest|, n - i)
      invariant AllInSlots(begin, slot, sessions)
    {
      var take := Share(|rest|, n - i, q);
      var mine := rest[..take];
      var s := Sitting(begin, slot, i, mine);
      DealOne(urls, q, sessions, rest, take, s);
      NextInSlot(begin, slot, sessions, s);
      sessions := sessions + [s];
      rest := rest[take..];
    }
  }

  /** Plans a profile's day: the search for a date always ends, and the plan keeps every promise. */
  method PlanDay(spec: Spec, zone: Zone, after: Option<int>, now: int) returns (p: DayPlan)
    requires spec.hours.0 < spec.hours.1 <= 24
    requires spec.sitesPerDay.0 <= spec.sitesPerDay.1
    ensures PlansDay(spec, zone, after, now, p)
  {
    var date := SearchDate(spec, zone, after, now);
    var begin := Begin(spec, zone, date, now);
    var end := End(spec, zone, date);
    var k, urls := ChooseSites(spec);
    var n := 1;
    if k > 3 {
      n := Draw(1, if k / 2 < 3 then k / 2 else 3);
    }
    assert SittingsFor(|urls|, n);
    var span := if end - begin > 1 then end - begin else 1;
    var slot := span / n;
    assert slot == Slot(spec, zone, date, now, n);
    var sessions := SplitIntoSessions(urls, n, begin, slot);
    AllDealt(urls, |urls| / n, sessions);
    p := DayPlan(date, Ms(end), sessions);
  }

  // ----- what the promises come to -----

  lemma OneStartTime(begin: int, slot: nat, i: nat, n: nat, span: int, s: Session)
    requires InItsSlot(begin, slot, i, s)
    requires i < n && slot * n <= span && slot > 0
    ensures Ms(begin) <= s.atMs < Ms(begin) + span
  {
    assert slot * (i + 1) == slot * i + slot;
    SlotWithin(slot, i, n, span);
  }

  lemma NextStartTime(begin: int, slot: nat, i: nat, s: Session, t: Session)
    requires InItsSlot(begin, slot, i, s) && InItsSlot(begin, slot, i + 1, t)
    requires slot > 0
    ensures s.atMs < t.atMs && 10 * (t.atMs - s.atMs) >= 4 * slot
  {
    assert slot * (i + 1) == slot * i + slot;
  }

  /** Start times rise, with at least four tenths of a slot between them, and all lie
      from the beginning of the hours (a minute from now at the earliest) to their end. */
  lemma TimesSpread(spec: Spec, zone: Zone, after: Option<int>, now: int, p: DayPlan)
    requires PlansDay(spec, zone, after, now, p)
    ensures var slot := Slot(spec, zone, p.date, now, |p.sessions|);
            slot > 0
            && forall i | 0 <= i < |p.sessions| - 1 ::
                 p.sessions[i].atMs < p.sessions[i + 1].atMs
                 && 10 * (p.sessions[i + 1].atMs - p.sessions[i].atMs) >= 4 * slot
    ensures forall s <- p.sessions :: Ms(Begin(spec, zone, p.date, now)) <= s.atMs
    ensures 0 <= now ==> forall s <- p.sessions :: now + MINUTE_MS <= s.atMs < p.endMs
  {
    var n := |p.sessions|;
    var begin := Begin(spec, zone, p.date, now);
    var span := End(spec, zone, p.date) - begin;
    var slot := Slot(spec, zone, p.date, now, n);
    SlotFits(span, n);
    forall i | 0 <= i < n
      ensures Ms(begin) <= p.sessions[i].atMs < Ms(begin) + span
    {
      OneStartTime(begin, slot, i, n, span, p.sessions[i]);
    }
    forall i | 0 <= i < n - 1
      ensures p.sessions[i].atMs < p.sessions[i + 1].atMs
      ensures 10 * (p.sessions[i + 1].atMs - p.sessions[i].atMs) >= 4 * slot
    {
      NextStartTime(begin, slot, i, p.sessions[i], p.sessions[i + 1]);
    }
  }

  lemma SlotFits(span: int, n: nat)
    requires 1 <= n <= 3 && span >= MIN_WINDOW_MS
    ensures span / n > 0 && (span / n) * n <= span
  {
  }

  lemma SlotWithin(slot: nat, i: nat, n: nat, span: int)
    requires i < n && slot * n <= span
    ensures slot * (i + 1) <= span
  {
    assert slot * (i + 1) <= slot * n;
  }

  /** With a list to draw from, every sitting has something to visit. */
  lemma NobodyGetsNothing(spec: Spec, zone: Zone, after: Option<int>, now: int, p: DayPlan)
    requires PlansDay(spec, zone, after, now, p)
    requires spec.urls != []
    ensures 1 <= |Sites(p.sessions)| <= |spec.urls|
    ensures forall s <- p.sessions :: s.urls != []
    ensures forall s <- p.sessions, t <- p.sessions :: |s.urls| <= |t.urls| + 1
  {
    assert |multiset(Sites(p.sessions))| <= |multiset(spec.urls)|;
    assert |Sites(p.sessions)| >= |p.sessions|;
  }
}
