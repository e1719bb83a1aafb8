/** What every scheduler operation keeps: one session in flight per profile, capacity per plan,
    the books balanced over the whole history, one unfinished plan per profile. */
module FarmInvariants {
  import opened Wrappers
  import opened FarmTypes
  import opened FarmDay
  import opened FarmBook

  // ----- counting over sessions and plans -----

  lemma {:induction false} TotalUpdate(sessions: seq<Session>, i: nat, s: Session, w: Session -> nat)
    requires i < |sessions|
    ensures Total(sessions[i := s], w) + w(sessions[i]) == Total(sessions, w) + w(s)
  {
    var n := |sessions| - 1;
    if i == n {
      assert sessions[i := s][..n] == sessions[..n];
    } else {
      assert sessions[i := s][..n] == sessions[..n][i := s];
      TotalUpdate(sessions[..n], i, s, w);
    }
  }

  lemma {:induction false} TotalSame(a: seq<Session>, b: seq<Session>, w: Session -> nat)
    requires |a| == |b| && forall i | 0 <= i < |a| :: w(a[i]) == w(b[i])
    ensures Total(a, w) == Total(b, w)
  {
    if a != [] {
      var n := |a| - 1;
      TotalSame(a[..n], b[..n], w);
    }
  }

  lemma {:induction false} TotalZero(a: seq<Session>, w: Session -> nat)
    ensures Total(a, w) == 0 <==> forall s <- a :: w(s) == 0
  {
    if a != [] {
      TotalZero(a[..|a| - 1], w);
      assert a == a[..|a| - 1] + [a[|a| - 1]];
    }
  }

  /** A profile whose first in-flight session is not there has none. */
  lemma NoFlights(sessions: seq<Session>)
    ensures Flights(sessions) == 0 <==> FirstInFlight(sessions) == |sessions|
    ensures Flights(sessions) == 0 <==> forall s <- sessions :: !s.InFlight()
  {
    TotalZero(sessions, FlightOf);
  }

  lemma {:induction false} InFlightAt(tracks: map<Id, Track>, id: Id)
    requires id in tracks
    ensures InFlight(tracks) == Flights(tracks[id].sessions) + InFlight(tracks - {id})
    decreases |tracks|
  {
    assert tracks != map[];
    var other :| other in tracks && InFlight(tracks) == Flights(tracks[other].sessions) + InFlight(tracks - {other});
    if other != id {
      InFlightAt(tracks - {other}, id);
      InFlightAt(tracks - {id}, other);
      assert tracks - {other} - {id} == tracks - {id} - {other};
    }
  }

  /** Changing one profile's track changes the plan's count by that track's change. */
  lemma InFlightUpdate(tracks: map<Id, Track>, id: Id, track: Track)
    ensures InFlight(tracks[id := track]) + Flights(TrackOf(tracks, id).sessions)
         == InFlight(tracks) + Flights(track.sessions)
  {
    InFlightAt(tracks[id := track], id);
    assert tracks[id := track] - {id} == tracks - {id};
    if id in tracks {
      InFlightAt(tracks, id);
    } else {
      assert tracks - {id} == tracks;
    }
  }

  lemma {:induction false} InFlightNone(tracks: map<Id, Track>)
    requires forall id <- tracks :: Flights(tracks[id].sessions) == 0
    ensures InFlight(tracks) == 0
    decreases |tracks|
  {
    if tracks != map[] {
      var id :| id in tracks && InFlight(tracks) == Flights(tracks[id].sessions) + InFlight(tracks - {id});
      InFlightNone(tracks - {id});
    }
  }

  // ----- one profile's books -----

  function SitesBehind(past: seq<Day>): nat {
    if past == [] then 0 else SitesBehind(past[..|past| - 1]) + Total(past[|past| - 1].sessions, SitesDone)
  }

  function DaysBehind(past: seq<Day>): nat {
    if past == [] then 0 else DaysBehind(past[..|past| - 1]) + if AnyDone(past[|past| - 1].sessions) then 1 else 0
  }

  lemma BehindAppend(past: seq<Day>, d: Day)
    ensures SitesBehind(past + [d]) == SitesBehind(past) + Total(d.sessions, SitesDone)
    ensures DaysBehind(past + [d]) == DaysBehind(past) + if AnyDone(d.sessions) then 1 else 0
  {
    assert (past + [d])[..|past|] == past;
  }

  ghost predicate Rising(past: seq<Day>) {
    forall i, j | 0 <= i < j < |past| :: past[i].date < past[j].date
  }

  /** A profile's track and the days behind it agree. */
  ghost predicate Balanced(spec: Spec, tr: Track, past: seq<Day>) {
    && Flights(tr.sessions) <= 1
    && tr.daysDone <= spec.days
    && (tr.day.None? ==> AllEnded(tr.sessions))
    && (tr.day.Some? ==> tr.lastDay == tr.day && tr.daysDone < spec.days)
    && (tr.lastDay.None? ==> tr.day.None? && tr.sessions == [] && past == [])
    && tr.sites == SitesBehind(past) + Total(tr.sessions, SitesDone)
    && tr.daysDone == DaysBehind(past) + (if tr.day.None? && AnyDone(tr.sessions) then 1 else 0)
    && Rising(past)
    && (forall d <- past :: tr.lastDay.Some? && d.date < tr.lastDay.value && AllEnded(d.sessions))
  }

  /** The track's window and session times are those of its last planned day on this clock. */
  ghost predicate OnClock(spec: Spec, zone: Zone, tr: Track) {
    tr.lastDay.Some? ==>
      && tr.windowEndMs == Ms(End(spec, zone, tr.lastDay.value))
      && forall s <- tr.sessions :: Ms(zone.At(tr.lastDay.value, spec.hours.0)) <= s.atMs
  }

  ghost predicate OnSomeClock(farm: Farm, id: Id, tr: Track) {
    exists t <- farm.targets :: t.id == id && OnClock(farm.spec, t.zone, tr)
  }

  /** Ending the session in flight: the count drops to none, and the books stay balanced if the
      visited sites are entered. */
  lemma EndFlightBalanced(spec: Spec, tr: Track, past: seq<Day>, o: Outcome, sites: nat)
    requires Balanced(spec, tr, past)
    requires FirstInFlight(tr.sessions) < |tr.sessions|
    requires sites == if o.Done? then o.sites else 0
    ensures var i := FirstInFlight(tr.sessions);
            var after := tr.(sessions := tr.sessions[i := EndSession(tr.sessions[i], o)], sites := tr.sites + sites);
            Balanced(spec, after, past) && Flights(after.sessions) == 0 && Flights(tr.sessions) == 1
  {
    var i := FirstInFlight(tr.sessions);
    var s := EndSession(tr.sessions[i], o);
    TotalUpdate(tr.sessions, i, s, FlightOf);
    TotalUpdate(tr.sessions, i, s, SitesDone);
    NoFlights(tr.sessions);
    assert tr.sessions[i].ended.None?;
  }

  /** Changing a waiting session without ending anything Done keeps the books balanced. */
  lemma ChangeWaitingBalanced(spec: Spec, tr: Track, past: seq<Day>, s: Session)
    requires Balanced(spec, tr, past)
    requires FirstWaiting(tr.sessions) < |tr.sessions|
    requires !s.WasDone()
    requires FlightOf(s) + Flights(tr.sessions) <= 1
    ensures var after := tr.(sessions := tr.sessions[FirstWaiting(tr.sessions) := s]);
            Balanced(spec, after, past) && Flights(after.sessions) == Flights(tr.sessions) + FlightOf(s)
  {
    var i := FirstWaiting(tr.sessions);
    TotalUpdate(tr.sessions, i, s, FlightOf);
    TotalUpdate(tr.sessions, i, s, SitesDone);
    assert tr.sessions[i].ended.None?;
  }

  lemma ReportBalanced(spec: Spec, tr: Track, past: seq<Day>, last: Progress)
    requires Balanced(spec, tr, past)
    ensures Balanced(spec, ReportTrack(last, tr), past)
    ensures Flights(ReportTrack(last, tr).sessions) <= Flights(tr.sessions)
  {
    if FirstInFlight(tr.sessions) < |tr.sessions| {
      EndFlightBalanced(spec, tr, past, OutcomeOf(last), last.done);
    }
  }

  lemma FailBalanced(spec: Spec, tr: Track, past: seq<Day>, error: string)
    requires Balanced(spec, tr, past)
    ensures Balanced(spec, FailTrack(error, tr), past)
    ensures Flights(FailTrack(error, tr).sessions) <= Flights(tr.sessions)
  {
    if FirstInFlight(tr.sessions) < |tr.sessions| {
      EndFlightBalanced(spec, tr, past, Failed(error), 0);
    }
  }

  lemma LoadBalanced(spec: Spec, tr: Track, past: seq<Day>)
    requires Balanced(spec, tr, past)
    ensures Balanced(spec, LoadTrack(tr), past)
    ensures Flights(LoadTrack(tr).sessions) == 0
  {
    var after := FailFlights(tr.sessions);
    TotalSame(tr.sessions, after, SitesDone);
    NoFlights(after);
    assert AnyDone(tr.sessions) == AnyDone(after) by {
      forall i | 0 <= i < |after| ensures tr.sessions[i].WasDone() == after[i].WasDone() {}
    }
    assert AllEnded(tr.sessions) ==> AllEnded(after);
  }

  /** A profile that could be claimed has nothing in flight, and claiming starts exactly one. */
  lemma StartBalanced(spec: Spec, tr: Track, past: seq<Day>, now: int)
    requires Balanced(spec, tr, past)
    requires FirstWaiting(tr.sessions) < |tr.sessions|
    requires forall s <- tr.sessions :: !s.InFlight()
    ensures Balanced(spec, StartTrack(now, tr), past)
    ensures Flights(StartTrack(now, tr).sessions) == 1 && Flights(tr.sessions) == 0
  {
    NoFlights(tr.sessions);
    var i := FirstWaiting(tr.sessions);
    ChangeWaitingBalanced(spec, tr, past, tr.sessions[i].(startedMs := Some(Ms(now))));
  }

  // ----- one visit -----

  lemma CloseBalanced(spec: Spec, tr: Track, past: seq<Day>)
    requires Balanced(spec, tr, past)
    requires tr.day.Some? && Flights(tr.sessions) == 0
    ensures Balanced(spec, CloseDay(spec, tr), past)
    ensures AllEnded(CloseDay(spec, tr).sessions) && Flights(CloseDay(spec, tr).sessions) == 0
  {
    var after := SkipWaiting(tr.sessions);
    TotalSame(tr.sessions, after, SitesDone);
    NoFlights(tr.sessions);
    forall s | s in after ensures s.ended.Some? {
      var i :| 0 <= i < |after| && after[i] == s;
      assert !tr.sessions[i].InFlight();
    }
    NoFlights(after);
  }

  /** What the books need to know of a day plan. */
  ghost predicate FreshDay(spec: Spec, zone: Zone, after: Option<int>, plan: DayPlan) {
    && (after.Some? ==> after.value < plan.date)
    && plan.endMs == Ms(End(spec, zone, plan.date))
    && Flights(plan.sessions) == 0 && Total(plan.sessions, SitesDone) == 0 && !AnyDone(plan.sessions)
    && forall s <- plan.sessions :: Ms(zone.At(plan.date, spec.hours.0)) <= s.atMs
  }

  lemma PlannedIsFresh(spec: Spec, zone: Zone, after: Option<int>, now: int, plan: DayPlan)
    requires PlansDay(spec, zone, after, now, plan)
    ensures FreshDay(spec, zone, after, plan)
  {
    TimesSpread(spec, zone, after, now, plan);
    assert forall s <- plan.sessions :: Untouched(s);
    NoFlights(plan.sessions);
    TotalZero(plan.sessions, SitesDone);
  }

  function Behind(tr: Track): seq<Day> {
    if tr.lastDay.Some? then [Day(tr.lastDay.value, tr.sessions)] else []
  }

  /** Planning the next day puts the one before behind, and comes strictly after it. */
  lemma OpenBalanced(spec: Spec, zone: Zone, tr: Track, past: seq<Day>, plan: DayPlan)
    requires Balanced(spec, tr, past)
    requires tr.day.None? && tr.daysDone < spec.days
    requires FreshDay(spec, zone, tr.lastDay, plan)
    ensures Balanced(spec, OpenDay(tr, plan), past + Behind(tr))
    ensures OnClock(spec, zone, OpenDay(tr, plan))
  {
    if tr.lastDay.Some? {
      BehindAppend(past, Day(tr.lastDay.value, tr.sessions));
    } else {
      assert past + [] == past;
      TotalZero(tr.sessions, SitesDone);
    }
  }

  /** What a start returned by step is: the session it left in flight belongs to a local profile
      nobody has open, was due, and is inside its day's hours. */
  ghost predicate GoodStart(farm: Farm, tracks: map<Id, Track>, st: Start, now: int, open: set<Id>) {
    && st.profileId !in open
    && st.profileId in tracks
    && var tr := tracks[st.profileId];
       var i := FirstInFlight(tr.sessions);
       i < |tr.sessions| && tr.day.Some?
       && tr.sessions[i].startedMs == Some(Ms(now)) && tr.sessions[i].atMs <= Ms(now)
       && st.plan == SessionPlan(farm.spec, farm.id, tr.sessions[i].urls)
       && (exists t <- farm.targets :: t.id == st.profileId && t.IsLocal() && t.name == st.name)
       && (0 <= now ==> exists t <- farm.targets :: t.id == st.profileId
                          && t.zone.At(tr.day.value, farm.spec.hours.0) <= now < End(farm.spec, t.zone, tr.day.value))
  }

  lemma MoveKeeps(farm: Farm, t: Target, now: int, open: set<Id>, c: Chance, tr: Track, past: seq<Day>, room: nat)
    requires Balanced(farm.spec, tr, past) && tr.day.Some? && Flights(tr.sessions) == 0
    ensures var v := MoveDue(farm, t, now, open, c.retryMinutes, tr, room);
            && Balanced(farm.spec, v.track, past)
            && v.room + Flights(v.track.sessions) == room
            && |v.starts| == Flights(v.track.sessions)
            && v.track.day == tr.day && v.track.lastDay == tr.lastDay && v.track.windowEndMs == tr.windowEndMs
  {
    var i := FirstWaiting(tr.sessions);
    if i < |tr.sessions| && tr.sessions[i].atMs <= Ms(now) {
      var s := tr.sessions[i];
      if t.id in open {
        var later := s.(atMs := Ms(now) + c.retryMinutes * 60 * 1000);
        ChangeWaitingBalanced(farm.spec, tr, past, later);
        ChangeWaitingBalanced(farm.spec, tr, past, EndSession(later, Skipped("the profile was open")));
      } else if t.IsLocal() && room > 0 {
        ChangeWaitingBalanced(farm.spec, tr, past, s.(startedMs := Some(Ms(now))));
      }
    }
  }

  lemma MoveOnClock(farm: Farm, t: Target, zone: Zone, now: int, open: set<Id>, c: Chance, tr: Track, room: nat)
    requires OnClock(farm.spec, zone, tr)
    ensures OnClock(farm.spec, zone, MoveDue(farm, t, now, open, c.retryMinutes, tr, room).track)
  {
  }

  /** The one session a visit started: the visited profile's, local and not open, due, and before
      the end of its track's window. */
  ghost predicate StartedInHours(farm: Farm, t: Target, now: int, open: set<Id>, v: Visit) {
    var i := FirstInFlight(v.track.sessions);
    && |v.starts| == 1 && i < |v.track.sessions|
    && v.starts[0] == Start(t.id, t.name, SessionPlan(farm.spec, farm.id, v.track.sessions[i].urls))
    && t.IsLocal() && t.id !in open && v.track.day.Some? && v.track.lastDay == v.track.day
    && v.track.sessions[i].startedMs == Some(Ms(now)) && v.track.sessions[i].atMs <= Ms(now)
    && (0 <= now ==> Ms(now) < v.track.windowEndMs)
  }

  /** The one session a move starts, and why it was right to start it. */
  lemma MoveStarts(farm: Farm, t: Target, now: int, open: set<Id>, c: Chance, tr: Track, room: nat)
    requires Flights(tr.sessions) == 0 && tr.day.Some?
    requires tr.lastDay == tr.day
    ensures var v := MoveDue(farm, t, now, open, c.retryMinutes, tr, room);
            v.starts != [] ==>
              && (0 <= now ==> exists s <- tr.sessions :: s.atMs <= Ms(now))
              && v.track.windowEndMs == tr.windowEndMs
              && ((0 <= now ==> Ms(now) < tr.windowEndMs) ==> StartedInHours(farm, t, now, open, v))
  {
    NoFlights(tr.sessions);
    var v := MoveDue(farm, t, now, open, c.retryMinutes, tr, room);
    if v.starts != [] {
      var i := FirstWaiting(tr.sessions);
      assert v.track.sessions[i].InFlight();
      assert forall j | 0 <= j < |tr.sessions| && j != i :: v.track.sessions[j] == tr.sessions[j];
      assert FirstInFlight(v.track.sessions) == i;
    }
  }

  // ----- a whole visit -----

  lemma VisitRunningKeeps(farm: Farm, now: int, tr: Track, past: seq<Day>, room: nat)
    requires Balanced(farm.spec, tr, past)
    requires FirstInFlight(tr.sessions) < |tr.sessions|
    ensures var v := VisitRunning(now, tr, room);
            && Balanced(farm.spec, v.track, past) && v.behind == [] && v.starts == []
            && v.room + Flights(v.track.sessions) == room + Flights(tr.sessions)
  {
    EndFlightBalanced(farm.spec, tr, past, Failed("the session never reported back"), 0);
  }

  /** Before now's hours are over: the day an idle profile has open once its old one is dealt with. */
  lemma OpenedIsCurrent(farm: Farm, t: Target, now: int, c: Chance, tr: Track, past: seq<Day>)
    requires Balanced(farm.spec, tr, past) && Flights(tr.sessions) == 0 && Drawable(farm, t, now, tr, c)
    requires tr.daysDone < farm.spec.days
    ensures var closed := if DayOver(tr, now) then CloseDay(farm.spec, tr) else tr;
            && Balanced(farm.spec, closed, past) && Flights(closed.sessions) == 0 && closed.lastDay == tr.lastDay
            && tr.daysDone <= closed.daysDone
            && (closed.day.Some? ==> closed == tr && Ms(now) < tr.windowEndMs)
            && (closed.daysDone < farm.spec.days && closed.day.None? ==>
                  c.plan in DayPlans(farm.spec, t.zone, tr.lastDay, now)
                      && FreshDay(farm.spec, t.zone, tr.lastDay, c.plan)
                  && Balanced(farm.spec, OpenDay(closed, c.plan), past + Behind(closed))
                  && OnClock(farm.spec, t.zone, OpenDay(closed, c.plan)))
  {
    NoFlights(tr.sessions);
    var closed := if DayOver(tr, now) then CloseDay(farm.spec, tr) else tr;
    if DayOver(tr, now) {
      CloseBalanced(farm.spec, tr, past);
    }
    if closed.daysDone < farm.spec.days && closed.day.None? {
      assert PlansNow(farm, now, tr);
      PlannedIsFresh(farm.spec, t.zone, tr.lastDay, now, c.plan);
      OpenBalanced(farm.spec, t.zone, closed, past, c.plan);
    }
  }

  /** A freshly planned day has nothing due yet. */
  lemma NothingDueAtOnce(spec: Spec, zone: Zone, after: Option<int>, now: int, plan: DayPlan)
    requires PlansDay(spec, zone, after, now, plan) && 0 <= now
    ensures forall s <- plan.sessions :: s.atMs > Ms(now)
  {
    TimesSpread(spec, zone, after, now, plan);
  }

  lemma VisitKeeps(farm: Farm, t: Target, now: int, open: set<Id>, c: Chance, tr: Track, past: seq<Day>, room: nat)
    requires Balanced(farm.spec, tr, past) && Drawable(farm, t, now, tr, c)
    ensures var v := VisitTrack(farm, t, now, open, c, tr, room);
            && Balanced(farm.spec, v.track, past + v.behind)
            && v.room + Flights(v.track.sessions) == room + Flights(tr.sessions)
            && tr.daysDone <= v.track.daysDone
            && (v.starts != [] ==> Flights(tr.sessions) == 0)
            && (Flights(tr.sessions) == 0 ==> |v.starts| == Flights(v.track.sessions))
  {
    assert past + [] == past;
    NoFlights(tr.sessions);
    if tr.daysDone < farm.spec.days {
      if FirstInFlight(tr.sessions) < |tr.sessions| {
        VisitRunningKeeps(farm, now, tr, past, room);
      } else {
        OpenedIsCurrent(farm, t, now, c, tr, past);
        var closed := if DayOver(tr, now) then CloseDay(farm.spec, tr) else tr;
        if closed.daysDone < farm.spec.days {
          if closed.day.Some? {
            MoveKeeps(farm, t, now, open, c, closed, past, room);
          } else {
            MoveKeeps(farm, t, now, open, c, OpenDay(closed, c.plan), past + Behind(closed), room);
          }
        }
      }
    } else {
      NoFlights(tr.sessions);
    }
  }

  /** A visit leaves the track on the clock it was on, or on the visited target's. */
  lemma VisitOnClock(farm: Farm, t: Target, zone: Zone, now: int, open: set<Id>, c: Chance, tr: Track, past: seq<Day>,
                     room: nat)
    requires Balanced(farm.spec, tr, past) && Drawable(farm, t, now, tr, c)
    requires OnClock(farm.spec, zone, tr)
    ensures var v := VisitTrack(farm, t, now, open, c, tr, room);
            OnClock(farm.spec, zone, v.track) || OnClock(farm.spec, t.zone, v.track)
  {
    NoFlights(tr.sessions);
    if tr.daysDone < farm.spec.days && FirstInFlight(tr.sessions) == |tr.sessions| {
      OpenedIsCurrent(farm, t, now, c, tr, past);
      var closed := if DayOver(tr, now) then CloseDay(farm.spec, tr) else tr;
      if closed.daysDone < farm.spec.days {
        if closed.day.Some? {
          MoveOnClock(farm, t, zone, now, open, c, closed, room);
        } else {
          MoveOnClock(farm, t, t.zone, now, open, c, OpenDay(closed, c.plan), room);
        }
      }
    }
  }

  /** A session a visit starts is inside the hours of its day, on the clock its track is on. */
  lemma VisitStartsInHours(farm: Farm, t: Target, now: int, open: set<Id>, c: Chance, tr: Track, past: seq<Day>,
                           room: nat)
    requires Balanced(farm.spec, tr, past) && Drawable(farm, t, now, tr, c)
    ensures var v := VisitTrack(farm, t, now, open, c, tr, room);
            v.starts != [] ==> StartedInHours(farm, t, now, open, v)
  {
    NoFlights(tr.sessions);
    if tr.daysDone < farm.spec.days && FirstInFlight(tr.sessions) == |tr.sessions| {
      OpenedIsCurrent(farm, t, now, c, tr, past);
      var closed := if DayOver(tr, now) then CloseDay(farm.spec, tr) else tr;
      if closed.daysDone < farm.spec.days {
        if closed.day.Some? {
          MoveStarts(farm, t, now, open, c, closed, room);
        } else {
          MoveStarts(farm, t, now, open, c, OpenDay(closed, c.plan), room);
          if 0 <= now {
            NothingDueAtOnce(farm.spec, t.zone, tr.lastDay, now, c.plan);
          }
        }
      }
    }
  }

  // ----- a pass over a plan -----

  /** What holds of a plan between any two operations. */
  ghost predicate PlanOk(plan: Plan) {
    && plan.farm.spec.Check().None?
    && plan.past.Keys == plan.farm.tracks.Keys
    && InFlight(plan.farm.tracks) <= plan.farm.spec.atOnce
    && (forall id <- plan.farm.tracks ::
          && Balanced(plan.farm.spec, plan.farm.tracks[id], plan.past[id])
          && OnSomeClock(plan.farm, id, plan.farm.tracks[id]))
  }

  /** What holds between any two visits of one pass: the room left and the sessions in flight
      make up the plan's capacity. */
  ghost predicate PassOk(farm: Farm, p: Pass, now: int, open: set<Id>) {
    && p.past.Keys == p.tracks.Keys
    && p.room + InFlight(p.tracks) == farm.spec.atOnce
    && (forall id <- p.tracks ::
          Balanced(farm.spec, p.tracks[id], p.past[id]) && OnSomeClock(farm, id, p.tracks[id]))
    && (forall st <- p.starts :: GoodStart(farm, p.tracks, st, now, open))
  }

  /** A good start stays good: its profile now has that session in flight and not stale. */
  lemma StartStaysGood(farm: Farm, t: Target, now: int, open: set<Id>, c: Chance, p: Pass, st: Start)
    requires t in farm.targets
    requires PassOk(farm, p, now, open) && st in p.starts
    ensures GoodStart(farm, VisitNext(farm, t, now, open, c, p).tracks, st, now, open)
  {
    if t.id == st.profileId {
      var tr := p.tracks[t.id];
      assert tr.day.Some?;
      assert VisitTrack(farm, t, now, open, c, tr, p.room).track == tr;
    }
  }

  /** On the clock of some target, a session under way before the window's end is inside the day's hours. */
  lemma InsideHours(farm: Farm, id: Id, tr: Track, now: int)
    requires OnSomeClock(farm, id, tr) && 0 <= now
    requires tr.day.Some? && tr.lastDay == tr.day
    requires FirstInFlight(tr.sessions) < |tr.sessions|
    requires tr.sessions[FirstInFlight(tr.sessions)].atMs <= Ms(now) < tr.windowEndMs
    ensures exists t <- farm.targets :: t.id == id
              && t.zone.At(tr.day.value, farm.spec.hours.0) <= now < End(farm.spec, t.zone, tr.day.value)
  {
    var u :| u in farm.targets && u.id == id && OnClock(farm.spec, u.zone, tr);
    assert tr.sessions[FirstInFlight(tr.sessions)] in tr.sessions;
    assert u.zone.At(tr.day.value, farm.spec.hours.0) <= now < End(farm.spec, u.zone, tr.day.value);
  }

  lemma NewStartIsGood(farm: Farm, t: Target, now: int, open: set<Id>, c: Chance, tr: Track, past: seq<Day>, room: nat,
                       tracks: map<Id, Track>, st: Start)
    requires t in farm.targets && Balanced(farm.spec, tr, past) && Drawable(farm, t, now, tr, c)
    requires st in VisitTrack(farm, t, now, open, c, tr, room).starts
    requires t.id in tracks && tracks[t.id] == VisitTrack(farm, t, now, open, c, tr, room).track
    requires OnSomeClock(farm, t.id, tracks[t.id])
    ensures GoodStart(farm, tracks, st, now, open)
  {
    VisitStartsInHours(farm, t, now, open, c, tr, past, room);
    var v := VisitTrack(farm, t, now, open, c, tr, room);
    assert st == v.starts[0];
    if 0 <= now {
      InsideHours(farm, t.id, v.track, now);
    }
  }

  lemma NewTrackBalanced(spec: Spec)
    ensures Balanced(spec, NEW_TRACK, [])
  {
    NoFlights([]);
  }

  /** Entering a visit's result keeps the plan's capacity made up and its books balanced. */
  lemma EnterVisit(farm: Farm, id: Id, p: Pass, v: Visit, now: int, open: set<Id>)
    requires PassOk(farm, p, now, open)
    requires Balanced(farm.spec, v.track, PastOf(p.past, id) + v.behind)
    requires OnSomeClock(farm, id, v.track)
    requires v.room + Flights(v.track.sessions) == p.room + Flights(TrackOf(p.tracks, id).sessions)
    requires forall st <- p.starts + v.starts :: GoodStart(farm, p.tracks[id := v.track], st, now, open)
    ensures var past := p.past[id := PastOf(p.past, id) + v.behind];
            PassOk(farm, Pass(p.tracks[id := v.track], past, v.room, p.starts + v.starts), now, open)
  {
    InFlightUpdate(p.tracks, id, v.track);
  }

  lemma VisitNextKeeps(farm: Farm, t: Target, now: int, open: set<Id>, c: Chance, p: Pass)
    requires t in farm.targets && PassOk(farm, p, now, open)
    requires Drawable(farm, t, now, TrackOf(p.tracks, t.id), c)
    ensures PassOk(farm, VisitNext(farm, t, now, open, c, p), now, open)
  {
    var tr := TrackOf(p.tracks, t.id);
    var past := PastOf(p.past, t.id);
    NewTrackBalanced(farm.spec);
    VisitKeeps(farm, t, now, open, c, tr, past, p.room);
    var v := VisitTrack(farm, t, now, open, c, tr, p.room);
    ClockFound(farm, t, now, open, c, p);
    forall st | st in p.starts + v.starts
      ensures GoodStart(farm, p.tracks[t.id := v.track], st, now, open)
    {
      if st in p.starts {
        StartStaysGood(farm, t, now, open, c, p, st);
      } else {
        NewStartIsGood(farm, t, now, open, c, tr, past, p.room, p.tracks[t.id := v.track], st);
      }
    }
    EnterVisit(farm, t.id, p, v, now, open);
  }

  lemma ClockFound(farm: Farm, t: Target, now: int, open: set<Id>, c: Chance, p: Pass)
    requires t in farm.targets && PassOk(farm, p, now, open)
    requires Drawable(farm, t, now, TrackOf(p.tracks, t.id), c)
    ensures OnSomeClock(farm, t.id, VisitTrack(farm, t, now, open, c, TrackOf(p.tracks, t.id), p.room).track)
  {
    var tr := TrackOf(p.tracks, t.id);
    NewTrackBalanced(farm.spec);
    assert OnSomeClock(farm, t.id, tr) by {
      if t.id !in p.tracks {
        assert OnClock(farm.spec, t.zone, NEW_TRACK);
      }
    }
    var u :| u in farm.targets && u.id == t.id && OnClock(farm.spec, u.zone, tr);
    VisitOnClock(farm, t, u.zone, now, open, c, tr, PastOf(p.past, t.id), p.room);
  }

  lemma PassBegins(plan: Plan, now: int, open: set<Id>)
    requires PlanOk(plan)
    ensures PassOk(plan.farm, Pass(plan.farm.tracks, plan.past, StepRoom(plan), []), now, open)
  {
  }

  /** Inside step, room plus the sessions in flight is the capacity after every visit, and every
      start made so far is a good one. */
  lemma {:induction false} StepPassKeeps(plan: Plan, now: int, open: set<Id>, chances: seq<Chance>)
    requires PlanOk(plan)
    requires |chances| <= |plan.farm.targets|
    requires AllDrawable(plan, StepRoom(plan), now, open, chances)
    ensures PassOk(plan.farm, StepPass(plan, StepRoom(plan), now, open, chances), now, open)
  {
    if chances == [] {
      PassBegins(plan, now, open);
    } else {
      var n := |chances| - 1;
      StepPassKeeps(plan, now, open, chances[..n]);
      VisitNextKeeps(plan.farm, plan.farm.targets[n], now, open, chances[n],
                     StepPass(plan, StepRoom(plan), now, open, chances[..n]));
    }
  }
}
