/** What no restart rolls back: a log of every session that ended Done, and what of it the list of
    plans still counts. */
module FarmLog {
  import opened Wrappers
  import opened FarmTypes
  import opened FarmDay
  import opened FarmBook
  import opened FarmInvariants
  import opened FarmRuns

  // ----- one profile, from one operation to the next -----

  /** Sessions are only added, and one that has ended stays at its place as it ended. */
  ghost predicate Stay(a: seq<Session>, b: seq<Session>) {
    && |a| <= |b|
    && forall k | 0 <= k < |a| :: a[k].ended.Some? ==> b[k].ended == a[k].ended
  }

  /** The same profile later: nothing that ended is forgotten, and the sites counted grew by so many. */
  ghost predicate Follows(a: Track, pastA: seq<Day>, b: Track, pastB: seq<Day>, gained: nat) {
    && Stay(EverySession(pastA, a.sessions), EverySession(pastB, b.sessions))
    && b.sites == a.sites + gained
  }

  /** A track without a planned day has no sessions. */
  predicate Begun(tr: Track) {
    tr.lastDay.None? ==> tr.sessions == []
  }

  lemma SessionsStay(past: seq<Day>, a: seq<Session>, b: seq<Session>)
    requires Stay(a, b)
    ensures Stay(EverySession(past, a), EverySession(past, b))
  {
  }

  lemma DayStays(past: seq<Day>, d: Day, current: seq<Session>)
    ensures Stay(EverySession(past, d.sessions), EverySession(past + [d], current))
  {
    assert (past + [d])[..|past|] == past;
  }

  lemma StayOn(a: seq<Session>, b: seq<Session>, c: seq<Session>)
    requires Stay(a, b) && Stay(b, c)
    ensures Stay(a, c)
  {
  }

  lemma MoveDueFollows(farm: Farm, t: Target, now: int, open: set<Id>, retryMinutes: nat, track: Track, room: nat)
    requires Begun(track)
    ensures var v := MoveDue(farm, t, now, open, retryMinutes, track, room);
            && Stay(track.sessions, v.track.sessions) && v.track.sites == track.sites
            && Begun(v.track) && v.behind == []
  {
  }

  lemma CloseDayStays(spec: Spec, track: Track)
    ensures Stay(track.sessions, CloseDay(spec, track).sessions)
  {
  }

  lemma VisitFollows(farm: Farm, t: Target, now: int, open: set<Id>, c: Chance, tr: Track, past: seq<Day>, room: nat)
    requires Begun(tr)
    ensures var v := VisitTrack(farm, t, now, open, c, tr, room);
            Follows(tr, past, v.track, past + v.behind, 0) && Begun(v.track)
  {
    var v := VisitTrack(farm, t, now, open, c, tr, room);
    if tr.daysDone >= farm.spec.days || FirstInFlight(tr.sessions) < |tr.sessions| {
      assert past + v.behind == past;
      SessionsStay(past, tr.sessions, v.track.sessions);
    } else {
      IdleFollows(farm, t, now, open, c, tr, past, room);
    }
  }

  lemma IdleFollows(farm: Farm, t: Target, now: int, open: set<Id>, c: Chance, tr: Track, past: seq<Day>, room: nat)
    requires Begun(tr)
    ensures var v := VisitIdle(farm, t, now, open, c, tr, room);
            Follows(tr, past, v.track, past + v.behind, 0) && Begun(v.track)
  {
    var v := VisitIdle(farm, t, now, open, c, tr, room);
    CloseDayStays(farm.spec, tr);
    var closed := if DayOver(tr, now) then CloseDay(farm.spec, tr) else tr;
    SessionsStay(past, tr.sessions, closed.sessions);
    if closed.daysDone >= farm.spec.days || closed.day.Some? {
      assert past + v.behind == past;
      if closed.daysDone < farm.spec.days {
        MoveDueFollows(farm, t, now, open, c.retryMinutes, closed, room);
      }
      SessionsStay(past, closed.sessions, v.track.sessions);
      StayOn(EverySession(past, tr.sessions), EverySession(past, closed.sessions),
             EverySession(past, v.track.sessions));
    } else {
      MoveDueFollows(farm, t, now, open, c.retryMinutes, OpenDay(closed, c.plan), room);
      if closed.lastDay.Some? {
        DayStays(past, Day(closed.lastDay.value, closed.sessions), v.track.sessions);
        StayOn(EverySession(past, tr.sessions), EverySession(past, closed.sessions),
               EverySession(past + v.behind, v.track.sessions));
      } else {
        assert past + v.behind == past;
        SessionsStay(past, tr.sessions, v.track.sessions);
      }
    }
  }

  lemma {:induction false} PassFollows(plan: Plan, room: nat, now: int, open: set<Id>, chances: seq<Chance>, id: Id)
    requires |chances| <= |plan.farm.targets|
    requires forall other <- plan.farm.tracks :: Begun(plan.farm.tracks[other])
    ensures var p := StepPass(plan, room, now, open, chances);
            && Follows(TrackOf(plan.farm.tracks, id), PastOf(plan.past, id),
                       TrackOf(p.tracks, id), PastOf(p.past, id), 0)
            && forall other <- p.tracks :: Begun(p.tracks[other])
    decreases |chances|
  {
    if chances != [] {
      var n := |chances| - 1;
      PassFollows(plan, room, now, open, chances[..n], id);
      var p, t := StepPass(plan, room, now, open, chances[..n]), plan.farm.targets[n];
      VisitFollows(plan.farm, t, now, open, chances[n], TrackOf(p.tracks, t.id), PastOf(p.past, t.id), p.room);
    }
  }

  // ----- one operation -----

  predicate Stands(book: seq<Plan>, farmId: Id) {
    Find(book, farmId) < |book|
  }

  function TrackIn(book: seq<Plan>, farmId: Id, id: Id): Track {
    var i := Find(book, farmId);
    if i < |book| then TrackOf(book[i].farm.tracks, id) else NEW_TRACK
  }

  function PastIn(book: seq<Plan>, farmId: Id, id: Id): seq<Day> {
    var i := Find(book, farmId);
    if i < |book| then PastOf(book[i].past, id) else []
  }

  /** The sites of the session that an operation on this list ends Done for this profile. */
  function Gained(book: seq<Plan>, op: Op, farmId: Id, id: Id): nat {
    if !op.Report? || op.farmId != farmId || op.profileId != id then 0
    else
      var sessions := TrackIn(book, farmId, id).sessions;
      var o := OutcomeOf(op.last);
      if FirstInFlight(sessions) < |sessions| && o.Done? then o.sites else 0
  }

  /** The lists in which this profile has only gone on from where it was in this one. */
  ghost function Followers(book: seq<Plan>, farmId: Id, id: Id, gained: nat): iset<seq<Plan>> {
    iset after: seq<Plan> |
      Follows(TrackIn(book, farmId, id), PastIn(book, farmId, id),
              TrackIn(after, farmId, id), PastIn(after, farmId, id), gained)
  }

  /** The plan is where it was. */
  lemma FindSame(book: seq<Plan>, after: seq<Plan>, farmId: Id)
    requires |after| == |book| && forall j | 0 <= j < |book| :: after[j].farm.id == book[j].farm.id
    ensures Find(after, farmId) == Find(book, farmId)
  {
  }

  lemma FindsIt(book: seq<Plan>, i: nat)
    requires BookOk(book) && i < |book|
    ensures Find(book, book[i].farm.id) == i
  {
    forall k | 0 <= k < i ensures book[k].farm.id != book[i].farm.id {
      assert Apart(book[k], book[i]);
    }
  }

  lemma WithTrackIs(book: seq<Plan>, f: Id, who: Id, g: Track -> Track, farmId: Id, id: Id)
    ensures Stands(WithTrack(book, f, who, g), farmId) <==> Stands(book, farmId)
    ensures PastIn(WithTrack(book, f, who, g), farmId, id) == PastIn(book, farmId, id)
    ensures TrackIn(WithTrack(book, f, who, g), farmId, id) ==
              if f == farmId && who == id && Stands(book, f) && who in book[Find(book, f)].farm.tracks
              then g(TrackIn(book, farmId, id)) else TrackIn(book, farmId, id)
  {
    FindSame(book, WithTrack(book, f, who, g), farmId);
  }

  lemma WithTrackFollows(book: seq<Plan>, f: Id, who: Id, g: Track -> Track, farmId: Id, id: Id, gained: nat)
    requires Stands(WithTrack(book, f, who, g), farmId)
    requires var tr := TrackIn(book, farmId, id);
             if f == farmId && who == id && Stands(book, f) && who in book[Find(book, f)].farm.tracks then
               Stay(tr.sessions, g(tr).sessions) && g(tr).sites == tr.sites + gained
             else gained == 0
    ensures Stands(book, farmId) && WithTrack(book, f, who, g) in Followers(book, farmId, id, gained)
  {
    var after := WithTrack(book, f, who, g);
    WithTrackIs(book, f, who, g, farmId, id);
    SessionsStay(PastIn(book, farmId, id), TrackIn(book, farmId, id).sessions, TrackIn(after, farmId, id).sessions);
  }

  lemma WithoutFollows(book: seq<Plan>, gone: Id, farmId: Id, id: Id)
    requires BookOk(book) && Stands(Without(book, gone), farmId)
    ensures Stands(book, farmId) && Without(book, gone) in Followers(book, farmId, id, 0)
  {
    var after := Without(book, gone);
    var plan := after[Find(after, farmId)];
    WithoutIs(book, gone);
    assert plan in after;
    var k :| 0 <= k < |book| && book[k] == plan;
    FindsIt(book, k);
  }

  lemma AlignedFollows(book: seq<Plan>, after: seq<Plan>, farmId: Id, id: Id)
    requires Stands(after, farmId)
    requires |after| == |book| && forall j | 0 <= j < |book| :: after[j].farm.id == book[j].farm.id
    requires forall j | 0 <= j < |book| ::
               Follows(TrackOf(book[j].farm.tracks, id), PastOf(book[j].past, id),
                       TrackOf(after[j].farm.tracks, id), PastOf(after[j].past, id), 0)
    ensures Stands(book, farmId) && after in Followers(book, farmId, id, 0)
  {
    FindSame(book, after, farmId);
  }

  lemma StepFollows(book: seq<Plan>, now: int, open: set<Id>, chances: seq<seq<Chance>>, farmId: Id, id: Id)
    requires BookOk(book) && StepChances(book, now, open, chances) && Stands(StepBook(book, now, open, chances), farmId)
    ensures Stands(book, farmId) && StepBook(book, now, open, chances) in Followers(book, farmId, id, 0)
  {
    var after := StepBook(book, now, open, chances);
    forall j | 0 <= j < |book|
      ensures Follows(TrackOf(book[j].farm.tracks, id), PastOf(book[j].past, id),
                      TrackOf(after[j].farm.tracks, id), PastOf(after[j].past, id), 0)
    {
      PlanAt(book, j);
      if !book[j].farm.paused {
        PassFollows(book[j], StepRoom(book[j]), now, open, chances[j], id);
      }
    }
    AlignedFollows(book, after, farmId, id);
  }

  /** A restart counts no more and no less than the file it reads, and keeps every outcome in it. */
  lemma LoadFollows(file: seq<Plan>, farmId: Id, id: Id)
    requires Stands(LoadBook(file), farmId)
    ensures Stands(file, farmId) && LoadBook(file) in Followers(file, farmId, id, 0)
  {
    var after := LoadBook(file);
    forall j | 0 <= j < |file|
      ensures Follows(TrackOf(file[j].farm.tracks, id), PastOf(file[j].past, id),
                      TrackOf(after[j].farm.tracks, id), PastOf(after[j].past, id), 0)
    {
      SessionsStay(PastOf(file[j].past, id), TrackOf(file[j].farm.tracks, id).sessions,
                   TrackOf(after[j].farm.tracks, id).sessions);
    }
    AlignedFollows(file, after, farmId, id);
  }

  lemma ReportFollows(book: seq<Plan>, op: Op, farmId: Id, id: Id)
    requires op.Report?
    requires var g := (tr: Track) => ReportTrack(op.last, tr);
             Stands(WithTrack(book, op.farmId, op.profileId, g), farmId)
    ensures Stands(book, farmId)
    ensures var g := (tr: Track) => ReportTrack(op.last, tr);
            WithTrack(book, op.farmId, op.profileId, g) in Followers(book, farmId, id, Gained(book, op, farmId, id))
  {
    WithTrackFollows(book, op.farmId, op.profileId, (tr: Track) => ReportTrack(op.last, tr), farmId, id,
                     Gained(book, op, farmId, id));
  }

  lemma ClaimFollows(book: seq<Plan>, f: Id, who: Id, now: int, open: set<Id>, farmId: Id, id: Id)
    requires Stands(ClaimBook(book, f, who, now, open), farmId)
    ensures Stands(book, farmId) && ClaimBook(book, f, who, now, open) in Followers(book, farmId, id, 0)
  {
    if Claimable(book, f, who, now, open) {
      WithTrackFollows(book, f, who, tr => StartTrack(now, tr), farmId, id, 0);
    }
  }

  lemma FindInLonger(book: seq<Plan>, made: Plan, farmId: Id)
    requires made.farm.id != farmId && Stands(book + [made], farmId)
    ensures var i := Find(book + [made], farmId);
            Find(book, farmId) == i && i < |book| && (book + [made])[i] == book[i]
  {
    var after := book + [made];
    var i := Find(after, farmId);
    assert after[|book|] == made;
    assert after[i] == book[i];
    assert forall j | 0 <= j < i :: after[j] == book[j];
  }

  lemma CreateFollows(book: seq<Plan>, made: Id, nowMs: nat, spec: Spec, targets: seq<Target>, farmId: Id, id: Id)
    requires made != farmId && Stands(CreateBook(book, made, nowMs, spec, targets), farmId)
    ensures Stands(book, farmId) && CreateBook(book, made, nowMs, spec, targets) in Followers(book, farmId, id, 0)
  {
    if CreateCheck(book, spec, targets).None? {
      FindInLonger(book, Plan(NewFarm(made, nowMs, spec, targets), map[]), farmId);
    }
  }

  lemma TrackOpFollows(w: World, op: Op, farmId: Id, id: Id)
    requires op.Report? || op.Fail? || op.StageApplied? || op.Claim?
    requires Stands(After(w, op), farmId)
    ensures Stands(w.book, farmId) && After(w, op) in Followers(w.book, farmId, id, Gained(w.book, op, farmId, id))
  {
    match op {
      case Report(f, who, last) => ReportFollows(w.book, op, farmId, id);
      case Fail(f, who, error) => WithTrackFollows(w.book, f, who, tr => FailTrack(error, tr), farmId, id, 0);
      case StageApplied(f, who) => WithTrackFollows(w.book, f, who, StageTrack, farmId, id, 0);
      case Claim(f, who, now, open) => ClaimFollows(w.book, f, who, now, open, farmId, id);
    }
  }

  lemma ListOpFollows(w: World, op: Op, farmId: Id, id: Id)
    requires BookOk(w.book) && Possible(w.book, op) && (op.Create? || op.Delete? || op.Pause? || op.Step?)
    requires Stands(After(w, op), farmId) && !(op.Create? && op.id == farmId)
    ensures Stands(w.book, farmId) && After(w, op) in Followers(w.book, farmId, id, 0)
  {
    if op.Create? {
      CreateFollows(w.book, op.id, op.nowMs, op.spec, op.targets, farmId, id);
    } else if op.Delete? {
      WithoutFollows(w.book, op.id, farmId, id);
    } else if op.Pause? {
      AlignedFollows(w.book, PauseBook(w.book, op.id, op.paused), farmId, id);
    } else {
      StepFollows(w.book, op.now, op.open, op.chances, farmId, id);
    }
  }

  /** A plan that is not made by an operation was there before it, with all that had ended, and
      counts the sites of the session the operation ended Done, if it did. */
  lemma OpFollows(w: World, op: Op, farmId: Id, id: Id)
    requires BookOk(w.book) && Possible(w.book, op) && !op.Load?
    requires Stands(After(w, op), farmId) && !(op.Create? && op.id == farmId)
    ensures Stands(w.book, farmId)
    ensures After(w, op) in Followers(w.book, farmId, id, Gained(w.book, op, farmId, id))
  {
    if op.Create? || op.Delete? || op.Pause? || op.Step? {
      ListOpFollows(w, op, farmId, id);
    } else {
      TrackOpFollows(w, op, farmId, id);
    }
  }

  lemma RunFollows(ws: seq<World>, ops: seq<Op>, i: nat, farmId: Id, id: Id)
    requires Run(ws, ops) && i < |ops|
    requires Stands(ws[i + 1].book, farmId) && !(ops[i].Create? && ops[i].id == farmId)
    ensures Stands(Before(ws[i], ops[i]), farmId)
    ensures ws[i + 1].book in Followers(Before(ws[i], ops[i]), farmId, id, Gained(ws[i].book, ops[i], farmId, id))
  {
    RunKeeps(ws, ops, i);
    assert Next(ws[i], ops[i], ws[i + 1]);
    if ops[i].Load? {
      LoadFollows(ws[i].file, farmId, id);
    } else {
      OpFollows(ws[i], ops[i], farmId, id);
    }
  }

  lemma StandsAt(book: seq<Plan>, plan: Plan, id: Id)
    requires BookOk(book) && plan in book && id in plan.farm.tracks
    ensures Stands(book, plan.farm.id) && id in plan.past
    ensures TrackIn(book, plan.farm.id, id) == plan.farm.tracks[id] && PastIn(book, plan.farm.id, id) == plan.past[id]
  {
    assert PlanOk(plan);
    var j :| 0 <= j < |book| && book[j] == plan;
    FindsIt(book, j);
  }

  lemma BeforeOk(ws: seq<World>, ops: seq<Op>, i: nat)
    requires Run(ws, ops) && i < |ops|
    ensures BookOk(Before(ws[i], ops[i])) && BookOk(ws[i + 1].book)
  {
    RunKeeps(ws, ops, i);
    RunKeeps(ws, ops, i + 1);
  }

  /** An operation does not make a plan again that it goes on from. */
  lemma NotMadeAgain(ws: seq<World>, ops: seq<Op>, i: nat, farmId: Id)
    requires Run(ws, ops) && i < |ops| && Stands(Before(ws[i], ops[i]), farmId)
    ensures !(ops[i].Create? && ops[i].id == farmId)
  {
    assert Next(ws[i], ops[i], ws[i + 1]);
    var book := Before(ws[i], ops[i]);
    assert book[Find(book, farmId)] in book;
  }

  /** Nothing that ended is ever forgotten by an operation: whatever it goes on from, the sessions a
      profile has had stay in order, and those that ended stay as they ended. */
  lemma NothingForgotten(ws: seq<World>, ops: seq<Op>, i: nat, plan: Plan, after: Plan, id: Id)
    requires Run(ws, ops) && i < |ops| && plan in Before(ws[i], ops[i]) && after in ws[i + 1].book
    requires plan.farm.id == after.farm.id && id in plan.farm.tracks
    ensures id in plan.past && id in after.farm.tracks && id in after.past
    ensures Stay(EverySession(plan.past[id], plan.farm.tracks[id].sessions),
                 EverySession(after.past[id], after.farm.tracks[id].sessions))
  {
    OnlyForward(ws, ops, i, plan, after);
    BeforeOk(ws, ops, i);
    StandsAt(Before(ws[i], ops[i]), plan, id);
    StandsAt(ws[i + 1].book, after, id);
    NotMadeAgain(ws, ops, i, plan.farm.id);
    RunFollows(ws, ops, i, plan.farm.id, id);
  }

  // ----- the log -----

  /** The sites of every session of this profile that ended Done in the first i operations. */
  function EverDone(ws: seq<World>, ops: seq<Op>, i: nat, farmId: Id, id: Id): nat
    requires i <= |ops| < |ws|
  {
    if i == 0 then 0
    else EverDone(ws, ops, i - 1, farmId, id) + Gained(ws[i - 1].book, ops[i - 1], farmId, id)
  }

  /** The last moment up to i at which the file held the list. */
  function Saved(ws: seq<World>, i: nat): (m: nat)
    requires i < |ws|
    ensures m <= i
    ensures forall k | m < k <= i :: ws[k].file != ws[k].book
    ensures m == 0 || ws[m].file == ws[m].book
  {
    if i == 0 || ws[i].file == ws[i].book then i else Saved(ws, i - 1)
  }

  /** Operation j ended a session Done with sites, and a restart among the first i operations read a
      file last written before it. */
  predicate LostAt(ws: seq<World>, ops: seq<Op>, i: nat, farmId: Id, id: Id, j: nat, l: nat)
    requires i <= |ops| < |ws|
  {
    j < l < i && Gained(ws[j].book, ops[j], farmId, id) > 0 && ops[l].Load? && Saved(ws, l) <= j
  }

  ghost predicate AnyLost(ws: seq<World>, ops: seq<Op>, i: nat, farmId: Id, id: Id)
    requires i <= |ops| < |ws|
  {
    exists j: nat, l: nat :: LostAt(ws, ops, i, farmId, id, j, l)
  }

  /** What the list counts: the log, but for what restarts forgot. */
  function Counted(ws: seq<World>, ops: seq<Op>, i: nat, farmId: Id, id: Id): nat
    requires i <= |ops| < |ws|
  {
    if i == 0 then 0
    else if ops[i - 1].Load? then Counted(ws, ops, Saved(ws, i - 1), farmId, id)
    else Counted(ws, ops, i - 1, farmId, id) + Gained(ws[i - 1].book, ops[i - 1], farmId, id)
  }

  /** No plan identifier is used twice. */
  ghost predicate NoIdTwice(ops: seq<Op>) {
    forall a, b | 0 <= a < b < |ops| :: ops[a].Create? && ops[b].Create? ==> ops[a].id != ops[b].id
  }

  ghost predicate Made(ops: seq<Op>, i: nat, farmId: Id)
    requires i <= |ops|
  {
    exists a | 0 <= a < i :: ops[a].Create? && ops[a].id == farmId
  }

  lemma {:induction false} FileIsSaved(ws: seq<World>, ops: seq<Op>, i: nat)
    requires Run(ws, ops) && i <= |ops|
    ensures ws[i].file == ws[Saved(ws, i)].book
  {
    if Saved(ws, i) != i {
      assert Next(ws[i - 1], ops[i - 1], ws[i]);
      FileIsSaved(ws, ops, i - 1);
    }
  }

  /** One operation's part in what the list counts. */
  lemma OpCounts(ws: seq<World>, ops: seq<Op>, i: nat, farmId: Id, id: Id)
    requires Run(ws, ops) && i < |ops| && Stands(ws[i + 1].book, farmId) && !(ops[i].Create? && ops[i].id == farmId)
    ensures Stands(Before(ws[i], ops[i]), farmId)
    ensures TrackIn(ws[i + 1].book, farmId, id).sites ==
              TrackIn(Before(ws[i], ops[i]), farmId, id).sites + Gained(ws[i].book, ops[i], farmId, id)
  {
    RunFollows(ws, ops, i, farmId, id);
  }

  /** A plan is in the list only once it is made. */
  lemma FreshPlan(ws: seq<World>, ops: seq<Op>, i: nat, farmId: Id, id: Id)
    requires Run(ws, ops) && i < |ops| && ops[i].Create? && ops[i].id == farmId
    ensures !Stands(ws[i].book, farmId) && TrackIn(ws[i + 1].book, farmId, id).sites == 0
  {
    assert Next(ws[i], ops[i], ws[i + 1]);
    var book, after := ws[i].book, ws[i + 1].book;
    assert forall p <- book :: p.farm.id != farmId;
    if Stands(after, farmId) {
      assert after[Find(after, farmId)] !in book;
    }
  }

  /** For as long as the plan is in the list, the list counts what `Counted` says. */
  ghost predicate Counts(ws: seq<World>, ops: seq<Op>, i: nat, farmId: Id, id: Id)
    requires i <= |ops| < |ws|
  {
    && (Stands(ws[i].book, farmId) ==> TrackIn(ws[i].book, farmId, id).sites == Counted(ws, ops, i, farmId, id))
    && (!Made(ops, i, farmId) ==> !Stands(ws[i].book, farmId) && Counted(ws, ops, i, farmId, id) == 0)
  }

  lemma CountsNext(ws: seq<World>, ops: seq<Op>, i: nat, farmId: Id, id: Id)
    requires Run(ws, ops) && i < |ops| && NoIdTwice(ops)
    requires Counts(ws, ops, i, farmId, id) && Counts(ws, ops, Saved(ws, i), farmId, id)
    ensures Counts(ws, ops, i + 1, farmId, id)
  {
    FileIsSaved(ws, ops, i);
    NothingGained(ws[i].book, ops[i], farmId, id);
    if ops[i].Create? && ops[i].id == farmId {
      FreshPlan(ws, ops, i, farmId, id);
      assert !Made(ops, i, farmId);
      assert Made(ops, i + 1, farmId);
    } else if Stands(ws[i + 1].book, farmId) {
      OpCounts(ws, ops, i, farmId, id);
    }
  }

  /** The moments that count right. */
  ghost function CountedRight(ws: seq<World>, ops: seq<Op>, farmId: Id, id: Id): iset<nat>
    requires |ops| < |ws|
  {
    iset i: nat | i <= |ops| && Counts(ws, ops, i, farmId, id)
  }

  lemma RightNext(ws: seq<World>, ops: seq<Op>, i: nat, farmId: Id, id: Id)
    requires Run(ws, ops) && i < |ops| && NoIdTwice(ops)
    requires i in CountedRight(ws, ops, farmId, id) && Saved(ws, i) in CountedRight(ws, ops, farmId, id)
    ensures i + 1 in CountedRight(ws, ops, farmId, id)
  {
    CountsNext(ws, ops, i, farmId, id);
  }

  lemma RightFirst(ws: seq<World>, ops: seq<Op>, farmId: Id, id: Id)
    requires Run(ws, ops)
    ensures 0 in CountedRight(ws, ops, farmId, id)
  {
    assert ws[0].book == [];
  }

  lemma {:induction false} ListCounts(ws: seq<World>, ops: seq<Op>, i: nat, farmId: Id, id: Id)
    requires Run(ws, ops) && i <= |ops| && NoIdTwice(ops)
    ensures i in CountedRight(ws, ops, farmId, id)
    decreases i
  {
    if i == 0 {
      RightFirst(ws, ops, farmId, id);
    } else {
      ListCounts(ws, ops, i - 1, farmId, id);
      ListCounts(ws, ops, Saved(ws, i - 1), farmId, id);
      RightNext(ws, ops, i - 1, farmId, id);
    }
  }

  lemma NothingGained(book: seq<Plan>, op: Op, farmId: Id, id: Id)
    ensures !Stands(book, farmId) ==> Gained(book, op, farmId, id) == 0
  {
  }

  lemma {:induction false} LogGrows(ws: seq<World>, ops: seq<Op>, m: nat, i: nat, farmId: Id, id: Id)
    requires m <= i <= |ops| < |ws|
    ensures EverDone(ws, ops, m, farmId, id) <= EverDone(ws, ops, i, farmId, id)
    ensures EverDone(ws, ops, m, farmId, id) == EverDone(ws, ops, i, farmId, id) <==>
              forall j | m <= j < i :: Gained(ws[j].book, ops[j], farmId, id) == 0
  {
    if m < i {
      LogGrows(ws, ops, m, i - 1, farmId, id);
    }
  }

  lemma LostStays(ws: seq<World>, ops: seq<Op>, m: nat, i: nat, farmId: Id, id: Id)
    requires m <= i <= |ops| < |ws|
    ensures AnyLost(ws, ops, m, farmId, id) ==> AnyLost(ws, ops, i, farmId, id)
  {
    if AnyLost(ws, ops, m, farmId, id) {
      var j: nat, l: nat :| LostAt(ws, ops, m, farmId, id, j, l);
      assert LostAt(ws, ops, i, farmId, id, j, l);
    }
  }

  /** An operation that is no restart loses nothing. */
  lemma NoNewLoss(ws: seq<World>, ops: seq<Op>, i: nat, farmId: Id, id: Id)
    requires i < |ops| < |ws| && !ops[i].Load?
    ensures AnyLost(ws, ops, i + 1, farmId, id) <==> AnyLost(ws, ops, i, farmId, id)
  {
    LostStays(ws, ops, i, i + 1, farmId, id);
    if AnyLost(ws, ops, i + 1, farmId, id) {
      var j: nat, l: nat :| LostAt(ws, ops, i + 1, farmId, id, j, l);
      assert LostAt(ws, ops, i, farmId, id, j, l);
    }
  }

  /** A restart loses what was gained since the file was last written. */
  lemma RestartLoses(ws: seq<World>, ops: seq<Op>, i: nat, farmId: Id, id: Id)
    requires i < |ops| < |ws| && ops[i].Load?
    ensures AnyLost(ws, ops, i + 1, farmId, id) <==>
              AnyLost(ws, ops, Saved(ws, i), farmId, id)
              || EverDone(ws, ops, Saved(ws, i), farmId, id) != EverDone(ws, ops, i, farmId, id)
  {
    var m := Saved(ws, i);
    LogGrows(ws, ops, m, i, farmId, id);
    LostStays(ws, ops, m, i + 1, farmId, id);
    if j: nat :| m <= j < i && Gained(ws[j].book, ops[j], farmId, id) > 0 {
      assert LostAt(ws, ops, i + 1, farmId, id, j, i);
    } else if AnyLost(ws, ops, i + 1, farmId, id) {
      var j: nat, l: nat :| LostAt(ws, ops, i + 1, farmId, id, j, l);
      SavedBetween(ws, l, i);
      assert l < m;
      assert LostAt(ws, ops, m, farmId, id, j, l);
    }
  }

  lemma {:induction false} SavedBetween(ws: seq<World>, l: nat, i: nat)
    requires l <= i < |ws|
    ensures Saved(ws, i) <= l ==> Saved(ws, l) == Saved(ws, i)
  {
    if l < i && Saved(ws, i) <= l {
      SavedBetween(ws, l, i - 1);
    }
  }

  lemma CountedNext(ws: seq<World>, ops: seq<Op>, i: nat, farmId: Id, id: Id)
    requires i < |ops| < |ws|
    ensures !ops[i].Load? ==>
              && Counted(ws, ops, i + 1, farmId, id)
                  == Counted(ws, ops, i, farmId, id) + Gained(ws[i].book, ops[i], farmId, id)
              && EverDone(ws, ops, i + 1, farmId, id)
                  == EverDone(ws, ops, i, farmId, id) + Gained(ws[i].book, ops[i], farmId, id)
    ensures ops[i].Load? ==>
              && Counted(ws, ops, i + 1, farmId, id) == Counted(ws, ops, Saved(ws, i), farmId, id)
              && EverDone(ws, ops, i + 1, farmId, id) == EverDone(ws, ops, i, farmId, id)
  {
  }

  /** The list counts the whole log, or something was lost and it counts less. */
  ghost predicate CountsAll(counted: nat, log: nat, lost: bool) {
    counted <= log && (counted == log) == !lost
  }

  /** The moments at which that is so. */
  ghost function CountedAll(ws: seq<World>, ops: seq<Op>, farmId: Id, id: Id): iset<nat>
    requires |ops| < |ws|
  {
    iset i: nat |
      i <= |ops|
      && CountsAll(Counted(ws, ops, i, farmId, id), EverDone(ws, ops, i, farmId, id), AnyLost(ws, ops, i, farmId, id))
  }

  lemma CountedAllNext(ws: seq<World>, ops: seq<Op>, i: nat, farmId: Id, id: Id)
    requires i < |ops| < |ws|
    requires i in CountedAll(ws, ops, farmId, id) && Saved(ws, i) in CountedAll(ws, ops, farmId, id)
    ensures i + 1 in CountedAll(ws, ops, farmId, id)
  {
    CountedNext(ws, ops, i, farmId, id);
    if ops[i].Load? {
      LogGrows(ws, ops, Saved(ws, i), i, farmId, id);
      RestartLoses(ws, ops, i, farmId, id);
    } else {
      NoNewLoss(ws, ops, i, farmId, id);
    }
  }

  lemma {:induction false} CountedMeans(ws: seq<World>, ops: seq<Op>, i: nat, farmId: Id, id: Id)
    requires i <= |ops| < |ws|
    ensures i in CountedAll(ws, ops, farmId, id)
    decreases i
  {
    if i == 0 {
      assert !AnyLost(ws, ops, 0, farmId, id);
    } else {
      CountedMeans(ws, ops, i - 1, farmId, id);
      CountedMeans(ws, ops, Saved(ws, i - 1), farmId, id);
      CountedAllNext(ws, ops, i - 1, farmId, id);
    }
  }

  // ----- what holds of every run -----

  /** The sites a plan counts for a profile are never more than those of every session that ever
      ended Done, and are all of them exactly when no restart came between such an end and the next
      write of the plan file that worked. */
  lemma SitesAreLogged(ws: seq<World>, ops: seq<Op>, i: nat, plan: Plan, id: Id)
    requires Run(ws, ops) && NoIdTwice(ops)
    requires i < |ws| && plan in ws[i].book && id in plan.farm.tracks
    ensures plan.farm.tracks[id].sites <= EverDone(ws, ops, i, plan.farm.id, id)
    ensures plan.farm.tracks[id].sites == EverDone(ws, ops, i, plan.farm.id, id) <==>
              !AnyLost(ws, ops, i, plan.farm.id, id)
  {
    ListCounts(ws, ops, i, plan.farm.id, id);
    CountedMeans(ws, ops, i, plan.farm.id, id);
    RunKeeps(ws, ops, i);
    StandsAt(ws[i].book, plan, id);
  }

  /** With every restart reading the list as it was, nothing is lost. */
  lemma RestartsThatFindTheList(ws: seq<World>, ops: seq<Op>, i: nat, plan: Plan, id: Id)
    requires Run(ws, ops) && NoIdTwice(ops)
    requires i < |ws| && plan in ws[i].book && id in plan.farm.tracks
    requires forall l | 0 <= l < i :: ops[l].Load? ==> ws[l].file == ws[l].book
    ensures plan.farm.tracks[id].sites == EverDone(ws, ops, i, plan.farm.id, id)
  {
    SitesAreLogged(ws, ops, i, plan, id);
  }
}
