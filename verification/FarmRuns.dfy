/** Every run of the scheduler: any order of operations, any clock, any draws, any failed write
    of the plan file, any restart. */
module FarmRuns {
  import opened Wrappers
  import opened FarmTypes
  import opened FarmDay
  import opened FarmBook
  import opened FarmInvariants

  // ----- the list of plans -----

  ghost predicate SharesUnfinished(a: Farm, b: Farm, id: Id) {
    a.Has(id) && b.Has(id) && !a.Finished() && !b.Finished()
  }

  /** Two plans that may stand in one list. */
  ghost predicate Apart(a: Plan, b: Plan) {
    a.farm.id != b.farm.id && forall id: Id :: !SharesUnfinished(a.farm, b.farm, id)
  }

  /** What holds of the list between any two operations. */
  ghost predicate BookOk(book: seq<Plan>) {
    && (forall p <- book :: PlanOk(p))
    && (forall i, j | 0 <= i < j < |book| :: Apart(book[i], book[j]))
  }

  lemma PlanAt(book: seq<Plan>, i: nat)
    requires BookOk(book) && i < |book|
    ensures PlanOk(book[i])
  {
    assert book[i] in book;
  }

  /** The same plan later: what it was asked is unchanged, no profile has lost a day, and no day
      behind it has changed. */
  ghost predicate Later(a: Plan, b: Plan) {
    && b.farm.id == a.farm.id && b.farm.spec == a.farm.spec && b.farm.targets == a.farm.targets
    && (forall id <- a.farm.tracks :: id in b.farm.tracks && a.farm.tracks[id].daysDone <= b.farm.tracks[id].daysDone)
    && (forall id <- a.past :: id in b.past && a.past[id] <= b.past[id])
  }

  lemma FinishedStays(a: Plan, b: Plan)
    requires Later(a, b) && a.farm.Finished()
    ensures b.farm.Finished()
  {
  }

  lemma LaterApart(a: Plan, b: Plan, a': Plan, b': Plan)
    requires Apart(a, b) && Later(a, a') && Later(b, b')
    ensures Apart(a', b')
  {
    if a.farm.Finished() { FinishedStays(a, a'); }
    if b.farm.Finished() { FinishedStays(b, b'); }
    forall id: Id ensures !SharesUnfinished(a'.farm, b'.farm, id) {
      assert !SharesUnfinished(a.farm, b.farm, id);
    }
  }

  lemma LaterKeepsBook(book: seq<Plan>, after: seq<Plan>)
    requires BookOk(book) && |after| == |book|
    requires forall i | 0 <= i < |book| :: Later(book[i], after[i]) && PlanOk(after[i])
    ensures BookOk(after)
  {
    forall i, j | 0 <= i < j < |after| ensures Apart(after[i], after[j]) {
      LaterApart(book[i], book[j], after[i], after[j]);
    }
  }

  // ----- operations on one track -----

  /** What an operation on one track must do to be safe: keep the books, the clock, the days,
      and start at most one session, only when the plan has room. */
  ghost predicate SafeOn(plan: Plan, id: Id, after: Track)
    requires id in plan.farm.tracks && id in plan.past
  {
    var tr := plan.farm.tracks[id];
    && Balanced(plan.farm.spec, after, plan.past[id])
    && (forall zone: Zone :: OnClock(plan.farm.spec, zone, tr) ==> OnClock(plan.farm.spec, zone, after))
    && tr.daysDone <= after.daysDone
    && InFlight(plan.farm.tracks) + Flights(after.sessions) <= plan.farm.spec.atOnce + Flights(tr.sessions)
  }

  lemma ChangeOnClock(farm: Farm, id: Id, after: Track, other: Id)
    requires id in farm.tracks
    requires other == id || other in farm.tracks
    requires OnSomeClock(farm, other, farm.tracks[other])
    requires forall zone: Zone :: OnClock(farm.spec, zone, farm.tracks[id]) ==> OnClock(farm.spec, zone, after)
    ensures OnSomeClock(farm, other, farm.tracks[id := after][other])
  {
    var t :| t in farm.targets && t.id == other && OnClock(farm.spec, t.zone, farm.tracks[other]);
    assert OnClock(farm.spec, t.zone, farm.tracks[id := after][other]);
  }

  /** The plan with one track changed. */
  function WithOne(plan: Plan, id: Id, after: Track): Plan {
    plan.(farm := plan.farm.(tracks := plan.farm.tracks[id := after]))
  }

  lemma TrackChangeOk(plan: Plan, id: Id, after: Track)
    requires PlanOk(plan) && id in plan.farm.tracks && SafeOn(plan, id, after)
    ensures PlanOk(WithOne(plan, id, after))
  {
    InFlightUpdate(plan.farm.tracks, id, after);
    var plan' := WithOne(plan, id, after);
    forall other | other in plan.farm.tracks
      ensures OnSomeClock(plan'.farm, other, plan'.farm.tracks[other])
    {
      ChangeOnClock(plan.farm, id, after, other);
      assert OnSomeClock(plan.farm, other, plan'.farm.tracks[other]);
    }
  }

  lemma TrackChangeLater(plan: Plan, id: Id, after: Track)
    requires PlanOk(plan) && id in plan.farm.tracks && plan.farm.tracks[id].daysDone <= after.daysDone
    ensures Later(plan, WithOne(plan, id, after))
  {
  }

  lemma WithTrackKeeps(book: seq<Plan>, farmId: Id, id: Id, f: Track -> Track)
    requires BookOk(book)
    requires forall p <- book ::
               p.farm.id == farmId && id in p.farm.tracks && id in p.past ==> SafeOn(p, id, f(p.farm.tracks[id]))
    ensures BookOk(WithTrack(book, farmId, id, f))
    ensures |WithTrack(book, farmId, id, f)| == |book|
    ensures forall j | 0 <= j < |book| :: Later(book[j], WithTrack(book, farmId, id, f)[j])
  {
    var after := WithTrack(book, farmId, id, f);
    forall j | 0 <= j < |book| ensures Later(book[j], after[j]) && PlanOk(after[j]) {
      PlanAt(book, j);
      if after[j] != book[j] {
        var tr := f(book[j].farm.tracks[id]);
        assert SafeOn(book[j], id, tr);
        TrackChangeOk(book[j], id, tr);
        TrackChangeLater(book[j], id, tr);
      }
    }
    LaterKeepsBook(book, after);
  }

  // ----- starting a team session -----

  lemma {:induction false} EligibleDuesAre(farm: Farm, targets: seq<Target>, now: int, open: set<Id>, d: Due)
    ensures d in EligibleDues(farm, targets, now, open) <==>
              exists t <- targets :: Eligible(farm, t, now, open) && d == DueOf(farm, t)
  {
    if targets != [] {
      var n := |targets| - 1;
      EligibleDuesAre(farm, targets[..n], now, open, d);
      assert targets == targets[..n] + [targets[n]];
    }
  }

  /** A due session is an eligible one of a plan that has room; where there is room for all of
      them, every eligible one is due. */
  lemma DueMeans(farm: Farm, now: int, open: set<Id>, d: Due)
    ensures d in DueInFarm(farm, now, open) ==>
              !farm.paused && InFlight(farm.tracks) < farm.spec.atOnce
              && exists t <- farm.targets :: Eligible(farm, t, now, open) && d == DueOf(farm, t)
    ensures !farm.paused
            && |EligibleDues(farm, farm.targets, now, open)| + InFlight(farm.tracks) <= farm.spec.atOnce ==>
              forall t <- farm.targets :: Eligible(farm, t, now, open) ==> DueOf(farm, t) in DueInFarm(farm, now, open)
  {
    EligibleDuesAre(farm, farm.targets, now, open, d);
    forall t | t in farm.targets && Eligible(farm, t, now, open)
      ensures DueOf(farm, t) in EligibleDues(farm, farm.targets, now, open)
    {
      EligibleDuesAre(farm, farm.targets, now, open, DueOf(farm, t));
    }
  }

  lemma {:induction false} DueInBookIs(book: seq<Plan>, now: int, open: set<Id>, d: Due)
    ensures d in DueInBook(book, now, open) <==> exists p <- book :: d in DueInFarm(p.farm, now, open)
  {
    if book != [] {
      DueInBookIs(book[..|book| - 1], now, open, d);
      assert book == book[..|book| - 1] + [book[|book| - 1]];
    }
  }

  /** What a session that may be claimed is. */
  lemma ClaimableMeans(book: seq<Plan>, farmId: Id, id: Id, now: int, open: set<Id>)
    requires BookOk(book) && Claimable(book, farmId, id, now, open)
    ensures var i := Find(book, farmId);
            && i < |book| && !book[i].farm.paused && InFlight(book[i].farm.tracks) < book[i].farm.spec.atOnce
            && id !in open && id in book[i].farm.tracks
            && var sessions := book[i].farm.tracks[id].sessions;
               && FirstWaiting(sessions) < |sessions| && sessions[FirstWaiting(sessions)].atMs <= Ms(now)
               && forall s <- sessions :: !s.InFlight()
  {
    var d :| d in DueInBook(book, now, open) && d.farmId == farmId && d.profileId == id;
    DueInBookIs(book, now, open, d);
    var p :| p in book && d in DueInFarm(p.farm, now, open);
    DueMeans(p.farm, now, open, d);
    var i := Find(book, farmId);
    var j :| 0 <= j < |book| && book[j] == p;
    assert j == i;
  }

  /** A session that is claimed starts inside the hours of its day, on its profile's clock, exactly
      when the window is not over: nothing but that is looked at. */
  lemma ClaimInHours(book: seq<Plan>, farmId: Id, id: Id, now: int, open: set<Id>, farm: Farm, tr: Track)
    requires BookOk(book) && Claimable(book, farmId, id, now, open) && 0 <= now
    requires Find(book, farmId) < |book| && farm == book[Find(book, farmId)].farm && id in farm.tracks
            && tr == farm.tracks[id]
    ensures tr.day.Some?
    ensures exists t <- farm.targets ::
              && t.id == id
              && (t.zone.At(tr.day.value, farm.spec.hours.0) <= now < End(farm.spec, t.zone, tr.day.value) <==>
                  now < tr.windowEndMs)
  {
    ClaimableMeans(book, farmId, id, now, open);
    var plan := book[Find(book, farmId)];
    PlanAt(book, Find(book, farmId));
    DueOnClock(plan, id, now);
  }

  /** A session that is due belongs to a day, and its time has come on some clock of its profile. */
  lemma DueOnClock(plan: Plan, id: Id, now: int)
    requires PlanOk(plan) && id in plan.farm.tracks && 0 <= now
    requires var sessions := plan.farm.tracks[id].sessions;
             FirstWaiting(sessions) < |sessions| && sessions[FirstWaiting(sessions)].atMs <= Ms(now)
    ensures var farm, tr := plan.farm, plan.farm.tracks[id];
            && tr.day.Some?
            && exists t <- farm.targets ::
                 && t.id == id
                 && (t.zone.At(tr.day.value, farm.spec.hours.0) <= now < End(farm.spec, t.zone, tr.day.value)
                     <==> now < tr.windowEndMs)
  {
    var farm, tr := plan.farm, plan.farm.tracks[id];
    assert Balanced(farm.spec, tr, plan.past[id]) && OnSomeClock(farm, id, tr);
    var s := tr.sessions[FirstWaiting(tr.sessions)];
    assert s in tr.sessions && s.Waiting();
    var t :| t in farm.targets && t.id == id && OnClock(farm.spec, t.zone, tr);
    assert t.zone.At(tr.day.value, farm.spec.hours.0) <= now;
  }

  lemma StartSafe(plan: Plan, id: Id, now: int)
    requires PlanOk(plan) && id in plan.farm.tracks && InFlight(plan.farm.tracks) < plan.farm.spec.atOnce
    requires var sessions := plan.farm.tracks[id].sessions;
             FirstWaiting(sessions) < |sessions| && forall s <- sessions :: !s.InFlight()
    ensures SafeOn(plan, id, StartTrack(now, plan.farm.tracks[id]))
  {
    StartBalanced(plan.farm.spec, plan.farm.tracks[id], plan.past[id], now);
  }

  lemma ReportSafe(plan: Plan, id: Id, last: Progress)
    requires PlanOk(plan) && id in plan.farm.tracks
    ensures SafeOn(plan, id, ReportTrack(last, plan.farm.tracks[id]))
  {
    ReportBalanced(plan.farm.spec, plan.farm.tracks[id], plan.past[id], last);
  }

  lemma FailSafe(plan: Plan, id: Id, error: string)
    requires PlanOk(plan) && id in plan.farm.tracks
    ensures SafeOn(plan, id, FailTrack(error, plan.farm.tracks[id]))
  {
    FailBalanced(plan.farm.spec, plan.farm.tracks[id], plan.past[id], error);
  }

  lemma StageSafe(plan: Plan, id: Id)
    requires PlanOk(plan) && id in plan.farm.tracks
    ensures SafeOn(plan, id, StageTrack(plan.farm.tracks[id]))
  {
  }

  ghost predicate AllLater(book: seq<Plan>, after: seq<Plan>) {
    |after| == |book| && forall j | 0 <= j < |book| :: Later(book[j], after[j])
  }

  lemma ClaimKeeps(book: seq<Plan>, farmId: Id, id: Id, now: int, open: set<Id>)
    requires BookOk(book)
    ensures BookOk(ClaimBook(book, farmId, id, now, open))
    ensures AllLater(book, ClaimBook(book, farmId, id, now, open))
  {
    if Claimable(book, farmId, id, now, open) {
      ClaimableMeans(book, farmId, id, now, open);
      forall p | p in book && p.farm.id == farmId && id in p.farm.tracks && id in p.past
        ensures SafeOn(p, id, StartTrack(now, p.farm.tracks[id]))
      {
        var k :| 0 <= k < |book| && book[k] == p;
        assert k == Find(book, farmId);
        StartSafe(p, id, now);
      }
      WithTrackKeeps(book, farmId, id, tr => StartTrack(now, tr));
    }
  }

  lemma ReportKeeps(book: seq<Plan>, farmId: Id, id: Id, last: Progress)
    requires BookOk(book)
    ensures BookOk(WithTrack(book, farmId, id, tr => ReportTrack(last, tr)))
    ensures AllLater(book, WithTrack(book, farmId, id, tr => ReportTrack(last, tr)))
  {
    forall p | p in book && id in p.farm.tracks && id in p.past
      ensures SafeOn(p, id, ReportTrack(last, p.farm.tracks[id]))
    {
      ReportSafe(p, id, last);
    }
    WithTrackKeeps(book, farmId, id, tr => ReportTrack(last, tr));
  }

  lemma FailKeeps(book: seq<Plan>, farmId: Id, id: Id, error: string)
    requires BookOk(book)
    ensures BookOk(WithTrack(book, farmId, id, tr => FailTrack(error, tr)))
    ensures AllLater(book, WithTrack(book, farmId, id, tr => FailTrack(error, tr)))
  {
    forall p | p in book && id in p.farm.tracks && id in p.past
      ensures SafeOn(p, id, FailTrack(error, p.farm.tracks[id]))
    {
      FailSafe(p, id, error);
    }
    WithTrackKeeps(book, farmId, id, tr => FailTrack(error, tr));
  }

  lemma StageKeeps(book: seq<Plan>, farmId: Id, id: Id)
    requires BookOk(book)
    ensures BookOk(WithTrack(book, farmId, id, StageTrack))
    ensures AllLater(book, WithTrack(book, farmId, id, StageTrack))
  {
    forall p | p in book && id in p.farm.tracks && id in p.past
      ensures SafeOn(p, id, StageTrack(p.farm.tracks[id]))
    {
      StageSafe(p, id);
    }
    WithTrackKeeps(book, farmId, id, StageTrack);
  }

  // ----- pausing, deleting, creating, loading -----

  lemma PauseKeeps(book: seq<Plan>, id: Id, paused: bool)
    requires BookOk(book)
    ensures var after := PauseBook(book, id, paused);
            BookOk(after) && |after| == |book| && forall j | 0 <= j < |book| :: Later(book[j], after[j])
  {
    var i := Find(book, id);
    var after := PauseBook(book, id, paused);
    if i < |book| {
      PlanAt(book, i);
      forall other | other in after[i].farm.tracks
        ensures OnSomeClock(after[i].farm, other, after[i].farm.tracks[other])
      {
        assert OnSomeClock(book[i].farm, other, book[i].farm.tracks[other]);
      }
    }
    forall j | 0 <= j < |book| ensures Later(book[j], after[j]) && PlanOk(after[j]) {
      PlanAt(book, j);
    }
    LaterKeepsBook(book, after);
  }

  /** Deleting keeps exactly the other plans, untouched. */
  lemma {:induction false} WithoutIs(book: seq<Plan>, id: Id)
    ensures forall p :: p in Without(book, id) <==> p in book && p.farm.id != id
  {
    if book != [] {
      WithoutIs(book[1..], id);
    }
  }

  lemma {:induction false} WithoutKeeps(book: seq<Plan>, id: Id)
    requires BookOk(book)
    ensures BookOk(Without(book, id))
  {
    if book != [] {
      assert BookOk(book[1..]);
      WithoutKeeps(book[1..], id);
      WithoutIs(book[1..], id);
      var rest := Without(book[1..], id);
      forall j | 0 <= j < |rest| ensures Apart(book[0], rest[j]) {
        assert rest[j] in book[1..];
        var k :| 0 <= k < |book| - 1 && book[k + 1] == rest[j];
      }
    }
  }

  lemma {:induction false} TrimTrimmed(s: string)
    requires IsTrimmed(s)
    ensures Trim(s) == s
  {
  }

  lemma SomethingKept(urls: seq<string>)
    requires exists u <- urls :: Trim(u) != ""
    ensures exists u <- CleanUrls(urls) :: Trim(u) != ""
  {
    CleanUrlsKeepsWhatCounts(urls);
    var clean := CleanUrls(urls);
    assert clean[0] in clean;
    TrimTrimmed(clean[0]);
  }

  /** The list a plan keeps still passes the check its request passed. */
  lemma CleanSpecPasses(spec: Spec)
    requires spec.Check().None?
    ensures spec.(urls := CleanUrls(spec.urls)).Check().None?
  {
    SomethingKept(spec.urls);
  }

  lemma CreateKeeps(book: seq<Plan>, id: Id, nowMs: nat, spec: Spec, targets: seq<Target>)
    requires BookOk(book) && forall p <- book :: p.farm.id != id
    ensures BookOk(CreateBook(book, id, nowMs, spec, targets))
  {
    if CreateCheck(book, spec, targets).None? {
      CleanSpecPasses(spec);
      var made := Plan(NewFarm(id, nowMs, spec, targets), map[]);
      var after := book + [made];
      assert PlanOk(made);
      assert FirstTaken(book, targets) == |targets|;
      forall i | 0 <= i < |book| ensures Apart(book[i], made) {
        assert book[i] in book;
        forall who: Id ensures !SharesUnfinished(book[i].farm, made.farm, who) {
          if made.farm.Has(who) {
            var k :| 0 <= k < |targets| && targets[k].id == who;
            assert !Taken(book, targets[k].id);
          }
        }
      }
    }
  }

  lemma LoadTrackKeeps(plan: Plan, id: Id)
    requires PlanOk(plan) && id in plan.farm.tracks
    ensures var after := LoadTrack(plan.farm.tracks[id]);
            && Balanced(plan.farm.spec, after, plan.past[id]) && Flights(after.sessions) == 0
            && OnSomeClock(LoadFarm(plan.farm), id, after)
  {
    LoadBalanced(plan.farm.spec, plan.farm.tracks[id], plan.past[id]);
    var t :| t in plan.farm.targets && t.id == id && OnClock(plan.farm.spec, t.zone, plan.farm.tracks[id]);
    LoadOnClock(plan.farm.spec, t.zone, plan.farm.tracks[id]);
  }

  lemma LoadFarmKeeps(plan: Plan)
    requires PlanOk(plan)
    ensures var after := plan.(farm := LoadFarm(plan.farm));
            PlanOk(after) && Later(plan, after) && InFlight(after.farm.tracks) == 0
  {
    LoadFarmLater(plan);
    LoadFarmOk(plan, plan.(farm := LoadFarm(plan.farm)));
  }

  lemma LoadFarmLater(plan: Plan)
    requires PlanOk(plan)
    ensures Later(plan, plan.(farm := LoadFarm(plan.farm)))
  {
  }

  lemma LoadFarmOk(plan: Plan, after: Plan)
    requires PlanOk(plan) && after == plan.(farm := LoadFarm(plan.farm))
    ensures PlanOk(after) && InFlight(after.farm.tracks) == 0
  {
    forall id | id in plan.farm.tracks
      ensures Balanced(plan.farm.spec, after.farm.tracks[id], plan.past[id])
      ensures OnSomeClock(after.farm, id, after.farm.tracks[id])
      ensures Flights(after.farm.tracks[id].sessions) == 0
    {
      LoadTrackKeeps(plan, id);
    }
    InFlightNone(after.farm.tracks);
  }

  lemma LoadOnClock(spec: Spec, zone: Zone, tr: Track)
    requires OnClock(spec, zone, tr)
    ensures OnClock(spec, zone, LoadTrack(tr))
  {
    forall s | s in LoadTrack(tr).sessions ensures exists u <- tr.sessions :: u.atMs == s.atMs {
      var i :| 0 <= i < |tr.sessions| && LoadTrack(tr).sessions[i] == s;
      assert tr.sessions[i] in tr.sessions;
    }
  }

  /** A restart leaves nothing in flight, and the rest of the list as the file had it. */
  lemma LoadKeeps(book: seq<Plan>)
    requires BookOk(book)
    ensures BookOk(LoadBook(book)) && |LoadBook(book)| == |book|
    ensures forall j | 0 <= j < |book| ::
              Later(book[j], LoadBook(book)[j]) && InFlight(LoadBook(book)[j].farm.tracks) == 0
  {
    forall i | 0 <= i < |book|
      ensures Later(book[i], LoadBook(book)[i]) && PlanOk(LoadBook(book)[i])
              && InFlight(LoadBook(book)[i].farm.tracks) == 0
    {
      PlanAt(book, i);
      LoadFarmKeeps(book[i]);
    }
    LaterKeepsBook(book, LoadBook(book));
  }

  // ----- stepping -----

  /** A visit never forgets: days done and days behind only grow. */
  lemma VisitNextGrows(farm: Farm, t: Target, now: int, open: set<Id>, c: Chance, p: Pass)
    requires PassOk(farm, p, now, open)
    requires Drawable(farm, t, now, TrackOf(p.tracks, t.id), c)
    ensures Grows(p.tracks, p.past, VisitNext(farm, t, now, open, c, p))
  {
    var tr, past := TrackOf(p.tracks, t.id), PastOf(p.past, t.id);
    NewTrackBalanced(farm.spec);
    assert Balanced(farm.spec, tr, past);
    VisitKeeps(farm, t, now, open, c, tr, past, p.room);
    var v := VisitTrack(farm, t, now, open, c, tr, p.room);
    OneGrows(p.tracks, p.past, t.id, v, VisitNext(farm, t, now, open, c, p));
  }

  lemma OneGrows(tracks: map<Id, Track>, past: History, id: Id, v: Visit, p: Pass)
    requires TrackOf(tracks, id).daysDone <= v.track.daysDone
    requires p.tracks == tracks[id := v.track] && p.past == past[id := PastOf(past, id) + v.behind]
    ensures Grows(tracks, past, p)
  {
  }

  /** Every profile that was there still is, with no fewer days done and its past extended. */
  ghost predicate Grows(tracks: map<Id, Track>, past: History, p: Pass) {
    forall id <- tracks ::
      && id in p.tracks && tracks[id].daysDone <= p.tracks[id].daysDone
      && (id in past ==> id in p.past && past[id] <= p.past[id])
  }

  lemma {:induction false} StepPassGrows(plan: Plan, now: int, open: set<Id>, chances: seq<Chance>)
    requires PlanOk(plan)
    requires |chances| <= |plan.farm.targets|
    requires AllDrawable(plan, StepRoom(plan), now, open, chances)
    ensures Grows(plan.farm.tracks, plan.past, StepPass(plan, StepRoom(plan), now, open, chances))
  {
    if chances != [] {
      var n := |chances| - 1;
      StepPassGrows(plan, now, open, chances[..n]);
      StepPassKeeps(plan, now, open, chances[..n]);
      VisitNextGrows(plan.farm, plan.farm.targets[n], now, open, chances[n],
                     StepPass(plan, StepRoom(plan), now, open, chances[..n]));
    }
  }

  lemma StepPlanKeeps(plan: Plan, now: int, open: set<Id>, chances: seq<Chance>)
    requires PlanOk(plan) && StepDrawable(plan, now, open, chances)
    ensures PlanOk(StepPlan(plan, now, open, chances))
    ensures Later(plan, StepPlan(plan, now, open, chances))
    ensures forall st <- StepStarts(plan, now, open, chances) ::
              GoodStart(plan.farm, StepPlan(plan, now, open, chances).farm.tracks, st, now, open)
  {
    if !plan.farm.paused {
      StepPassKeeps(plan, now, open, chances);
      StepPassGrows(plan, now, open, chances);
      var after := StepPlan(plan, now, open, chances);
      forall id | id in after.farm.tracks ensures OnSomeClock(after.farm, id, after.farm.tracks[id]) {
        assert OnSomeClock(plan.farm, id, after.farm.tracks[id]);
      }
    }
  }

  ghost predicate StepChances(book: seq<Plan>, now: int, open: set<Id>, chances: seq<seq<Chance>>) {
    |chances| == |book| && forall i | 0 <= i < |book| :: StepDrawable(book[i], now, open, chances[i])
  }

  lemma StepKeeps(book: seq<Plan>, now: int, open: set<Id>, chances: seq<seq<Chance>>)
    requires BookOk(book) && StepChances(book, now, open, chances)
    ensures var after := StepBook(book, now, open, chances);
            BookOk(after) && |after| == |book| && forall j | 0 <= j < |book| :: Later(book[j], after[j])
  {
    var after := StepBook(book, now, open, chances);
    forall i | 0 <= i < |book| ensures PlanOk(after[i]) && Later(book[i], after[i]) {
      PlanAt(book, i);
      StepPlanKeeps(book[i], now, open, chances[i]);
    }
    LaterKeepsBook(book, after);
  }

  // ----- runs -----

  datatype Op =
    | Create(id: Id, nowMs: nat, spec: Spec, targets: seq<Target>)
    | Delete(id: Id)
    | Pause(id: Id, paused: bool)
    | Report(farmId: Id, profileId: Id, last: Progress)
    | Fail(farmId: Id, profileId: Id, error: string)
    | StageApplied(farmId: Id, profileId: Id)
    | Claim(farmId: Id, profileId: Id, now: int, open: set<Id>)
    | Step(now: int, open: set<Id>, chances: seq<seq<Chance>>)
    | Load

  /** The scheduler's list, and what the plan file holds. */
  datatype World = World(book: seq<Plan>, file: seq<Plan>)

  /** An identifier is new when a plan is made; draws are draws that can be made. */
  ghost predicate Possible(book: seq<Plan>, op: Op) {
    match op
    case Create(id, _, _, _) => forall p <- book :: p.farm.id != id
    case Step(now, open, chances) => StepChances(book, now, open, chances)
    case _ => true
  }

  ghost function After(w: World, op: Op): seq<Plan>
    requires Possible(w.book, op)
  {
    match op
    case Create(id, nowMs, spec, targets) => CreateBook(w.book, id, nowMs, spec, targets)
    case Delete(id) => Without(w.book, id)
    case Pause(id, paused) => PauseBook(w.book, id, paused)
    case Report(farmId, profileId, last) => WithTrack(w.book, farmId, profileId, tr => ReportTrack(last, tr))
    case Fail(farmId, profileId, error) => WithTrack(w.book, farmId, profileId, tr => FailTrack(error, tr))
    case StageApplied(farmId, profileId) => WithTrack(w.book, farmId, profileId, StageTrack)
    case Claim(farmId, profileId, now, open) => ClaimBook(w.book, farmId, profileId, now, open)
    case Step(now, open, chances) => StepBook(w.book, now, open, chances)
    case Load => LoadBook(w.file)
  }

  /** One operation; the file is rewritten after it, or the write fails and the file stays. */
  ghost predicate Next(w: World, op: Op, w': World) {
    && Possible(w.book, op)
    && w'.book == After(w, op)
    && (w'.file == w'.book || w'.file == w.file)
  }

  ghost predicate Run(ws: seq<World>, ops: seq<Op>) {
    && |ws| == |ops| + 1
    && ws[0] == World([], [])
    && forall i | 0 <= i < |ops| :: Next(ws[i], ops[i], ws[i + 1])
  }

  lemma NextKeeps(w: World, op: Op, w': World)
    requires BookOk(w.book) && BookOk(w.file) && Next(w, op, w')
    ensures BookOk(w'.book) && BookOk(w'.file)
  {
    match op
    case Create(id, nowMs, spec, targets) => CreateKeeps(w.book, id, nowMs, spec, targets);
    case Delete(id) => WithoutKeeps(w.book, id);
    case Pause(id, paused) => PauseKeeps(w.book, id, paused);
    case Report(farmId, profileId, last) => ReportKeeps(w.book, farmId, profileId, last);
    case Fail(farmId, profileId, error) => FailKeeps(w.book, farmId, profileId, error);
    case StageApplied(farmId, profileId) => StageKeeps(w.book, farmId, profileId);
    case Claim(farmId, profileId, now, open) => ClaimKeeps(w.book, farmId, profileId, now, open);
    case Step(now, open, chances) => StepKeeps(w.book, now, open, chances);
    case Load => LoadKeeps(w.file);
  }

  lemma {:induction false} RunKeeps(ws: seq<World>, ops: seq<Op>, i: nat)
    requires Run(ws, ops) && i < |ws|
    ensures BookOk(ws[i].book) && BookOk(ws[i].file)
  {
    if i > 0 {
      RunKeeps(ws, ops, i - 1);
      assert Next(ws[i - 1], ops[i - 1], ws[i]);
      NextKeeps(ws[i - 1], ops[i - 1], ws[i]);
    }
  }

  // ----- what holds of every run -----

  /** Capacity: whatever happens, no plan has more sessions in flight than it may, and no
      profile of it more than one. */
  lemma CapacityHolds(ws: seq<World>, ops: seq<Op>, i: nat, plan: Plan)
    requires Run(ws, ops) && i < |ws| && plan in ws[i].book
    ensures InFlight(plan.farm.tracks) <= plan.farm.spec.atOnce
    ensures forall id <- plan.farm.tracks :: Flights(plan.farm.tracks[id].sessions) <= 1
  {
    RunKeeps(ws, ops, i);
    assert PlanOk(plan);
  }

  /** Every session a profile has had in a plan: those of the days behind it, and the current ones. */
  function EverySession(past: seq<Day>, current: seq<Session>): seq<Session> {
    if past == [] then current
    else EverySession(past[..|past| - 1], past[|past| - 1].sessions) + current
  }

  lemma {:induction false} TotalAppend(a: seq<Session>, b: seq<Session>, w: Session -> nat)
    ensures Total(a + b, w) == Total(a, w) + Total(b, w)
  {
    if b == [] {
      assert a + b == a;
    } else {
      var n := |b| - 1;
      assert (a + b)[..|a| + n] == a + b[..n];
      TotalAppend(a, b[..n], w);
    }
  }

  lemma {:induction false} EverySessionTotals(past: seq<Day>, current: seq<Session>)
    ensures Total(EverySession(past, current), SitesDone) == SitesBehind(past) + Total(current, SitesDone)
  {
    if past != [] {
      var n := |past| - 1;
      EverySessionTotals(past[..n], past[n].sessions);
      TotalAppend(EverySession(past[..n], past[n].sessions), current, SitesDone);
    }
  }

  /** The days of a profile that are over: those behind it, and its last one once closed. */
  function ClosedDays(tr: Track, past: seq<Day>): seq<Day> {
    if tr.day.None? && tr.lastDay.Some? then past + [Day(tr.lastDay.value, tr.sessions)] else past
  }

  lemma SitesMean(spec: Spec, tr: Track, past: seq<Day>)
    requires Balanced(spec, tr, past)
    ensures tr.sites == Total(EverySession(past, tr.sessions), SitesDone)
  {
    EverySessionTotals(past, tr.sessions);
  }

  lemma DaysMean(spec: Spec, tr: Track, past: seq<Day>)
    requires Balanced(spec, tr, past)
    ensures tr.daysDone == DaysBehind(ClosedDays(tr, past))
  {
    if tr.lastDay.Some? {
      BehindAppend(past, Day(tr.lastDay.value, tr.sessions));
    }
  }

  lemma ClosedDaysMean(spec: Spec, tr: Track, past: seq<Day>)
    requires Balanced(spec, tr, past)
    ensures Rising(ClosedDays(tr, past))
    ensures forall d <- ClosedDays(tr, past) :: AllEnded(d.sessions)
  {
    if tr.day.None? && tr.lastDay.Some? {
      RisingAppend(past, Day(tr.lastDay.value, tr.sessions));
    }
  }

  lemma RisingAppend(past: seq<Day>, d: Day)
    requires Rising(past) && forall e <- past :: e.date < d.date
    ensures Rising(past + [d])
  {
    forall i, j | 0 <= i < j < |past + [d]| ensures (past + [d])[i].date < (past + [d])[j].date {
      assert past[i] in past;
    }
  }

  /** Conservation: the sites counted are exactly those of every session that ever ended Done; the
      days counted are the closed days with at least one such session, never more than asked for;
      and the dates strictly increase, whatever the clock did, so none is counted twice. */
  lemma BooksBalance(ws: seq<World>, ops: seq<Op>, i: nat, plan: Plan, id: Id)
    requires Run(ws, ops) && i < |ws| && plan in ws[i].book && id in plan.farm.tracks
    ensures id in plan.past
    ensures var tr, past := plan.farm.tracks[id], plan.past[id];
            && tr.sites == Total(EverySession(past, tr.sessions), SitesDone)
            && tr.daysDone == DaysBehind(ClosedDays(tr, past))
            && tr.daysDone <= plan.farm.spec.days
            && Rising(ClosedDays(tr, past))
            && (tr.day.Some? ==> forall d <- past :: d.date < tr.day.value)
            && (forall d <- ClosedDays(tr, past) :: AllEnded(d.sessions))
  {
    RunKeeps(ws, ops, i);
    assert PlanOk(plan);
    SitesMean(plan.farm.spec, plan.farm.tracks[id], plan.past[id]);
    DaysMean(plan.farm.spec, plan.farm.tracks[id], plan.past[id]);
    ClosedDaysMean(plan.farm.spec, plan.farm.tracks[id], plan.past[id]);
  }

  lemma FinishedIsIdle(plan: Plan, id: Id)
    requires PlanOk(plan) && plan.farm.Finished() && id in plan.farm.tracks
    ensures Flights(plan.farm.tracks[id].sessions) == 0
  {
    assert OnSomeClock(plan.farm, id, plan.farm.tracks[id]);
    NoFlights(plan.farm.tracks[id].sessions);
  }

  /** One profile, one plan: it is in at most one unfinished plan, a finished plan has nothing in
      flight, and so no profile has two sessions in flight, whichever plans they would be in. */
  lemma OneProfileOnePlan(ws: seq<World>, ops: seq<Op>, i: nat, j: nat, k: nat, id: Id)
    requires Run(ws, ops) && i < |ws| && j < k < |ws[i].book|
    ensures var a, b := ws[i].book[j].farm, ws[i].book[k].farm;
            && (a.Has(id) && b.Has(id) ==> a.Finished() || b.Finished())
            && (a.Finished() ==> InFlight(a.tracks) == 0)
            && !(id in a.tracks && id in b.tracks
                 && Flights(a.tracks[id].sessions) > 0 && Flights(b.tracks[id].sessions) > 0)
  {
    RunKeeps(ws, ops, i);
    var p, q := ws[i].book[j], ws[i].book[k];
    assert PlanOk(p) && PlanOk(q) && !SharesUnfinished(p.farm, q.farm, id);
    if p.farm.Finished() {
      forall who | who in p.farm.tracks ensures Flights(p.farm.tracks[who].sessions) == 0 { FinishedIsIdle(p, who); }
      InFlightNone(p.farm.tracks);
    }
    if id in p.farm.tracks && id in q.farm.tracks {
      assert OnSomeClock(p.farm, id, p.farm.tracks[id]) && OnSomeClock(q.farm, id, q.farm.tracks[id]);
      assert p.farm.Has(id) && q.farm.Has(id);
      if q.farm.Finished() { FinishedIsIdle(q, id); }
    }
  }

  /** What an operation goes on from: the list, and for a restart what the file holds. */
  function Before(w: World, op: Op): seq<Plan> {
    if op.Load? then w.file else w.book
  }

  /** Finished plans stay finished, through every operation: whatever a plan was in what the
      operation goes on from, afterwards it is later, or is gone. */
  lemma OnlyForward(ws: seq<World>, ops: seq<Op>, i: nat, plan: Plan, after: Plan)
    requires Run(ws, ops) && i < |ops| && plan in Before(ws[i], ops[i]) && after in ws[i + 1].book
    requires plan.farm.id == after.farm.id
    ensures Later(plan, after)
    ensures plan.farm.Finished() ==> after.farm.Finished()
  {
    RunKeeps(ws, ops, i);
    var w, op := ws[i], ops[i];
    assert Next(w, op, ws[i + 1]);
    var book := Before(w, op);
    match op {
      case Create(id, nowMs, spec, targets) =>
        assert after in book + [Plan(NewFarm(id, nowMs, spec, targets), map[])];
        assert after in book;
      case Delete(id) => WithoutIs(book, id);
      case Pause(id, paused) => PauseKeeps(book, id, paused);
      case Report(farmId, profileId, last) => ReportKeeps(book, farmId, profileId, last);
      case Fail(farmId, profileId, error) => FailKeeps(book, farmId, profileId, error);
      case StageApplied(farmId, profileId) => StageKeeps(book, farmId, profileId);
      case Claim(farmId, profileId, now, open) => ClaimKeeps(book, farmId, profileId, now, open);
      case Step(now, open, chances) => StepKeeps(book, now, open, chances);
      case Load => LoadKeeps(book);
    }
    SamePlan(book, ws[i + 1].book, plan, after);
  }

  lemma SamePlan(book: seq<Plan>, later: seq<Plan>, plan: Plan, after: Plan)
    requires BookOk(book) && plan in book && after in later && plan.farm.id == after.farm.id
    requires (|later| == |book| && forall j | 0 <= j < |book| :: Later(book[j], later[j])) || after in book
    ensures Later(plan, after)
  {
    var j :| 0 <= j < |book| && book[j] == plan;
    if after in book {
      var k :| 0 <= k < |book| && book[k] == after;
      assert k == j;
    } else {
      var k :| 0 <= k < |later| && later[k] == after;
      assert Later(book[k], later[k]);
      assert k == j;
    }
  }

  /** Every session step starts, in any run, belongs to a local profile nobody has open, was due,
      and, with the clock past the epoch, is inside the hours of its own day. */
  lemma StepStartsRight(ws: seq<World>, ops: seq<Op>, i: nat, j: nat, st: Start)
    requires Run(ws, ops) && i < |ops| && ops[i].Step? && j < |ws[i].book|
    requires StepChances(ws[i].book, ops[i].now, ops[i].open, ops[i].chances)
    requires st in StepStarts(ws[i].book[j], ops[i].now, ops[i].open, ops[i].chances[j])
    ensures j < |ws[i + 1].book|
    ensures GoodStart(ws[i].book[j].farm, ws[i + 1].book[j].farm.tracks, st, ops[i].now, ops[i].open)
  {
    RunKeeps(ws, ops, i);
    assert Next(ws[i], ops[i], ws[i + 1]);
    PlanAt(ws[i].book, j);
    StepPlanKeeps(ws[i].book[j], ops[i].now, ops[i].open, ops[i].chances[j]);
  }
}
