/** The scheduler itself: the list of plans, changed in place and saved after every operation.
    Each method makes exactly one step of the machine FarmRuns speaks of. */
module Farms {
  import opened Wrappers
  import opened FarmTypes
  import opened FarmDay
  import opened FarmBook
  import opened FarmInvariants
  import opened FarmRuns

  // ----- loops over sessions, tracks and targets -----

  method CountFlights(sessions: seq<Session>) returns (n: nat)
    ensures n == Flights(sessions)
  {
    n := 0;
    for i := 0 to |sessions|
      invariant n == Flights(sessions[..i])
    {
      assert sessions[..i + 1][..i] == sessions[..i];
      if sessions[i].InFlight() {
        n := n + 1;
      }
    }
    assert sessions[..|sessions|] == sessions;
  }

  method CountInFlight(tracks: map<Id, Track>) returns (n: nat)
    ensures n == InFlight(tracks)
  {
    n := 0;
    var rest := tracks;
    while rest.Keys != {}
      invariant n + InFlight(rest) == InFlight(tracks)
      decreases |rest|
    {
      var id :| id in rest.Keys;
      var k := CountFlights(rest[id].sessions);
      InFlightAt(rest, id);
      n := n + k;
      rest := rest - {id};
    }
    assert rest == map[];
  }

  method SkipAllWaiting(sessions: seq<Session>) returns (r: seq<Session>)
    ensures r == SkipWaiting(sessions)
  {
    r := sessions;
    for i := 0 to |sessions|
      invariant |r| == |sessions|
      invariant r[..i] == SkipWaiting(sessions)[..i]
      invariant r[i..] == sessions[i..]
    {
      assert r[i] == r[i..][0] == sessions[i];
      if r[i].Waiting() {
        r := r[i := EndSession(r[i], Skipped("the day's hours ran out"))];
      }
    }
  }

  method FailAllFlights(sessions: seq<Session>) returns (r: seq<Session>)
    ensures r == FailFlights(sessions)
  {
    r := sessions;
    for i := 0 to |sessions|
      invariant |r| == |sessions|
      invariant r[..i] == FailFlights(sessions)[..i]
      invariant r[i..] == sessions[i..]
    {
      assert r[i] == r[i..][0] == sessions[i];
      if r[i].InFlight() {
        r := r[i := EndSession(r[i], Failed("Fury stopped during the session"))];
      }
    }
  }

  /** Puts an open day behind the profile once it has ended. */
  method CloseIfOver(spec: Spec, before: Track, now: int) returns (track: Track)
    ensures track == if DayOver(before, now) then CloseDay(spec, before) else before
  {
    track := before;
    if track.day.Some? && (AllEnded(track.sessions) || Ms(now) >= track.windowEndMs) {
      var sessions := SkipAllWaiting(track.sessions);
      track := track.(sessions := sessions);
      if AnyDone(track.sessions) {
        track := track.(daysDone := track.daysDone + 1);
      }
      track := track.(day := None);
      if track.daysDone >= spec.days && spec.setStage {
        track := track.(stagePending := Some("ready"));
      }
    }
  }

  /** Gives the first waiting session its turn: put off, left waiting or started. */
  method MoveIfDue(farm: Farm, t: Target, now: int, open: set<Id>, before: Track, roomBefore: nat)
    returns (track: Track, room: nat, starts: seq<Start>, ghost minutes: nat)
    ensures 20 <= minutes <= 40
    ensures Visit(track, [], room, starts) == MoveDue(farm, t, now, open, minutes, before, roomBefore)
  {
    track, room, starts, minutes := before, roomBefore, [], 20;
    var i := FirstWaiting(track.sessions);
    if i == |track.sessions| || track.sessions[i].atMs > Ms(now) {
      return;
    }
    var s := track.sessions[i];
    if t.id in open {
      var drawn := Draw(20, 40);
      minutes := drawn;
      s := s.(atMs := Ms(now) + drawn * 60 * 1000);
      if s.atMs >= track.windowEndMs {
        s := EndSession(s, Skipped("the profile was open"));
      }
      track := track.(sessions := track.sessions[i := s]);
      return;
    }
    if !t.IsLocal() || room == 0 {
      return;
    }
    track := track.(sessions := track.sessions[i := s.(startedMs := Some(Ms(now)))]);
    room := room - 1;
    starts := [Start(t.id, t.name, SessionPlan(farm.spec, farm.id, s.urls))];
  }

  const NO_PLAN := DayPlan(0, 0, [])

  /** Step's work on one profile: the body of its inner loop. The draws it made come back with it. */
  method VisitProfile(farm: Farm, t: Target, now: int, open: set<Id>, before: Track, roomBefore: nat)
    returns (track: Track, room: nat, starts: seq<Start>, ghost c: Chance, ghost behind: seq<Day>)
    requires farm.spec.Check().None?
    ensures Drawable(farm, t, now, before, c)
    ensures Visit(track, behind, room, starts) == VisitTrack(farm, t, now, open, c, before, roomBefore)
  {
    track, room, starts, behind := before, roomBefore, [], [];
    c := Chance(NO_PLAN, 20);
    if track.daysDone >= farm.spec.days {
      return;
    }
    var i := FirstInFlight(track.sessions);
    if i < |track.sessions| {
      if Ms(now) - track.sessions[i].startedMs.value > STALE_MS {
        track := track.(sessions := track.sessions[i :=
            EndSession(track.sessions[i], Failed("the session never reported back"))]);
        room := room + 1;
      }
      return;
    }
    track := CloseIfOver(farm.spec, track, now);
    if track.daysDone >= farm.spec.days {
      return;
    }
    ghost var plan := NO_PLAN;
    if track.day.None? {
      var p := PlanDay(farm.spec, t.zone, track.lastDay, now);
      plan := p;
      behind := Behind(track);
      track := OpenDay(track, p);
    }
    ghost var minutes;
    track, room, starts, minutes := MoveIfDue(farm, t, now, open, track, room);
    c := Chance(plan, minutes);
  }

  /** One more visit extends a pass. */
  lemma PassExtends(plan: Plan, room: nat, now: int, open: set<Id>, chances: seq<Chance>, c: Chance, before: Pass,
                    v: Visit)
    requires |chances| < |plan.farm.targets|
    requires chances in Draws(plan, room, now, open) && before == StepPass(plan, room, now, open, chances)
    requires var t := plan.farm.targets[|chances|];
             Drawable(plan.farm, t, now, TrackOf(before.tracks, t.id), c)
             && v == VisitTrack(plan.farm, t, now, open, c, TrackOf(before.tracks, t.id), before.room)
    ensures chances + [c] in Draws(plan, room, now, open)
    ensures var t := plan.farm.targets[|chances|];
            StepPass(plan, room, now, open, chances + [c])
              == Pass(before.tracks[t.id := v.track], before.past[t.id := PastOf(before.past, t.id) + v.behind], v.room,
                      before.starts + v.starts)
  {
    assert (chances + [c])[..|chances|] == chances;
  }

  /** One turn of step's inner loop: look up the profile's track, visit it, put it back. */
  method VisitTarget(ghost plan: Plan, ghost room0: nat, now: int, open: set<Id>, farm: Farm, j: nat,
                     tracksBefore: map<Id, Track>, ghost pastBefore: History, roomBefore: nat, startsBefore: seq<Start>,
                     ghost chancesBefore: seq<Chance>)
    returns (tracks: map<Id, Track>, ghost past: History, room: nat, starts: seq<Start>, ghost chances: seq<Chance>)
    requires farm == plan.farm && farm.spec.Check().None? && |chancesBefore| == j < |farm.targets|
    requires chancesBefore in Draws(plan, room0, now, open)
    requires Pass(tracksBefore, pastBefore, roomBefore, startsBefore) == StepPass(plan, room0, now, open, chancesBefore)
    ensures |chances| == j + 1
    ensures chances in Draws(plan, room0, now, open)
    ensures Pass(tracks, past, room, starts) == StepPass(plan, room0, now, open, chances)
  {
    var t := farm.targets[j];
    var track := if t.id in tracksBefore then tracksBefore[t.id] else NEW_TRACK;
    var visited, left, made, c, behind := VisitProfile(farm, t, now, open, track, roomBefore);
    PassExtends(plan, room0, now, open, chancesBefore, c,
                Pass(tracksBefore, pastBefore, roomBefore, startsBefore), Visit(visited, behind, left, made));
    chances := chancesBefore + [c];
    tracks := tracksBefore[t.id := visited];
    past := pastBefore[t.id := PastOf(pastBefore, t.id) + behind];
    room := left;
    starts := startsBefore + made;
  }

  /** Step's work on one plan: a visit to each of its profiles in turn. */
  method PassOver(farm: Farm, room0: nat, now: int, open: set<Id>, ghost plan: Plan)
    returns (tracks: map<Id, Track>, ghost past: History, room: nat, starts: seq<Start>, ghost chances: seq<Chance>)
    requires farm == plan.farm && farm.spec.Check().None?
    ensures |chances| == |farm.targets|
    ensures chances in Draws(plan, room0, now, open)
    ensures Pass(tracks, past, room, starts) == StepPass(plan, room0, now, open, chances)
  {
    room := room0;
    tracks, starts, past, chances := farm.tracks, [], plan.past, [];
    for j := 0 to |farm.targets|
      invariant |chances| == j
      invariant chances in Draws(plan, room0, now, open)
      invariant Pass(tracks, past, room, starts) == StepPass(plan, room0, now, open, chances)
    {
      tracks, past, room, starts, chances :=
          VisitTarget(plan, room0, now, open, farm, j, tracks, past, room, starts, chances);
    }
  }

  /** Step's work on one plan, or none if it is paused. */
  method StepOver(farm: Farm, now: int, open: set<Id>, ghost plan: Plan)
    returns (stepped: Farm, starts: seq<Start>, ghost after: Plan, ghost chances: seq<Chance>)
    requires farm == plan.farm && farm.spec.Check().None?
    ensures StepDrawable(plan, now, open, chances)
    ensures after == StepPlan(plan, now, open, chances) && stepped == after.farm
    ensures starts == StepStarts(plan, now, open, chances)
  {
    if farm.paused {
      stepped, starts, after := farm, [], plan;
      chances := seq(|farm.targets|, _ => Chance(NO_PLAN, 20));
    } else {
      stepped, starts, after, chances := StepRunning(farm, now, open, plan);
    }
  }

  lemma PassMakesPlan(plan: Plan, room: nat, now: int, open: set<Id>, chances: seq<Chance>, p: Pass)
    requires |chances| == |plan.farm.targets| && !plan.farm.paused && room == StepRoom(plan)
    requires p == StepPass(plan, room, now, open, chances)
    ensures StepPlan(plan, now, open, chances) == Plan(plan.farm.(tracks := p.tracks), p.past)
    ensures StepStarts(plan, now, open, chances) == p.starts
  {
  }

  method StepRunning(farm: Farm, now: int, open: set<Id>, ghost plan: Plan)
    returns (stepped: Farm, starts: seq<Start>, ghost after: Plan, ghost chances: seq<Chance>)
    requires farm == plan.farm && farm.spec.Check().None? && !farm.paused
    ensures |chances| == |farm.targets| && chances in Draws(plan, StepRoom(plan), now, open)
    ensures after == StepPlan(plan, now, open, chances) && stepped == after.farm
    ensures starts == StepStarts(plan, now, open, chances)
  {
    var inFlight := CountInFlight(farm.tracks);
    var room: nat := if farm.spec.atOnce > inFlight then farm.spec.atOnce - inFlight else 0;
    var tracks, past, left, made, drawn := PassOver(farm, room, now, open, plan);
    PassMakesPlan(plan, room, now, open, drawn, Pass(tracks, past, left, made));
    chances := drawn;
    stepped := farm.(tracks := tracks);
    starts := made;
    after := Plan(stepped, past);
  }

  ghost predicate Matches(list: seq<Farm>, book: seq<Plan>) {
    |list| == |book| && forall i | 0 <= i < |list| :: list[i] == book[i].farm
  }

  lemma MatchesMeans(list: seq<Farm>, book: seq<Plan>, i: nat)
    requires Matches(list, book) && BookOk(book) && i < |list|
    ensures list[i] == book[i].farm && PlanOk(book[i]) && list[i].spec.Check().None?
  {
    PlanAt(book, i);
  }

  lemma {:induction false} WithoutAppend(book: seq<Plan>, p: Plan, id: Id)
    ensures Without(book + [p], id) == Without(book, id) + if p.farm.id == id then [] else [p]
  {
    if book == [] {
      assert book + [p] == [p];
    } else {
      assert (book + [p])[1..] == book[1..] + [p];
      WithoutAppend(book[1..], p, id);
    }
  }

  method Retain(list: seq<Farm>, id: Id, ghost book: seq<Plan>) returns (kept: seq<Farm>, ghost keptBook: seq<Plan>)
    requires Matches(list, book)
    ensures Matches(kept, keptBook) && keptBook == Without(book, id)
    ensures |kept| != |list| <==> exists f <- list :: f.id == id
  {
    kept, keptBook := [], [];
    for i := 0 to |list|
      invariant Matches(kept, keptBook)
      invariant keptBook == Without(book[..i], id)
      invariant |kept| <= i
      invariant |kept| == i <==> forall j | 0 <= j < i :: list[j].id != id
    {
      assert book[..i + 1] == book[..i] + [book[i]];
      WithoutAppend(book[..i], book[i], id);
      if list[i].id != id {
        kept := kept + [list[i]];
        keptBook := keptBook + [book[i]];
      }
    }
    assert book[..|list|] == book;
  }

  /** The first profile of a request that an unfinished plan already has. */
  method FindTaken(list: seq<Farm>, targets: seq<Target>, ghost book: seq<Plan>) returns (i: nat)
    requires Matches(list, book)
    ensures i == FirstTaken(book, targets)
  {
    i := 0;
    while i < |targets|
      invariant i <= |targets|
      invariant forall j | 0 <= j < i :: !Taken(book, targets[j].id)
    {
      var k := 0;
      while k < |list| && (list[k].Finished() || !list[k].Has(targets[i].id))
        invariant k <= |list|
        invariant forall j | 0 <= j < k :: list[j].Finished() || !list[j].Has(targets[i].id)
      {
        k := k + 1;
      }
      if k < |list| {
        assert book[k] in book;
        return;
      }
      i := i + 1;
    }
  }

  /** A track once the run in flight on it has reported. */
  method ReportOn(before: Track, last: Progress) returns (track: Track)
    ensures track == ReportTrack(last, before)
  {
    track := before;
    var k := FirstInFlight(track.sessions);
    if k == |track.sessions| {
      return;
    }
    var outcome := match (last.error, last.done) {
      case (Some(e), 0) => Failed(e)
      case (None, 0) => if last.stopped then Failed("stopped") else Done(last.done, last.cookiesNow)
      case _ => Done(last.done, last.cookiesNow)
    };
    track := track.(sessions := track.sessions[k := EndSession(track.sessions[k], outcome)]);
    track := track.(sites := track.sites + last.done);
    if last.cookiesNow > 0 {
      track := track.(cookies := Some(last.cookiesNow));
    }
    track := track.(lastError := last.error);
  }

  method FailOn(before: Track, error: string) returns (track: Track)
    ensures track == FailTrack(error, before)
  {
    track := before;
    var k := FirstInFlight(track.sessions);
    if k < |track.sessions| {
      track := track.(sessions := track.sessions[k := EndSession(track.sessions[k], Failed(error))]);
    }
    track := track.(lastError := Some(error));
  }

  /** Where track_mut finds the track, changing it there is what WithTrack says. */
  lemma TrackMut(list: seq<Farm>, book: seq<Plan>, farmId: Id, id: Id, f: Track -> Track)
    requires Matches(list, book)
    ensures var i := Find(book, farmId);
            if i < |list| && id in list[i].tracks then
              Matches(list[i := list[i].(tracks := list[i].tracks[id := f(list[i].tracks[id])])],
                  WithTrack(book, farmId, id, f))
            else
              WithTrack(book, farmId, id, f) == book
  {
  }

  lemma NothingInFlight(book: seq<Plan>, farmId: Id, id: Id, last: Progress)
    requires var i := Find(book, farmId);
             i < |book| && id in book[i].farm.tracks ==>
               FirstInFlight(book[i].farm.tracks[id].sessions) == |book[i].farm.tracks[id].sessions|
    ensures WithTrack(book, farmId, id, tr => ReportTrack(last, tr)) == book
  {
    var i := Find(book, farmId);
    if i < |book| && id in book[i].farm.tracks {
      var tracks := book[i].farm.tracks;
      assert tracks[id := tracks[id]] == tracks;
    }
  }

  method LoadTracks(tracks: map<Id, Track>) returns (loaded: map<Id, Track>)
    ensures loaded == map id | id in tracks :: LoadTrack(tracks[id])
  {
    loaded := map[];
    var rest := tracks.Keys;
    while rest != {}
      invariant rest <= tracks.Keys
      invariant loaded.Keys == tracks.Keys - rest
      invariant forall id <- loaded :: loaded[id] == LoadTrack(tracks[id])
      decreases |rest|
    {
      var id :| id in rest;
      var sessions := FailAllFlights(tracks[id].sessions);
      loaded := loaded[id := tracks[id].(sessions := sessions)];
      rest := rest - {id};
    }
  }

  method LoadAll(onDisk: seq<Farm>) returns (loaded: seq<Farm>)
    ensures |loaded| == |onDisk| && forall j | 0 <= j < |onDisk| :: loaded[j] == LoadFarm(onDisk[j])
  {
    loaded := [];
    for i := 0 to |onDisk|
      invariant |loaded| == i
      invariant forall j | 0 <= j < i :: loaded[j] == LoadFarm(onDisk[j])
    {
      var tracks := LoadTracks(onDisk[i].tracks);
      loaded := loaded + [onDisk[i].(tracks := tracks)];
    }
  }

  // ----- the scheduler -----

  class Scheduler {
    /** The plans, and what the plan file holds. */
    var list: seq<Farm>
    var written: seq<Farm>

    /** The same with every profile's past beside it. */
    ghost var book: seq<Plan>
    ghost var file: seq<Plan>

    ghost predicate Valid()
      reads this
    {
      Matches(list, book) && Matches(written, file) && forall b <- [book, file] :: BookOk(b)
    }

    ghost function State(): World
      reads this
    {
      World(book, file)
    }

    /** Starts from what is on disk, whatever that is: nothing in it stays in flight. From a file that
        a run of the scheduler can have left, this is the restart of that run. */
    constructor (onDisk: seq<Farm>, ghost was: World, saves: bool)
      requires Matches(onDisk, was.file)
      ensures |list| == |onDisk| && forall j | 0 <= j < |onDisk| :: list[j] == LoadFarm(onDisk[j])
      ensures written == list || written == onDisk
      ensures BookOk(was.file) ==> Valid() && Next(was, Load, State())
    {
      var loaded := LoadAll(onDisk);
      list := loaded;
      book := LoadBook(was.file);
      written := onDisk;
      file := was.file;
      new;
      Save(saves);
      if BookOk(was.file) {
        LoadKeeps(was.file);
      }
    }

    /** Brings the file up to the list, unless writing fails and it stays as it was. */
    method Save(saves: bool)
      requires Matches(list, book) && Matches(written, file)
      modifies `written, `file
      ensures Matches(written, file)
      ensures (file == book && written == list) || (file == old(file) && written == old(written))
    {
      if list == written {
        file := book;
        return;
      }
      if saves {
        written := list;
        file := book;
      }
    }

    method Create(spec: Spec, targets: seq<Target>, nowMs: nat, newId: Id, saves: bool)
      returns (r: Result<Id, CreateError>)
      requires Valid()
      requires forall f <- list :: f.id != newId
      modifies this
      ensures Valid()
      ensures Next(old(State()), Op.Create(newId, nowMs, spec, targets), State())
      ensures r == match CreateCheck(old(book), spec, targets) { case None => Ok(newId) case Some(e) => Err(e) }
    {
      assert forall p <- book :: p.farm.id != newId by {
        forall p | p in book ensures p.farm.id != newId {
          var k :| 0 <= k < |book| && book[k] == p;
          assert list[k] in list;
        }
      }
      var bad := spec.Check();
      if bad.Some? {
        return Err(BadSpec(bad.value));
      }
      if targets == [] {
        return Err(NoProfiles);
      }
      var taken := FindTaken(list, targets, book);
      if taken < |targets| {
        return Err(AlreadyPlanned(targets[taken].id));
      }
      var farm := Farm(newId, nowMs, spec.(urls := CleanUrls(spec.urls)), targets, map[], false);
      CreateKeeps(book, newId, nowMs, spec, targets);
      r := Ok(newId);
      Adopt(list + [farm], book + [Plan(farm, map[])], saves);
    }

    method Delete(id: Id, saves: bool) returns (deleted: bool)
      requires Valid()
      modifies this
      ensures Valid()
      ensures Next(old(State()), Op.Delete(id), State())
      ensures deleted <==> exists f <- old(list) :: f.id == id
    {
      WithoutKeeps(book, id);
      var kept;
      ghost var keptBook;
      kept, keptBook := Retain(list, id, book);
      deleted := |kept| != |list|;
      Adopt(kept, keptBook, saves);
    }

    method Pause(id: Id, paused: bool, saves: bool) returns (found: bool)
      requires Valid()
      modifies this
      ensures Valid()
      ensures Next(old(State()), Op.Pause(id, paused), State())
      ensures found <==> exists f <- old(list) :: f.id == id
    {
      PauseKeeps(book, id, paused);
      var i := IndexOf(id);
      found := i < |list|;
      assert found ==> list[i] in list;
      if found {
        Adopt(list[i := list[i].(paused := paused)], PauseBook(book, id, paused), saves);
      } else {
        Save(saves);
      }
    }

    method IndexOf(id: Id) returns (i: nat)
      requires Valid()
      ensures i == Find(book, id) && i <= |list|
      ensures i < |list| ==> list[i].id == id
      ensures i == |list| ==> forall f <- list :: f.id != id
    {
      i := 0;
      while i < |list| && list[i].id != id
        invariant i <= |list|
        invariant forall j | 0 <= j < i :: book[j].farm.id != id
      {
        i := i + 1;
      }
    }

    /** Take the new list, and save it. */
    method Adopt(changed: seq<Farm>, ghost after: seq<Plan>, saves: bool)
      requires Valid()
      requires Matches(changed, after) && BookOk(after)
      modifies this
      ensures Valid()
      ensures list == changed && book == after
      ensures file == after || file == old(file)
    {
      list := changed;
      book := after;
      Save(saves);
    }

    /** Books what a warm-up says of itself when it is over, on the session in flight. */
    method Report(farmId: Id, profileId: Id, last: Progress, saves: bool)
      requires Valid()
      modifies this
      ensures Valid()
      ensures Next(old(State()), Op.Report(farmId, profileId, last), State())
    {
      ghost var f := tr => ReportTrack(last, tr);
      var i := IndexOf(farmId);
      if i == |list| || profileId !in list[i].tracks {
        NothingInFlight(book, farmId, profileId, last);
        return;
      }
      if FirstInFlight(list[i].tracks[profileId].sessions) == |list[i].tracks[profileId].sessions| {
        NothingInFlight(book, farmId, profileId, last);
        return;
      }
      var track := ReportOn(list[i].tracks[profileId], last);
      ReportKeeps(book, farmId, profileId, last);
      TrackMut(list, book, farmId, profileId, f);
      Adopt(list[i := list[i].(tracks := list[i].tracks[profileId := track])], WithTrack(book, farmId, profileId, f),
          saves);
    }

    /** Ends a claimed session that came to nothing, and keeps the reason. */
    method Fail(farmId: Id, profileId: Id, error: string, saves: bool)
      requires Valid()
      modifies this
      ensures Valid()
      ensures Next(old(State()), Op.Fail(farmId, profileId, error), State())
    {
      ghost var f := tr => FailTrack(error, tr);
      TrackMut(list, book, farmId, profileId, f);
      var i := IndexOf(farmId);
      if i == |list| || profileId !in list[i].tracks {
        return;
      }
      var track := FailOn(list[i].tracks[profileId], error);
      FailKeeps(book, farmId, profileId, error);
      Adopt(list[i := list[i].(tracks := list[i].tracks[profileId := track])], WithTrack(book, farmId, profileId, f),
          saves);
    }

    method StageApplied(farmId: Id, profileId: Id, saves: bool)
      requires Valid()
      modifies this
      ensures Valid()
      ensures Next(old(State()), Op.StageApplied(farmId, profileId), State())
    {
      TrackMut(list, book, farmId, profileId, StageTrack);
      StageKeeps(book, farmId, profileId);
      var i := IndexOf(farmId);
      if i < |list| && profileId in list[i].tracks {
        var track := list[i].tracks[profileId].(stagePending := None);
        Adopt(list[i := list[i].(tracks := list[i].tracks[profileId := track])],
              WithTrack(book, farmId, profileId, StageTrack), saves);
      } else {
        Save(saves);
      }
    }

    /** Lists what the shell may claim at this moment. */
    method Due(now: int, open: set<Id>) returns (out: seq<Due>)
      requires Valid()
      ensures out == DueInBook(book, now, open)
    {
      out := [];
      for i := 0 to |list|
        invariant out == DueInBook(book[..i], now, open)
      {
        assert book[..i + 1][..i] == book[..i];
        var farm := list[i];
        if !farm.paused {
          var dues := DueInPlan(farm, now, open);
          out := out + dues;
        } else {
          assert out == out + [];
        }
      }
      assert book[..|list|] == book;
    }

    method DueInPlan(farm: Farm, now: int, open: set<Id>) returns (out: seq<Due>)
      requires !farm.paused
      ensures out == DueInFarm(farm, now, open)
    {
      out := [];
      var inFlight := CountInFlight(farm.tracks);
      var room := if farm.spec.atOnce > inFlight then farm.spec.atOnce - inFlight else 0;
      ghost var room0 := room;
      var j := 0;
      while j < |farm.targets|
        invariant j <= |farm.targets|
        invariant room + |out| == room0
        invariant out == Take(EligibleDues(farm, farm.targets[..j], now, open), room0)
        invariant room > 0 ==> out == EligibleDues(farm, farm.targets[..j], now, open)
      {
        if room == 0 {
          EligiblePrefix(farm, now, open, j, |farm.targets|);
          break;
        }
        var t := farm.targets[j];
        assert farm.targets[..j + 1][..j] == farm.targets[..j];
        if !t.IsLocal() && t.id in farm.tracks {
          var sessions := farm.tracks[t.id].sessions;
          var i := FirstWaiting(sessions);
          var due := i < |sessions| && sessions[i].atMs <= Ms(now);
          if due && t.id !in open && !exists s <- sessions :: s.InFlight() {
            out := out + [FarmTypes.Due(farm.id, t.id, t.name, t.origin)];
            room := room - 1;
          }
        }
        j := j + 1;
      }
      assert farm.targets[..|farm.targets|] == farm.targets;
    }

    /** Marks a listed session as started and returns what to do in it; a second claim of it fails. */
    method Claim(farmId: Id, profileId: Id, now: int, open: set<Id>, saves: bool) returns (r: Result<WarmPlan, string>)
      requires Valid()
      modifies this
      ensures Valid()
      ensures Next(old(State()), Op.Claim(farmId, profileId, now, open), State())
      ensures r.Ok? <==> Claimable(old(book), farmId, profileId, now, open)
      ensures r.Ok? ==>
                var i := Find(old(book), farmId);
                && i < |old(book)| && profileId in old(book)[i].farm.tracks
                && var sessions := old(book)[i].farm.tracks[profileId].sessions;
                   FirstWaiting(sessions) < |sessions|
                   && r.value == SessionPlan(old(book)[i].farm.spec, farmId, sessions[FirstWaiting(sessions)].urls)
    {
      var dues := Due(now, open);
      if !exists d <- dues :: d.farmId == farmId && d.profileId == profileId {
        return Err("that session is not due");
      }
      ClaimableMeans(book, farmId, profileId, now, open);
      var i := IndexOf(farmId);
      var track := list[i].tracks[profileId];
      var k := FirstWaiting(track.sessions);
      var s := track.sessions[k];
      track := track.(sessions := track.sessions[k := s.(startedMs := Some(Ms(now)))]);
      r := Ok(SessionPlan(list[i].spec, farmId, s.urls));
      ClaimKeeps(book, farmId, profileId, now, open);
      TrackMut(list, book, farmId, profileId, tr => StartTrack(now, tr));
      Adopt(list[i := list[i].(tracks := list[i].tracks[profileId := track])],
          ClaimBook(book, farmId, profileId, now, open), saves);
    }

    /** Visits every profile of every plan that is not paused, for some draws, and returns the starts. */
    method Step(now: int, open: set<Id>, saves: bool) returns (starts: seq<Start>, ghost chances: seq<seq<Chance>>)
      requires Valid()
      modifies this
      ensures Valid()
      ensures StepChances(old(book), now, open, chances)
      ensures Next(old(State()), Op.Step(now, open, chances), State())
      ensures starts == StartsInBook(old(book), now, open, chances)
    {
      var changed;
      ghost var after;
      changed, starts, after, chances := StepAll(list, now, open, book);
      StepKeeps(book, now, open, chances);
      Adopt(changed, after, saves);
    }
  }

  /** Step's outer loop: one pass over each plan in turn. */
  method StepAll(list: seq<Farm>, now: int, open: set<Id>, ghost book: seq<Plan>)
    returns (changed: seq<Farm>, starts: seq<Start>, ghost after: seq<Plan>, ghost chances: seq<seq<Chance>>)
    requires Matches(list, book) && BookOk(book)
    ensures StepChances(book, now, open, chances)
    ensures after == StepBook(book, now, open, chances) && Matches(changed, after)
    ensures starts == StartsInBook(book, now, open, chances)
  {
    changed, starts, after, chances := [], [], [], [];
    for i := 0 to |list|
      invariant |changed| == |after| == |chances| == i
      invariant StepChances(book[..i], now, open, chances)
      invariant after == StepBook(book[..i], now, open, chances) && Matches(changed, after)
      invariant starts == StartsInBook(book[..i], now, open, chances)
    {
      MatchesMeans(list, book, i);
      var stepped, made, plan, drawn := StepOver(list[i], now, open, book[i]);
      StepExtends(book, now, open, chances, i, drawn);
      changed := changed + [stepped];
      starts := starts + made;
      after := after + [plan];
      chances := chances + [drawn];
    }
    assert book[..|list|] == book;
  }

  lemma StepExtends(book: seq<Plan>, now: int, open: set<Id>, chances: seq<seq<Chance>>, i: nat, drawn: seq<Chance>)
    requires i < |book| && StepChances(book[..i], now, open, chances) && StepDrawable(book[i], now, open, drawn)
    ensures StepChances(book[..i + 1], now, open, chances + [drawn])
    ensures StepBook(book[..i + 1], now, open, chances + [drawn])
         == StepBook(book[..i], now, open, chances) + [StepPlan(book[i], now, open, drawn)]
    ensures StartsInBook(book[..i + 1], now, open, chances + [drawn])
         == StartsInBook(book[..i], now, open, chances) + StepStarts(book[i], now, open, drawn)
  {
    assert book[..i + 1] == book[..i] + [book[i]];
    ChancesExtend(book[..i], book[i], now, open, chances, drawn);
    BookExtends(book[..i], book[i], now, open, chances, drawn);
    StartsExtend(book[..i], book[i], now, open, chances, drawn);
  }

  lemma ChancesExtend(book: seq<Plan>, p: Plan, now: int, open: set<Id>, chances: seq<seq<Chance>>, drawn: seq<Chance>)
    requires StepChances(book, now, open, chances) && StepDrawable(p, now, open, drawn)
    ensures StepChances(book + [p], now, open, chances + [drawn])
  {
    forall k | 0 <= k < |book| + 1 ensures StepDrawable((book + [p])[k], now, open, (chances + [drawn])[k]) {
      if k < |book| {
        assert (book + [p])[k] == book[k] && (chances + [drawn])[k] == chances[k];
      }
    }
  }

  lemma BookExtends(book: seq<Plan>, p: Plan, now: int, open: set<Id>, chances: seq<seq<Chance>>, drawn: seq<Chance>)
    requires StepChances(book, now, open, chances) && StepDrawable(p, now, open, drawn)
    requires StepChances(book + [p], now, open, chances + [drawn])
    ensures StepBook(book + [p], now, open, chances + [drawn])
         == StepBook(book, now, open, chances) + [StepPlan(p, now, open, drawn)]
  {
  }

  lemma StartsExtend(book: seq<Plan>, p: Plan, now: int, open: set<Id>, chances: seq<seq<Chance>>, drawn: seq<Chance>)
    requires StepChances(book, now, open, chances) && StepDrawable(p, now, open, drawn)
    requires StepChances(book + [p], now, open, chances + [drawn])
    ensures StartsInBook(book + [p], now, open, chances + [drawn])
         == StartsInBook(book, now, open, chances) + StepStarts(p, now, open, drawn)
  {
    assert (book + [p])[..|book|] == book && (chances + [drawn])[..|book|] == chances;
  }

  /** Once a plan has no room left, later profiles change nothing. */
  lemma {:induction false} EligiblePrefix(farm: Farm, now: int, open: set<Id>, j: nat, n: nat)
    requires j <= n <= |farm.targets|
    ensures EligibleDues(farm, farm.targets[..j], now, open) <= EligibleDues(farm, farm.targets[..n], now, open)
  {
    if j < n {
      assert farm.targets[..n][..n - 1] == farm.targets[..n - 1];
      EligiblePrefix(farm, now, open, j, n - 1);
    }
  }
}
