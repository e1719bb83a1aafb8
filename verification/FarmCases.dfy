/** Two runs in which the scheduler does less than it might: a team session granted when its hours are
    over, and a finished session that a restart forgets. */
module FarmCases {
  import opened Wrappers
  import opened FarmTypes
  import opened FarmDay
  import opened FarmBook
  import opened FarmInvariants
  import opened FarmRuns
  import opened FarmLog

  /** One team profile, one site a day for one day, in the first hour after midnight UTC. */
  const SPEC: Spec := Spec("", ["a"], 1, (1, 1), (0, 1), (1, 1), false, 1, false)
  const TARGET: Target := Target("p", "p", "team", Fixed(0))
  const FARM: Farm := Farm("f", 0, SPEC, [TARGET], map[], false)

  /** The day planned at the epoch: its session a minute later, the window over after an hour. */
  const SESSION: Session := Session(MINUTE_MS, ["a"], None, None)
  const DAY: DayPlan := DayPlan(0, HOUR_MS, [SESSION])
  const PLANNED: Track := NEW_TRACK.(lastDay := Some(0), day := Some(0), windowEndMs := HOUR_MS, sessions := [SESSION])
  const STARTED: Track := PLANNED.(sessions := [SESSION.(startedMs := Some(HOUR_MS))])

  const CREATE: Op := Create("f", 0, SPEC, [TARGET])
  const STEP: Op := Step(0, {}, [[Chance(DAY, 20)]])
  const CLAIM: Op := Claim("f", "p", HOUR_MS, {})

  function BookOf(tr: Track): seq<Plan> {
    [Plan(FARM.(tracks := map["p" := tr]), map["p" := []])]
  }

  lemma DayIsPossible()
    ensures DAY in DayPlans(SPEC, Fixed(0), None, 0)
  {
    assert Sites([SESSION]) == ["a"] by { SitesAppend([], SESSION); assert [] + [SESSION] == [SESSION]; }
    assert SiteCount(1, |SPEC.urls|) == 1;
    assert RightSites(SPEC, ["a"]);
  }

  lemma CreateRuns(w: World)
    requires w.book == []
    ensures Possible(w.book, CREATE) && After(w, CREATE) == [Plan(FARM, map[])]
  {
    assert Trim("a") == "a";
    assert CleanUrls(["a"]) == ["a"];
    assert SPEC.Check().None?;
    assert !Taken([], "p");
  }

  lemma StepCanDraw(plan: Plan)
    requires plan == Plan(FARM, map[])
    ensures StepDrawable(plan, 0, {}, [Chance(DAY, 20)])
  {
    DayIsPossible();
    var chances := [Chance(DAY, 20)];
    var room := StepRoom(plan);
    assert chances[..0] == [];
    assert AllDrawable(plan, room, 0, {}, []);
    assert StepPass(plan, room, 0, {}, []).tracks == map[];
    assert Drawable(FARM, TARGET, 0, NEW_TRACK, chances[0]);
    assert AllDrawable(plan, room, 0, {}, chances);
  }

  lemma StepPlans(plan: Plan)
    requires plan == Plan(FARM, map[])
    ensures StepPlan(plan, 0, {}, [Chance(DAY, 20)]) == BookOf(PLANNED)[0]
  {
    var chances, room := [Chance(DAY, 20)], StepRoom(plan);
    assert chances[..0] == [];
    var v := VisitTrack(FARM, TARGET, 0, {}, chances[0], NEW_TRACK, room);
    assert v.track == PLANNED && v.behind == [];
    var p := StepPass(plan, room, 0, {}, chances);
    assert StepPass(plan, room, 0, {}, []) == Pass(map[], map[], room, []);
    assert p == VisitNext(FARM, TARGET, 0, {}, chances[0], Pass(map[], map[], room, []));
    assert p.tracks == map["p" := PLANNED];
    assert p.past == map["p" := []];
  }

  /** Changing the one track there is. */
  lemma TrackChanges(tr: Track, g: Track -> Track)
    ensures WithTrack(BookOf(tr), "f", "p", g) == BookOf(g(tr))
  {
    assert map["p" := tr]["p" := g(tr)] == map["p" := g(tr)];
  }

  lemma StepRuns(w: World)
    requires w.book == [Plan(FARM, map[])]
    ensures Possible(w.book, STEP) && After(w, STEP) == BookOf(PLANNED)
  {
    StepCanDraw(w.book[0]);
    StepPlans(w.book[0]);
  }

  lemma ClaimIsDue(farm: Farm)
    requires farm == FARM.(tracks := map["p" := PLANNED])
    ensures DueOf(farm, TARGET) in DueInFarm(farm, HOUR_MS, {})
  {
    NoFlights([SESSION]);
    InFlightNone(farm.tracks);
    assert FirstWaiting([SESSION]) == 0 && Eligible(farm, TARGET, HOUR_MS, {});
    var d := DueOf(farm, TARGET);
    assert [TARGET][..0] == [];
    assert EligibleDues(farm, [TARGET], HOUR_MS, {}) == [] + [d];
    DueMeans(farm, HOUR_MS, {}, d);
  }

  lemma ClaimRuns(w: World)
    requires w.book == BookOf(PLANNED)
    ensures Claimable(w.book, "f", "p", HOUR_MS, {}) && After(w, CLAIM) == BookOf(STARTED)
  {
    var farm := w.book[0].farm;
    ClaimIsDue(farm);
    DueInBookIs(w.book, HOUR_MS, {}, DueOf(farm, TARGET));
    assert w.book[0] in w.book;
    assert FirstWaiting([SESSION]) == 0;
    assert StartTrack(HOUR_MS, PLANNED) == STARTED;
    TrackChanges(PLANNED, tr => StartTrack(HOUR_MS, tr));
  }

  lemma RunGoesOn(ws: seq<World>, ops: seq<Op>, op: Op, w: World)
    requires Run(ws, ops) && Next(ws[|ops|], op, w)
    ensures Run(ws + [w], ops + [op])
  {
    var all, done := ws + [w], ops + [op];
    forall i | 0 <= i < |done| ensures Next(all[i], done[i], all[i + 1]) {
      if i < |ops| {
        assert Next(ws[i], ops[i], ws[i + 1]);
      }
    }
  }

  const STARTING: World := World([], [])
  const MADE: World := World([Plan(FARM, map[])], [Plan(FARM, map[])])

  function Kept(book: seq<Plan>): World {
    World(book, book)
  }

  lemma PlannedRun()
    ensures Run([STARTING, MADE, Kept(BookOf(PLANNED))], [CREATE, STEP])
  {
    CreateRuns(STARTING);
    StepRuns(MADE);
    RunGoesOn([STARTING], [], CREATE, MADE);
    RunGoesOn([STARTING, MADE], [CREATE], STEP, Kept(BookOf(PLANNED)));
    assert [STARTING] + [MADE] == [STARTING, MADE] && [] + [CREATE] == [CREATE];
    assert [STARTING, MADE] + [Kept(BookOf(PLANNED))] == [STARTING, MADE, Kept(BookOf(PLANNED))];
    assert [CREATE] + [STEP] == [CREATE, STEP];
  }

  /** A run that keeps its file up to date, up to a session the shell was granted at the very moment
      its window ended. */
  lemma SomeClaimIsLate() returns (ws: seq<World>, ops: seq<Op>)
    ensures Run(ws, ops) && ops == [CREATE, STEP, CLAIM]
    ensures BookOk(ws[2].book) && ws[2].book == BookOf(PLANNED) && ws[3].book == ws[3].file == BookOf(STARTED)
    ensures Claimable(ws[2].book, "f", "p", CLAIM.now, CLAIM.open) && CLAIM.now >= PLANNED.windowEndMs
  {
    PlannedRun();
    ws, ops := [STARTING, MADE, Kept(BookOf(PLANNED))], [CREATE, STEP];
    ClaimRuns(ws[2]);
    RunKeeps(ws, ops, 2);
    RunGoesOn(ws, ops, CLAIM, Kept(BookOf(STARTED)));
    ws, ops := ws + [Kept(BookOf(STARTED))], ops + [CLAIM];
  }

  const REPORT: Op := Report("f", "p", Progress(3, 0, false, None))

  const REPORTED: Track :=
    STARTED.(sessions := [EndSession(STARTED.sessions[0], Done(3, 0))], sites := 3)

  lemma ReportRuns(w: World)
    requires w.book == BookOf(STARTED)
    ensures After(w, REPORT) == BookOf(REPORTED) && Gained(w.book, REPORT, "f", "p") == 3
  {
    assert FirstInFlight(STARTED.sessions) == 0;
    assert ReportTrack(REPORT.last, STARTED) == REPORTED;
    TrackChanges(STARTED, tr => ReportTrack(REPORT.last, tr));
  }

  /** The same run, a report of three sites whose write fails, and a restart: the profile had a session
      that ended Done, and the list says it visited nothing. */
  lemma SomeDoneIsForgotten() returns (ws: seq<World>, ops: seq<Op>)
    ensures Run(ws, ops) && NoIdTwice(ops) && |ops| == 5
    ensures Stands(ws[5].book, "f") && TrackIn(ws[5].book, "f", "p").sites == 0
    ensures EverDone(ws, ops, 5, "f", "p") == 3
  {
    ws, ops := SomeClaimIsLate();
    var started := BookOf(STARTED);
    ReportRuns(ws[3]);
    RunGoesOn(ws, ops, REPORT, World(BookOf(REPORTED), started));
    ws, ops := ws + [World(BookOf(REPORTED), started)], ops + [REPORT];
    RunGoesOn(ws, ops, Load, World(LoadBook(started), started));
    ws, ops := ws + [World(LoadBook(started), started)], ops + [Load];
    LoadFollows(started, "f", "p");
    ThreeLogged(ws, ops);
  }

  lemma ThreeLogged(ws: seq<World>, ops: seq<Op>)
    requires |ws| == 6 && ops == [CREATE, STEP, CLAIM, REPORT, Load]
    requires ws[3].book == BookOf(STARTED)
    ensures EverDone(ws, ops, 5, "f", "p") == 3
  {
    assert EverDone(ws, ops, 1, "f", "p") == 0;
    assert EverDone(ws, ops, 3, "f", "p") == 0;
    ReportRuns(ws[3]);
  }
}
