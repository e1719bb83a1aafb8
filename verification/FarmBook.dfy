/** What each scheduler operation does to the list of plans, as functions, with each
    plan's finished days kept beside it so that its whole history can be spoken of. */
module FarmBook {
  import opened Wrappers
  import opened FarmTypes
  import opened FarmDay

  /** A day that is over: its date and how each of its sessions ended. */
  datatype Day = Day(date: int, sessions: seq<Session>)

  type History = map<Id, seq<Day>>

  /** A plan and, per profile, the days it has put behind it. */
  datatype Plan = Plan(farm: Farm, past: History)

  // ----- sessions -----

  function FirstInFlight(sessions: seq<Session>): (i: nat)
    ensures i <= |sessions|
    ensures i < |sessions| ==> sessions[i].InFlight()
    ensures forall j | 0 <= j < i :: !sessions[j].InFlight()
  {
    if sessions == [] then 0
    else if sessions[0].InFlight() then 0
    else 1 + FirstInFlight(sessions[1..])
  }

  function FirstWaiting(sessions: seq<Session>): (i: nat)
    ensures i <= |sessions|
    ensures i < |sessions| ==> sessions[i].Waiting()
    ensures forall j | 0 <= j < i :: !sessions[j].Waiting()
  {
    if sessions == [] then 0
    else if sessions[0].Waiting() then 0
    else 1 + FirstWaiting(sessions[1..])
  }

  function EndSession(s: Session, o: Outcome): Session {
    s.(ended := Some(o))
  }

  function SkipWaiting(sessions: seq<Session>): (r: seq<Session>)
    ensures |r| == |sessions|
  {
    seq(|sessions|, i requires 0 <= i < |sessions| =>
      if sessions[i].Waiting() then EndSession(sessions[i], Skipped("the day's hours ran out")) else sessions[i])
  }

  function FailFlights(sessions: seq<Session>): (r: seq<Session>)
    ensures |r| == |sessions|
  {
    seq(|sessions|, i requires 0 <= i < |sessions| =>
      if sessions[i].InFlight() then EndSession(sessions[i], Failed("Fury stopped during the session"))
          else sessions[i])
  }

  predicate AllEnded(sessions: seq<Session>) {
    forall s <- sessions :: s.ended.Some?
  }

  predicate AnyDone(sessions: seq<Session>) {
    exists s <- sessions :: s.WasDone()
  }

  // ----- one visit of step to one profile -----

  /** The draws one visit may use: a day plan, and the minutes until a retry. */
  datatype Chance = Chance(plan: DayPlan, retryMinutes: nat)

  predicate DayOver(track: Track, now: int) {
    track.day.Some? && (AllEnded(track.sessions) || Ms(now) >= track.windowEndMs)
  }

  function CloseDay(spec: Spec, track: Track): Track {
    var sessions := SkipWaiting(track.sessions);
    var daysDone := if AnyDone(sessions) then track.daysDone + 1 else track.daysDone;
    track.(
      sessions := sessions,
      daysDone := daysDone,
      day := None,
      stagePending := if daysDone >= spec.days && spec.setStage then Some("ready") else track.stagePending)
  }

  function OpenDay(track: Track, plan: DayPlan): Track {
    track.(day := Some(plan.date), lastDay := Some(plan.date), windowEndMs := plan.endMs, sessions := plan.sessions)
  }

  /** What a visit leaves: the track, the day it put behind, the room left, the start it made. */
  datatype Visit = Visit(track: Track, behind: seq<Day>, room: nat, starts: seq<Start>)

  function Stale(s: Session, now: int): bool
    requires s.InFlight()
  {
    Ms(now) - s.startedMs.value > STALE_MS
  }

  /** A profile with a run in flight: left alone, unless the run is stale. */
  function VisitRunning(now: int, track: Track, room: nat): Visit
    requires FirstInFlight(track.sessions) < |track.sessions|
  {
    var i := FirstInFlight(track.sessions);
    var s := track.sessions[i];
    if Stale(s, now) then
      Visit(track.(sessions := track.sessions[i := EndSession(s, Failed("the session never reported back"))]), [],
          room + 1, [])
    else
      Visit(track, [], room, [])
  }

  /** Moves the first waiting session of an open day, if it is due. */
  function MoveDue(farm: Farm, t: Target, now: int, open: set<Id>, retryMinutes: nat, track: Track, room: nat): Visit {
    var i := FirstWaiting(track.sessions);
    if i == |track.sessions| || track.sessions[i].atMs > Ms(now) then Visit(track, [], room, [])
    else
      var s := track.sessions[i];
      if t.id in open then
        var later := s.(atMs := Ms(now) + retryMinutes * 60 * 1000);
        var moved := if later.atMs >= track.windowEndMs then EndSession(later, Skipped("the profile was open"))
            else later;
        Visit(track.(sessions := track.sessions[i := moved]), [], room, [])
      else if !t.IsLocal() || room == 0 then Visit(track, [], room, [])
      else
        Visit(track.(sessions := track.sessions[i := s.(startedMs := Some(Ms(now)))]), [], room - 1,
              [Start(t.id, t.name, SessionPlan(farm.spec, farm.id, s.urls))])
  }

  /** The visit to a profile that is not running: a day that has ended is put behind, another is drawn
      up if the profile still needs one, and its first waiting session is given a turn. */
  function VisitIdle(farm: Farm, t: Target, now: int, open: set<Id>, c: Chance, track: Track, room: nat): Visit {
    var closed := if DayOver(track, now) then CloseDay(farm.spec, track) else track;
    if closed.daysDone >= farm.spec.days then Visit(closed, [], room, [])
    else if closed.day.Some? then MoveDue(farm, t, now, open, c.retryMinutes, closed, room)
    else
      var v := MoveDue(farm, t, now, open, c.retryMinutes, OpenDay(closed, c.plan), room);
      v.(behind := if closed.lastDay.Some? then [Day(closed.lastDay.value, closed.sessions)] else [])
  }

  function VisitTrack(farm: Farm, t: Target, now: int, open: set<Id>, c: Chance, track: Track, room: nat): Visit {
    if track.daysDone >= farm.spec.days then Visit(track, [], room, [])
    else if FirstInFlight(track.sessions) < |track.sessions| then VisitRunning(now, track, room)
    else VisitIdle(farm, t, now, open, c, track, room)
  }

  /** The visit plans a new day. */
  predicate PlansNow(farm: Farm, now: int, track: Track) {
    && track.daysDone < farm.spec.days
    && FirstInFlight(track.sessions) == |track.sessions|
    && var closed := if DayOver(track, now) then CloseDay(farm.spec, track) else track;
       closed.daysDone < farm.spec.days && closed.day.None?
  }

  /** The draws a visit makes are draws plan_day and the retry can make. */
  ghost predicate Drawable(farm: Farm, t: Target, now: int, track: Track, c: Chance) {
    && 20 <= c.retryMinutes <= 40
    && (PlansNow(farm, now, track) ==> c.plan in DayPlans(farm.spec, t.zone, track.lastDay, now))
  }

  // ----- one pass over one plan -----

  /** Where a pass over a plan's profiles stands. */
  datatype Pass = Pass(tracks: map<Id, Track>, past: History, room: nat, starts: seq<Start>)

  function TrackOf(tracks: map<Id, Track>, id: Id): Track {
    if id in tracks then tracks[id] else NEW_TRACK
  }

  function PastOf(past: History, id: Id): seq<Day> {
    if id in past then past[id] else []
  }

  function VisitNext(farm: Farm, t: Target, now: int, open: set<Id>, c: Chance, p: Pass): Pass {
    var v := VisitTrack(farm, t, now, open, c, TrackOf(p.tracks, t.id), p.room);
    Pass(p.tracks[t.id := v.track], p.past[t.id := PastOf(p.past, t.id) + v.behind], v.room, p.starts + v.starts)
  }

  function Room(farm: Farm, inFlight: nat): nat {
    if farm.spec.atOnce > inFlight then farm.spec.atOnce - inFlight else 0
  }

  /** The pass after as many visits as there are draws. */
  function StepPass(plan: Plan, room: nat, now: int, open: set<Id>, chances: seq<Chance>): Pass
    requires |chances| <= |plan.farm.targets|
  {
    if chances == [] then Pass(plan.farm.tracks, plan.past, room, [])
    else
      var n := |chances| - 1;
      VisitNext(plan.farm, plan.farm.targets[n], now, open, chances[n], StepPass(plan, room, now, open, chances[..n]))
  }

  /** Every draw of a pass over a plan is one that could have been made at its moment. */
  ghost predicate AllDrawable(plan: Plan, room: nat, now: int, open: set<Id>, chances: seq<Chance>)
    requires |chances| <= |plan.farm.targets|
  {
    chances != [] ==>
      && var n := |chances| - 1;
         var t := plan.farm.targets[n];
      && AllDrawable(plan, room, now, open, chances[..n])
      && Drawable(plan.farm, t, now, TrackOf(StepPass(plan, room, now, open, chances[..n]).tracks, t.id), chances[n])
  }

  /** The draws the visits of a pass so far may have made. */
  ghost function Draws(plan: Plan, room: nat, now: int, open: set<Id>): iset<seq<Chance>> {
    iset cs: seq<Chance> | |cs| <= |plan.farm.targets| && AllDrawable(plan, room, now, open, cs)
  }

  // ----- counting -----

  function FlightOf(s: Session): nat { if s.InFlight() then 1 else 0 }

  function SitesDone(s: Session): nat { if s.WasDone() then s.ended.value.sites else 0 }

  function Total(sessions: seq<Session>, w: Session -> nat): nat {
    if sessions == [] then 0 else Total(sessions[..|sessions| - 1], w) + w(sessions[|sessions| - 1])
  }

  function Flights(sessions: seq<Session>): nat { Total(sessions, FlightOf) }

  /** How many sessions a plan has in flight, over all its profiles. */
  ghost function InFlight(tracks: map<Id, Track>): nat
    decreases |tracks|
  {
    if tracks == map[] then 0
    else
      var id :| id in tracks;
      Flights(tracks[id].sessions) + InFlight(tracks - {id})
  }

  ghost function StepRoom(plan: Plan): nat {
    Room(plan.farm, InFlight(plan.farm.tracks))
  }

  ghost predicate StepDrawable(plan: Plan, now: int, open: set<Id>, chances: seq<Chance>) {
    |chances| == |plan.farm.targets|
    && (plan.farm.paused || chances in Draws(plan, StepRoom(plan), now, open))
  }

  /** A plan after one pass of step; a paused plan is passed over. */
  ghost function StepPlan(plan: Plan, now: int, open: set<Id>, chances: seq<Chance>): Plan
    requires |chances| == |plan.farm.targets|
  {
    if plan.farm.paused then plan
    else
      var p := StepPass(plan, StepRoom(plan), now, open, chances);
      Plan(plan.farm.(tracks := p.tracks), p.past)
  }

  ghost function StepStarts(plan: Plan, now: int, open: set<Id>, chances: seq<Chance>): seq<Start>
    requires |chances| == |plan.farm.targets|
  {
    if plan.farm.paused then []
    else StepPass(plan, StepRoom(plan), now, open, chances).starts
  }

  // ----- the list of plans -----

  function Find(book: seq<Plan>, id: Id): (i: nat)
    ensures i <= |book|
    ensures i < |book| ==> book[i].farm.id == id
    ensures forall j | 0 <= j < i :: book[j].farm.id != id
  {
    if book == [] then 0
    else if book[0].farm.id == id then 0
    else 1 + Find(book[1..], id)
  }

  /** Changes one profile's track in one plan, if both are there. */
  function WithTrack(book: seq<Plan>, farmId: Id, profileId: Id, f: Track -> Track): seq<Plan> {
    var i := Find(book, farmId);
    if i == |book| || profileId !in book[i].farm.tracks then book
    else
      var farm := book[i].farm;
      book[i := book[i].(farm := farm.(tracks := farm.tracks[profileId := f(farm.tracks[profileId])]))]
  }

  function OutcomeOf(last: Progress): Outcome {
    if last.done == 0 && last.error.Some? then Failed(last.error.value)
    else if last.done == 0 && last.stopped then Failed("stopped")
    else Done(last.done, last.cookiesNow)
  }

  function ReportTrack(last: Progress, track: Track): Track {
    var i := FirstInFlight(track.sessions);
    if i == |track.sessions| then track
    else
      track.(
        sessions := track.sessions[i := EndSession(track.sessions[i], OutcomeOf(last))],
        sites := track.sites + last.done,
        cookies := if last.cookiesNow > 0 then Some(last.cookiesNow) else track.cookies,
        lastError := last.error)
  }

  function FailTrack(error: string, track: Track): Track {
    var i := FirstInFlight(track.sessions);
    var sessions := if i == |track.sessions| then track.sessions
                    else track.sessions[i := EndSession(track.sessions[i], Failed(error))];
    track.(sessions := sessions, lastError := Some(error))
  }

  function StageTrack(track: Track): Track {
    track.(stagePending := None)
  }

  function StartTrack(now: int, track: Track): Track {
    var i := FirstWaiting(track.sessions);
    if i == |track.sessions| then track
    else track.(sessions := track.sessions[i := track.sessions[i].(startedMs := Some(Ms(now)))])
  }

  function LoadTrack(track: Track): Track {
    track.(sessions := FailFlights(track.sessions))
  }

  function LoadFarm(farm: Farm): Farm {
    farm.(tracks := map id | id in farm.tracks :: LoadTrack(farm.tracks[id]))
  }

  function LoadBook(book: seq<Plan>): seq<Plan> {
    seq(|book|, i requires 0 <= i < |book| => book[i].(farm := LoadFarm(book[i].farm)))
  }

  /** The plans without the one named. */
  function Without(book: seq<Plan>, id: Id): seq<Plan> {
    if book == [] then []
    else (if book[0].farm.id == id then [] else [book[0]]) + Without(book[1..], id)
  }

  function PauseBook(book: seq<Plan>, id: Id, paused: bool): seq<Plan> {
    var i := Find(book, id);
    if i == |book| then book else book[i := book[i].(farm := book[i].farm.(paused := paused))]
  }

  datatype CreateError = BadSpec(why: SpecError) | NoProfiles | AlreadyPlanned(profile: Id)

  predicate Taken(book: seq<Plan>, profile: Id) {
    exists p <- book :: !p.farm.Finished() && p.farm.Has(profile)
  }

  function FirstTaken(book: seq<Plan>, targets: seq<Target>): (i: nat)
    ensures i <= |targets|
    ensures i < |targets| ==> Taken(book, targets[i].id)
    ensures forall j | 0 <= j < i :: !Taken(book, targets[j].id)
  {
    if targets == [] then 0
    else if Taken(book, targets[0].id) then 0
    else 1 + FirstTaken(book, targets[1..])
  }

  function CreateCheck(book: seq<Plan>, spec: Spec, targets: seq<Target>): Option<CreateError> {
    if spec.Check().Some? then Some(BadSpec(spec.Check().value))
    else if targets == [] then Some(NoProfiles)
    else if FirstTaken(book, targets) < |targets| then Some(AlreadyPlanned(targets[FirstTaken(book, targets)].id))
    else None
  }

  function NewFarm(id: Id, nowMs: nat, spec: Spec, targets: seq<Target>): Farm {
    Farm(id, nowMs, spec.(urls := CleanUrls(spec.urls)), targets, map[], false)
  }

  function CreateBook(book: seq<Plan>, id: Id, nowMs: nat, spec: Spec, targets: seq<Target>): seq<Plan> {
    if CreateCheck(book, spec, targets).Some? then book
    else book + [Plan(NewFarm(id, nowMs, spec, targets), map[])]
  }

  // ----- what the shell may claim -----

  /** This profile's first waiting session may go to the shell now. */
  predicate Eligible(farm: Farm, t: Target, now: int, open: set<Id>) {
    && !t.IsLocal()
    && t.id in farm.tracks
    && var sessions := farm.tracks[t.id].sessions;
       var i := FirstWaiting(sessions);
       i < |sessions| && sessions[i].atMs <= Ms(now) && t.id !in open && forall s <- sessions :: !s.InFlight()
  }

  function DueOf(farm: Farm, t: Target): Due {
    Due(farm.id, t.id, t.name, t.origin)
  }

  function EligibleDues(farm: Farm, targets: seq<Target>, now: int, open: set<Id>): seq<Due> {
    if targets == [] then []
    else
      var t := targets[|targets| - 1];
      EligibleDues(farm, targets[..|targets| - 1], now, open)
      + if Eligible(farm, t, now, open) then [DueOf(farm, t)] else []
  }

  function Take<T>(s: seq<T>, n: nat): seq<T> {
    if n <= |s| then s[..n] else s
  }

  /** The first so many eligible profiles of a plan that is not paused, as many as it has room for. */
  ghost function DueInFarm(farm: Farm, now: int, open: set<Id>): seq<Due> {
    if farm.paused then []
    else Take(EligibleDues(farm, farm.targets, now, open), Room(farm, InFlight(farm.tracks)))
  }

  ghost function DueInBook(book: seq<Plan>, now: int, open: set<Id>): seq<Due> {
    if book == [] then []
    else DueInBook(book[..|book| - 1], now, open) + DueInFarm(book[|book| - 1].farm, now, open)
  }

  ghost predicate Claimable(book: seq<Plan>, farmId: Id, profileId: Id, now: int, open: set<Id>) {
    exists d <- DueInBook(book, now, open) :: d.farmId == farmId && d.profileId == profileId
  }

  ghost function ClaimBook(book: seq<Plan>, farmId: Id, profileId: Id, now: int, open: set<Id>): seq<Plan> {
    if Claimable(book, farmId, profileId, now, open) then WithTrack(book, farmId, profileId, tr => StartTrack(now, tr))
    else book
  }

  ghost function StepBook(book: seq<Plan>, now: int, open: set<Id>, chances: seq<seq<Chance>>): (r: seq<Plan>)
    requires |chances| == |book|
    requires forall i | 0 <= i < |book| :: |chances[i]| == |book[i].farm.targets|
    ensures |r| == |book|
  {
    seq(|book|, i requires 0 <= i < |book| => StepPlan(book[i], now, open, chances[i]))
  }

  ghost function StartsInBook(book: seq<Plan>, now: int, open: set<Id>, chances: seq<seq<Chance>>): seq<Start>
    requires |chances| == |book|
    requires forall i | 0 <= i < |book| :: |chances[i]| == |book[i].farm.targets|
  {
    if book == [] then []
    else
      var n := |book| - 1;
      StartsInBook(book[..n], now, open, chances[..n]) + StepStarts(book[n], now, open, chances[n])
  }
}
