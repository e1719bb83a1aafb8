/** The records of the farming scheduler: plans, tracks, sessions and clocks.
    Times are milliseconds since the Unix epoch; a date is a day number. */
module FarmTypes {
  import opened Wrappers

  const MINUTE_MS := 60 * 1000
  const HOUR_MS := 60 * MINUTE_MS
  const DAY_MS := 24 * HOUR_MS
  const STALE_MS := 2 * HOUR_MS
  const MIN_WINDOW_MS := 10 * MINUTE_MS

  const MAX_DAYS := 90
  const MAX_SITES_PER_DAY := 100
  const MAX_AT_ONCE := 6

  type Id = string

  /** A profile's clock, as a fixed offset from UTC. */
  datatype Zone = Fixed(offsetMs: int) {

    /** The local date at the instant now. */
    function Today(now: int): int {
      (now + offsetMs) / DAY_MS
    }

    /** When this clock shows an hour of a date; hour 24 belongs to the date after. */
    function At(date: int, hour: nat): int {
      if hour >= 24 then (date + 1) * DAY_MS - offsetMs
      else date * DAY_MS + hour * HOUR_MS - offsetMs
    }
  }

  /** A timestamp as the plan file stores it: never negative. */
  function Ms(t: int): nat {
    if t < 0 then 0 else t
  }

  datatype Target = Target(id: Id, name: string, origin: string, zone: Zone) {
    predicate IsLocal() { origin == "local" }
  }

  datatype SpecError = EmptyList | BadDays | BadSites | BadHours | BadAtOnce | BadDwell

  datatype Spec = Spec(
    name: string,
    urls: seq<string>,
    days: nat,
    sitesPerDay: (nat, nat),
    hours: (nat, nat),
    dwellSeconds: (nat, nat),
    followLink: bool,
    atOnce: nat,
    setStage: bool)
  {
    /** Why a request is refused: the first of its checks to fail. */
    function Check(): Option<SpecError> {
      if forall u <- urls :: Trim(u) == "" then Some(EmptyList)
      else if !(1 <= days <= MAX_DAYS) then Some(BadDays)
      else if sitesPerDay.0 < 1 || sitesPerDay.1 < sitesPerDay.0 || sitesPerDay.1 > MAX_SITES_PER_DAY then
        Some(BadSites)
      else if hours.1 > 24 || hours.0 >= hours.1 then Some(BadHours)
      else if !(1 <= atOnce <= MAX_AT_ONCE) then Some(BadAtOnce)
      else if dwellSeconds.0 < 1 || dwellSeconds.1 < dwellSeconds.0 then Some(BadDwell)
      else None
    }
  }

  datatype Outcome =
    | Done(sites: nat, cookies: nat)
    | Failed(error: string)
    | Skipped(why: string)

  datatype Session = Session(atMs: nat, urls: seq<string>, startedMs: Option<nat>, ended: Option<Outcome>) {
    predicate InFlight() { startedMs.Some? && ended.None? }
    predicate Waiting() { startedMs.None? && ended.None? }
    predicate WasDone() { ended.Some? && ended.value.Done? }
  }

  /** How far one profile has come in its plan. */
  datatype Track = Track(
    daysDone: nat,
    lastDay: Option<int>,
    day: Option<int>,
    windowEndMs: nat,
    sessions: seq<Session>,
    sites: nat,
    cookies: Option<nat>,
    lastError: Option<string>,
    stagePending: Option<string>)

  const NEW_TRACK := Track(0, None, None, 0, [], 0, None, None, None)

  datatype Farm = Farm(
    id: Id,
    createdMs: nat,
    spec: Spec,
    targets: seq<Target>,
    tracks: map<Id, Track>,
    paused: bool)
  {
    /** Every profile has had all its days. */
    predicate Finished() {
      forall t <- targets :: t.id in tracks && tracks[t.id].daysDone >= spec.days
    }

    predicate Has(profile: Id) {
      exists t <- targets :: t.id == profile
    }
  }

  /** What a warm-up is told to do. */
  datatype WarmPlan = WarmPlan(urls: seq<string>, dwellSeconds: (nat, nat), followLink: bool, closeAfter: bool,
      farmId: Id)

  function SessionPlan(spec: Spec, farmId: Id, urls: seq<string>): WarmPlan {
    WarmPlan(urls, spec.dwellSeconds, spec.followLink, true, farmId)
  }

  /** How a warm-up ended, as its completion reports it. */
  datatype Progress = Progress(done: nat, cookiesNow: nat, stopped: bool, error: Option<string>)

  /** A session that step hands to the agent. */
  datatype Start = Start(profileId: Id, name: string, plan: WarmPlan)

  /** A session that waits for the shell to take it. */
  datatype Due = Due(farmId: Id, profileId: Id, name: string, origin: string)

  // ----- trimming, as the Unicode White_Space property has it -----

  predicate IsWhite(c: char) {
    '\U{0009}' <= c <= '\U{000D}' || c == ' ' || c == '\U{0085}' || c == '\U{00A0}' || c == '\U{1680}'
    || '\U{2000}' <= c <= '\U{200A}' || c == '\U{2028}' || c == '\U{2029}' || c == '\U{202F}' || c == '\U{205F}'
    || c == '\U{3000}'
  }

  function TrimStart(s: string): string {
    if s != [] && IsWhite(s[0]) then TrimStart(s[1..]) else s
  }

  function TrimEnd(s: string): string {
    if s != [] && IsWhite(s[|s| - 1]) then TrimEnd(s[..|s| - 1]) else s
  }

  function Trim(s: string): string {
    TrimEnd(TrimStart(s))
  }

  predicate IsTrimmed(s: string) {
    s != [] ==> !IsWhite(s[0]) && !IsWhite(s[|s| - 1])
  }

  lemma {:induction false} TrimStartIsTrimmed(s: string)
    ensures var r := TrimStart(s); (r != [] ==> !IsWhite(r[0])) && |r| <= |s| && r == s[|s| - |r|..]
  {
    if s != [] && IsWhite(s[0]) {
      TrimStartIsTrimmed(s[1..]);
    }
  }

  lemma {:induction false} TrimEndIsPrefix(s: string)
    ensures var r := TrimEnd(s); |r| <= |s| && r == s[..|r|] && (r != [] ==> !IsWhite(r[|r| - 1]))
  {
    if s != [] && IsWhite(s[|s| - 1]) {
      TrimEndIsPrefix(s[..|s| - 1]);
    }
  }

  lemma TrimIsTrimmed(s: string)
    ensures IsTrimmed(Trim(s))
  {
    TrimStartIsTrimmed(s);
    TrimEndIsPrefix(TrimStart(s));
  }

  /** The list as a plan keeps it: trimmed, blanks dropped. */
  function CleanUrls(urls: seq<string>): seq<string> {
    if urls == [] then []
    else
      var u := Trim(urls[0]);
      (if u == "" then [] else [u]) + CleanUrls(urls[1..])
  }

  /** What is kept is trimmed, is something, and nothing that was something is lost. */
  lemma {:induction false} CleanUrlsKeepsWhatCounts(urls: seq<string>)
    ensures forall u <- CleanUrls(urls) :: u != "" && IsTrimmed(u) && exists v <- urls :: Trim(v) == u
    ensures forall v <- urls :: Trim(v) != "" ==> Trim(v) in CleanUrls(urls)
    ensures CleanUrls(urls) == [] <==> forall v <- urls :: Trim(v) == ""
  {
    if urls != [] {
      CleanUrlsKeepsWhatCounts(urls[1..]);
      TrimIsTrimmed(urls[0]);
    }
  }
}
