/**
 * `dailyGameCheckJob` of src/server/leagues/nhl/jobs/dailyGameCheck.ts: find today's game of the
 * subreddit's team and schedule its game-day thread an hour before puck-drop, retrying the
 * whole check with backoff when the schedule cannot be fetched. (`scheduleDailyGameCheck`, of
 * the same file, is `Scheduling.ScheduleDailyGameCheck`.)
 */
module DailyCheck {
  import opened Wrappers
  import opened Constants
  import opened Api
  import opened Host
  import opened FormatHeader
  import opened Scheduling
  import opened Postgame
  import opened Gameday
  import Seqs

  /** `g.homeTeam.abbrev === teamAbbrev || g.awayTeam.abbrev === teamAbbrev`. */
  predicate Plays(team: string, game: Game)
  {
    game.homeTeam.abbrev == team || game.awayTeam.abbrev == team
  }

  /** `todayGames.find(...)`: the first of the games the team plays in, at home or away. */
  function TeamGame(games: seq<Game>, team: string): (r: Option<Game>)
    ensures r.Some? <==> exists j :: 0 <= j < |games| && Plays(team, games[j])
    ensures r.Some? ==> exists j :: 0 <= j < |games| && games[j] == r.value && Plays(team, games[j]) &&
                          forall i :: 0 <= i < j ==> !Plays(team, games[i])
  {
    Seqs.Find(games, (game: Game) => Plays(team, game))
  }

  /** The requested creation time of the game-day thread: `PREGAME_THREAD_OFFSET` before the start. */
  function PregameTime(game: Game): int
  {
    game.startTimeUtc - PregameThreadOffset
  }

  /**
   * `dailyGameCheckJob()` given how reading the configuration turns out, today's date and the
   * schedule response. A configuration that cannot be read throws inside the outer `try`, whose
   * `catch` retries with the backoff capped at 30 minutes; a failed schedule fetch retries with
   * the backoff capped at `RETRY_MAX_TIME`. Neither sends a notice when it gives up.
   */
  function DailyGameCheckJob(w: World, env: Env, cfg: ConfigLookup, today: string, resp: ScheduleResponse, now: int): World
  {
    var k := DailyCheckAttempts;
    var a := Attempts(w, k);
    match cfg
    case Unreadable => RetryOrGiveUp(w, env, k, a, DailyCheckOuterCap, now, None)
    case Absent => w
    case Found(c) =>
      if c.nhl.None? then w
      else
        match GetTodaysSchedule(today, resp)
        case Failure(_) => RetryOrGiveUp(w, env, k, a, RetryMaxTime, now, None)
        case Success(games) =>
          ScheduleTeamGame(DelKey(w, k), env, cfg, TeamGame(games, c.nhl.value), now)
  }

  /** Lines 57-73 once the counter is gone: schedule the creation of the team's game, if it has one. */
  function ScheduleTeamGame(w: World, env: Env, cfg: ConfigLookup, m: Option<Game>, now: int): World
  {
    match m
    case None => w
    case Some(game) => ScheduleCreateGameThread(w, env, cfg, game, PregameTime(game), now)
  }

  method DailyGameCheckJobOn(h: Platform, env: Env, cfg: ConfigLookup, today: string, resp: ScheduleResponse, now: int)
    modifies h
    ensures h.W() == DailyGameCheckJob(old(h.W()), env, cfg, today, resp, now)
  {
    var attemptKey := DailyCheckAttempts;
    var attemptNumber := AttemptsOn(h, attemptKey);
    if cfg.Unreadable? {
      RetryOrGiveUpOn(h, env, attemptKey, attemptNumber, DailyCheckOuterCap, now, None);
      return;
    }
    if cfg.Absent? || cfg.config.nhl.None? {
      return;
    }
    var teamAbbrev := cfg.config.nhl.value;
    var todayGames := GetTodaysSchedule(today, resp);
    if todayGames.Failure? {
      RetryOrGiveUpOn(h, env, attemptKey, attemptNumber, RetryMaxTime, now, None);
      return;
    }
    h.Delete(attemptKey);
    var game := TeamGame(todayGames.value, teamAbbrev);
    ScheduleTeamGameOn(h, env, cfg, game, now);
  }

  method ScheduleTeamGameOn(h: Platform, env: Env, cfg: ConfigLookup, game: Option<Game>, now: int)
    modifies h
    ensures h.W() == ScheduleTeamGame(old(h.W()), env, cfg, game, now)
  {
    if game.None? {
      return;
    }
    var scheduleTime := game.value.startTimeUtc - PregameThreadOffset;
    ScheduleCreateGameThreadOn(h, env, cfg, game.value, scheduleTime, now);
  }

  // ---------------------------------------------------------------------------------------
  // Properties

  /** Without a configuration, or one without an NHL team, the check does nothing at all. */
  lemma NoTeamNoop(w: World, env: Env, cfg: ConfigLookup, today: string, resp: ScheduleResponse, now: int)
    requires cfg.Absent? || (cfg.Found? && cfg.config.nhl.None?)
    ensures DailyGameCheckJob(w, env, cfg, today, resp, now) == w
  {
  }

  /**
   * A failed schedule fetch below five attempts counts one more and schedules only the daily
   * check, after the backoff capped at `RETRY_MAX_TIME`; at five it forgets the counter and
   * schedules nothing. No notice is sent and no post changes.
   */
  lemma ScheduleFetchFailure(w: World, env: Env, c: Config, today: string, resp: ScheduleResponse, now: int)
    requires c.nhl.Some? && !IsOk(resp.status)
    ensures var r := DailyGameCheckJob(w, env, Found(c), today, resp, now);
      var k := DailyCheckAttempts; var a := Attempts(w, k);
      r.posts == w.posts && r.mail == w.mail &&
      (CanRetry(a) ==>
        Attempts(r, k) == Some(a.value + 1) &&
        Registered(r, env, DailyJob(now + Backoff(a.value, RetryMaxTime)), JobDailyCheck) &&
        NewJobsNamed(w, r, {DailyGameCheck})) &&
      (!CanRetry(a) ==> k !in r.store && r.jobs == w.jobs)
  {
    RetryStep(w, env, DailyCheckAttempts, Attempts(w, DailyCheckAttempts), RetryMaxTime, now, None);
  }

  /**
   * Lines 75-90: when the configuration cannot be read, the retry waits one, two, four, eight
   * or sixteen minutes, never reaching the 30-minute cap, and the check gives up after the
   * fifth attempt, without a notice.
   */
  lemma OuterFailure(w: World, env: Env, today: string, resp: ScheduleResponse, now: int)
    ensures var r := DailyGameCheckJob(w, env, Unreadable, today, resp, now);
      var k := DailyCheckAttempts; var a := Attempts(w, k);
      r.posts == w.posts && r.mail == w.mail &&
      (CanRetry(a) ==>
        Attempts(r, k) == Some(a.value + 1) &&
        Registered(r, env, DailyJob(now + BackoffBase * Pow2(a.value)), JobDailyCheck) &&
        NewJobsNamed(w, r, {DailyGameCheck})) &&
      (!CanRetry(a) ==> k !in r.store && r.jobs == w.jobs)
  {
    var a := Attempts(w, DailyCheckAttempts);
    RetryStep(w, env, DailyCheckAttempts, a, DailyCheckOuterCap, now, None);
    if CanRetry(a) {
      OuterBackoffUncapped(a.value);
    }
  }

  /** Scheduling the team's game after deleting the counter leaves the counter deleted and every post in place. */
  lemma TeamGameClears(w: World, env: Env, cfg: ConfigLookup, m: Option<Game>, now: int)
    ensures var r := ScheduleTeamGame(DelKey(w, DailyCheckAttempts), env, cfg, m, now);
      DailyCheckAttempts !in r.store && r.posts.Keys == w.posts.Keys
  {
    var w1 := DelKey(w, DailyCheckAttempts);
    if m.Some? {
      var r := ScheduleTeamGame(w1, env, cfg, m, now);
      ScheduleCreateGameKeepsOthers(w1, env, cfg, m.value, PregameTime(m.value), now);
      assert !IsThreadRecord(DailyCheckAttempts);
      assert Get(r, DailyCheckAttempts) == Get(w1, DailyCheckAttempts);
    }
  }

  /** Once the schedule is fetched, the check is the counter's deletion followed by the team's game. */
  lemma FetchedStep(w: World, env: Env, c: Config, today: string, resp: ScheduleResponse, now: int)
    requires c.nhl.Some? && IsOk(resp.status)
    ensures GetTodaysSchedule(today, resp).Success?
    ensures DailyGameCheckJob(w, env, Found(c), today, resp, now) ==
      ScheduleTeamGame(DelKey(w, DailyCheckAttempts), env, Found(c), TeamGame(GetTodaysSchedule(today, resp).value, c.nhl.value), now)
  {
  }

  /**
   * A fetched schedule clears the counter for good, and leaves every post where it was;
   * without a game of the team nothing else happens.
   */
  lemma DailyCheckClears(w: World, env: Env, c: Config, today: string, resp: ScheduleResponse, now: int)
    requires c.nhl.Some? && IsOk(resp.status)
    ensures var r := DailyGameCheckJob(w, env, Found(c), today, resp, now);
      DailyCheckAttempts !in r.store && r.posts.Keys == w.posts.Keys &&
      (TeamGame(GetTodaysSchedule(today, resp).value, c.nhl.value).None? ==>
         r == DelKey(w, DailyCheckAttempts) && r.jobs == w.jobs && r.posts == w.posts && r.mail == w.mail)
  {
    var m := TeamGame(GetTodaysSchedule(today, resp).value, c.nhl.value);
    FetchedStep(w, env, c, today, resp, now);
    TeamGameClears(w, env, Found(c), m, now);
  }

  /**
   * With a game of the team, the first such game is handed to `scheduleCreateGameThread` with
   * a creation time `PREGAME_THREAD_OFFSET` before its start. Unless that game is stale and
   * over, or its creation is already scheduled, its creation job is registered for that time,
   * or for now when it has passed.
   */
  lemma DailyCheckSchedules(w: World, env: Env, c: Config, today: string, resp: ScheduleResponse, now: int)
    requires c.nhl.Some? && IsOk(resp.status)
    requires TeamGame(GetTodaysSchedule(today, resp).value, c.nhl.value).Some?
    ensures var r := DailyGameCheckJob(w, env, Found(c), today, resp, now);
      var game := TeamGame(GetTodaysSchedule(today, resp).value, c.nhl.value).value;
      var t := PregameTime(game);
      r == ScheduleCreateGameThread(DelKey(w, DailyCheckAttempts), env, Found(c), game, t, now) &&
      (!(Stale(game, t, now) && IsTerminal(GameState(game))) &&
       !AlreadyScheduled(w, env, JobCreate(game.id), GdtJobTitle(game)) ==>
         Registered(r, env, CreateJob(game, if t < now then now else t), JobCreate(game.id)))
  {
    var game := TeamGame(GetTodaysSchedule(today, resp).value, c.nhl.value).value;
    var w1 := DelKey(w, DailyCheckAttempts);
    FetchedStep(w, env, c, today, resp, now);
    ScheduleCreateGameCases(w1, env, Found(c), game, PregameTime(game), now);
    assert Get(w1, JobCreate(game.id)) == Get(w, JobCreate(game.id));
  }
}
