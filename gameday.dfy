/**
 * The game-day thread (GDT) jobs of src/server/leagues/nhl/jobs/gameday.ts: creating the
 * thread (or re-arming the one that exists), its live update loop, and scheduling its creation
 * and its updates.
 *
 * As in `Postgame`, each handler is a function on `World` and a method ending in `On` that
 * performs it on a `Platform` and is proved to end in the state the function gives.
 */
module Gameday {
  import opened Wrappers
  import opened Strings
  import opened Constants
  import opened Api
  import opened Host
  import opened JobsUtil
  import opened Threads
  import opened Helpers
  import opened FormatHeader
  import opened Formatter
  import opened Scheduling
  import opened Postgame
  import Seqs

  // ---------------------------------------------------------------------------------------
  // scheduleNextLiveUpdate

  function LiveUpdateJob(p: PostId, g: GameId, runAt: int): Job
  {
    Job("Thread-update-" + p, NextLiveUpdate, JobData(Some(g), Some(p), Some("Thread-Update-" + p)), runAt)
  }

  /** `scheduleNextLiveUpdate(subredditName, postId, gameId, updateTime)`. */
  function ScheduleNextLiveUpdate(w: World, env: Env, p: PostId, g: GameId, runAt: int): (r: World)
    ensures Registered(r, env, LiveUpdateJob(p, g, runAt), JobGdtUpdate(g))
    ensures NewJobsNamed(w, r, {NextLiveUpdate}) && w.jobs.Keys <= r.jobs.Keys
    ensures forall k :: k != JobGdtUpdate(g) ==> Get(r, k) == Get(w, k)
    ensures r.posts == w.posts && r.mail == w.mail
  {
    RunAndRecord(w, env, LiveUpdateJob(p, g, runAt), JobGdtUpdate(g))
  }

  method ScheduleNextLiveUpdateOn(h: Platform, env: Env, p: PostId, g: GameId, runAt: int)
    modifies h
    ensures h.W() == ScheduleNextLiveUpdate(old(h.W()), env, p, g, runAt)
  {
    RunAndRecordOn(h, env, LiveUpdateJob(p, g, runAt), JobGdtUpdate(g));
  }

  // ---------------------------------------------------------------------------------------
  // scheduleCreateGameThread

  /** The `jobTitle` of a GDT creation job, e.g. "GDT-TOR@MTL-2025020001". */
  function GdtJobTitle(game: Game): string
  {
    "GDT-" + game.awayTeam.abbrev + "@" + game.homeTeam.abbrev + "-" + NatToString(game.id)
  }

  function CreateJob(game: Game, runAt: int): Job
  {
    Job("create-thread-" + NatToString(game.id), CreateGameThread,
        JobData(Some(game.id), None, Some(GdtJobTitle(game))), runAt)
  }

  /** A creation time in the past, for a game that started longer ago than the threshold. */
  predicate Stale(game: Game, scheduledTime: int, now: int)
  {
    scheduledTime < now && now - game.startTimeUtc > LateScheduleThreshold
  }

  /**
   * `scheduleCreateGameThread(subredditName, game, scheduledTime)`: a stale creation for a
   * finished game schedules the post-game thread now instead; any other creation time in the
   * past becomes now. A creation job already scheduled under the same title suppresses
   * scheduling. `cfg` is what the nested configuration read returns.
   */
  function ScheduleCreateGameThread(w: World, env: Env, cfg: ConfigLookup, game: Game, scheduledTime: int, now: int): World
  {
    if Stale(game, scheduledTime, now) && IsTerminal(GameState(game)) then
      ScheduleCreatePostgameThread(w, env, cfg, game, now)
    else
      var runAt := if scheduledTime < now then now else scheduledTime;
      if AlreadyScheduled(w, env, JobCreate(game.id), GdtJobTitle(game)) then w
      else RunAndRecord(w, env, CreateJob(game, runAt), JobCreate(game.id))
  }

  method ScheduleCreateGameThreadOn(h: Platform, env: Env, cfg: ConfigLookup, game: Game, scheduledTime: int, now: int)
    modifies h
    ensures h.W() == ScheduleCreateGameThread(old(h.W()), env, cfg, game, scheduledTime, now)
  {
    var jobTitle := GdtJobTitle(game);
    var runAt := scheduledTime;
    if scheduledTime < now {
      var ageMs := now - game.startTimeUtc;
      if ageMs <= LateScheduleThreshold {
        runAt := now;
      } else if game.gameState == Some(Final) || game.gameState == Some(Off) {
        ScheduleCreatePostgameThreadOn(h, env, cfg, game, now);
        return;
      } else {
        runAt := now;
      }
    }
    var scheduled := AlreadyScheduledOn(h, env, JobCreate(game.id), jobTitle);
    if scheduled {
      return;
    }
    RunAndRecordOn(h, env, CreateJob(game, runAt), JobCreate(game.id));
  }

  /**
   * The staleness routing: a stale creation for a FINAL or OFF game schedules only the
   * post-game thread, at `now`. Any other creation is scheduled, under `create-thread-<id>`, at
   * the requested time, or at `now` when that is in the past, unless a job with the same title
   * is already scheduled.
   */
  lemma ScheduleCreateGameCases(w: World, env: Env, cfg: ConfigLookup, game: Game, scheduledTime: int, now: int)
    ensures var r := ScheduleCreateGameThread(w, env, cfg, game, scheduledTime, now);
      Stale(game, scheduledTime, now) && IsTerminal(GameState(game)) ==>
        r == ScheduleCreatePostgameThread(w, env, cfg, game, now)
    ensures var r := ScheduleCreateGameThread(w, env, cfg, game, scheduledTime, now);
      !(Stale(game, scheduledTime, now) && IsTerminal(GameState(game))) ==>
        (AlreadyScheduled(w, env, JobCreate(game.id), GdtJobTitle(game)) ==> r == w) &&
        (!AlreadyScheduled(w, env, JobCreate(game.id), GdtJobTitle(game)) ==>
           var runAt := if scheduledTime < now then now else scheduledTime;
           runAt >= now && (scheduledTime >= now ==> runAt == scheduledTime) &&
           Registered(r, env, CreateJob(game, runAt), JobCreate(game.id)) &&
           NewJobsNamed(w, r, {CreateGameThread}) && r.posts == w.posts && r.mail == w.mail)
  {
  }

  /** Scheduling a thread's creation touches no key but thread records: no counter, no daily-check id. */
  lemma ScheduleCreateGameKeepsOthers(w: World, env: Env, cfg: ConfigLookup, game: Game, scheduledTime: int, now: int)
    ensures var r := ScheduleCreateGameThread(w, env, cfg, game, scheduledTime, now);
      KeepsOtherKeys(w, r) && r.posts.Keys == w.posts.Keys
  {
    if cfg.Found? {
      SchedulePostgameKeepsOthers(w, env, cfg.config, game, now);
    }
  }

  // ---------------------------------------------------------------------------------------
  // createGameThreadJob

  /** The first update of a new thread: at puck-drop, or in `LIVE_GAME_DEFAULT` when the game is already live. */
  function FirstUpdateTime(game: Game, now: int): int
  {
    var gameState := GameState(game);
    if gameState == Live || gameState == Crit then now + LiveGameDefault else game.startTimeUtc
  }

  /**
   * Lines 120-151: format and submit the thread; on success record both directions of the
   * mapping and, unless the game is FINAL or OFF, schedule its first update.
   */
  function CreateGdt(w: World, env: Env, c: Config, fmt: Formatting, g: GameId, game: Game, now: int): World
  {
    var (w1, created) := TryCreateThread(w, env, fmt.title(game), fmt.body(game),
                                         c.gameday.sticky, c.gameday.sort);
    if created.None? then Notify(w1, "Game day thread creation failed")
    else RecordGdt(w1, env, g, env.submit.id, game, now)
  }

  /** Lines 131-144: both directions of the mapping, then the first update unless the game is over. */
  function RecordGdt(w: World, env: Env, g: GameId, id: PostId, game: Game, now: int): World
  {
    var w1 := SetKey(SetKey(w, GameToThread(g), id), ThreadToGame(id), NatToString(g));
    if IsTerminal(GameState(game)) then w1
    else ScheduleNextLiveUpdate(w1, env, id, game.id, FirstUpdateTime(game, now))
  }

  method CreateGdtOn(h: Platform, env: Env, c: Config, fmt: Formatting, g: GameId, game: Game, now: int)
    modifies h
    ensures h.W() == CreateGdt(old(h.W()), env, c, fmt, g, game, now)
  {
    var title := fmt.title(game);
    var body := fmt.body(game);
    var result := TryCreateThreadOn(h, env, title, body, c.gameday.sticky, c.gameday.sort);
    if result.None? {
      h.SendMail("Game day thread creation failed");
      return;
    }
    RecordGdtOn(h, env, g, result.value.id, game, now);
  }

  method RecordGdtOn(h: Platform, env: Env, g: GameId, id: PostId, game: Game, now: int)
    modifies h
    ensures h.W() == RecordGdt(old(h.W()), env, g, id, game, now)
  {
    h.Write(GameToThread(g), id);
    h.Write(ThreadToGame(id), NatToString(g));
    if game.gameState.None? || (game.gameState.value != Final && game.gameState.value != Off) {
      var updateTime := game.startTimeUtc;
      if game.gameState == Some(Live) || game.gameState == Some(Crit) {
        updateTime := now + LiveGameDefault;
      }
      ScheduleNextLiveUpdateOn(h, env, id, game.id, updateTime);
    }
  }

  /**
   * Lines 82-96: a thread exists for a game that is over: the thread is cleaned up, then the
   * recorded post-game thread is cleaned up too, or, when there is none, its creation is
   * scheduled.
   */
  function CloseFinishedGame(w: World, env: Env, c: Config, g: GameId, p: PostId, game: Game, now: int): World
  {
    var w1 := CleanupThread(w, env, p, c.gameday.lock).0;
    var pgt := Get(w1, GameToPgt(g));
    if Present(pgt) then CleanupThread(w1, env, pgt.value, c.postgame.lock).0
    else ScheduleCreatePostgameThread(w1, env, Found(c), game, now + LiveGameDefault)
  }

  method CloseFinishedGameOn(h: Platform, env: Env, c: Config, g: GameId, p: PostId, game: Game, now: int)
    modifies h
    ensures h.W() == CloseFinishedGame(old(h.W()), env, c, g, p, game, now)
  {
    var _ := CleanupThreadOn(h, env, p, c.gameday.lock);
    var existingPostgameThreadId := h.Read(GameToPgt(g));
    if Present(existingPostgameThreadId) {
      var _ := CleanupThreadOn(h, env, existingPostgameThreadId.value, c.postgame.lock);
    } else {
      ScheduleCreatePostgameThreadOn(h, env, Found(c), game, now + LiveGameDefault);
    }
  }

  /**
   * Lines 63-118, for a recorded thread `p` that is found: a removed one is cleaned up first;
   * for a finished game the threads are closed; otherwise a live update is scheduled unless one
   * for the game already is. The flag says whether creation goes ahead, which happens only
   * when listing the jobs throws.
   */
  function RearmFound(w: World, env: Env, c: Config, g: GameId, p: PostId, game: Game, now: int): (World, bool)
    requires p in w.posts
  {
    var w1 := if w.posts[p].removed then CleanupThread(w, env, p, c.gameday.lock).0 else w;
    if IsTerminal(GameState(game)) then (CloseFinishedGame(w1, env, c, g, p, game, now), false)
    else if env.listFails then (w1, true)
    else if HasLiveUpdateJob(w1, g) then (w1, false)
    else (ScheduleNextLiveUpdate(w1, env, p, game.id, now + LiveGameDefault), false)
  }

  /**
   * The existing-thread check of `createGameThreadJob` (lines 63-118): the world after it and
   * whether creation goes ahead. A recorded thread that cannot be found is cleaned up and
   * creation goes ahead.
   */
  function CheckExistingThread(w: World, env: Env, c: Config, g: GameId, game: Game, now: int): (World, bool)
  {
    var existing := Get(w, GameToThread(g));
    if !Present(existing) then (w, true)
    else if existing.value !in w.posts then (CleanupThread(w, env, existing.value, c.gameday.lock).0, true)
    else RearmFound(w, env, c, g, existing.value, game, now)
  }

  /**
   * `createGameThreadJob(gameId)`, given how reading the configuration turns out and what the
   * (unconditional) game fetch returned. An unreadable configuration throws before anything
   * happens.
   */
  function CreateGameThreadJob(w: World, env: Env, cfg: ConfigLookup, fmt: Formatting, g: GameId,
                               fetched: Result<Game>, now: int): World
  {
    match cfg
    case Unreadable => w
    case Absent => Notify(w, "Failed to post thread")
    case Found(c) =>
      var k := CreateThreadAttempts(g);
      match fetched
      case Failure(_) => RetryOrGiveUp(w, env, k, Attempts(w, k), RetryMaxTime, now, Some("Failed to Post GDT!"))
      case Success(game) =>
        var (w1, proceed) := CheckExistingThread(DelKey(w, k), env, c, g, game, now);
        if proceed then CreateGdt(w1, env, c, fmt, g, game, now) else w1
  }

  method RearmFoundOn(h: Platform, env: Env, c: Config, g: GameId, p: PostId, game: Game, now: int)
    returns (proceed: bool)
    requires p in h.posts
    modifies h
    ensures (h.W(), proceed) == RearmFound(old(h.W()), env, c, g, p, game, now)
  {
    var deleted := h.posts[p].removed;
    if deleted {
      var _ := CleanupThreadOn(h, env, p, c.gameday.lock);
    }
    if game.gameState == Some(Final) || game.gameState == Some(Off) {
      CloseFinishedGameOn(h, env, c, g, p, game, now);
      return false;
    }
    proceed := ArmLiveUpdateOn(h, env, g, p, game, now);
  }

  /** Lines 99-112: the listing of jobs, and a live update unless one for the game is listed. */
  method ArmLiveUpdateOn(h: Platform, env: Env, g: GameId, p: PostId, game: Game, now: int) returns (proceed: bool)
    modifies h
    ensures proceed <==> env.listFails
    ensures proceed || HasLiveUpdateJob(old(h.W()), g) ==> h.W() == old(h.W())
    ensures !proceed && !HasLiveUpdateJob(old(h.W()), g) ==>
      h.W() == ScheduleNextLiveUpdate(old(h.W()), env, p, game.id, now + LiveGameDefault)
  {
    var jobs := ListJobsOn(h, env);
    if jobs.None? {
      return true;
    }
    var thisGameJobs := Seqs.Filter(jobs.value, e => IsLiveUpdateFor(g, e));
    LiveUpdateFilter(h.W(), jobs.value, g);
    if |thisGameJobs| > 0 {
      return false;
    }
    ScheduleNextLiveUpdateOn(h, env, p, game.id, now + LiveGameDefault);
    return false;
  }

  method CheckExistingThreadOn(h: Platform, env: Env, c: Config, g: GameId, game: Game, now: int)
    returns (proceed: bool)
    modifies h
    ensures (h.W(), proceed) == CheckExistingThread(old(h.W()), env, c, g, game, now)
  {
    var existingThreadId := h.Read(GameToThread(g));
    if !Present(existingThreadId) {
      return true;
    }
    var foundPost := h.FetchPost(existingThreadId.value);
    if foundPost.None? {
      var _ := CleanupThreadOn(h, env, existingThreadId.value, c.gameday.lock);
      return true;
    }
    proceed := RearmFoundOn(h, env, c, g, existingThreadId.value, game, now);
  }

  method CreateGameThreadJobOn(h: Platform, env: Env, cfg: ConfigLookup, fmt: Formatting, g: GameId,
                               fetched: Result<Game>, now: int)
    modifies h
    ensures h.W() == CreateGameThreadJob(old(h.W()), env, cfg, fmt, g, fetched, now)
  {
    if cfg.Unreadable? {
      return;
    }
    if cfg.Absent? {
      h.SendMail("Failed to post thread");
      return;
    }
    var c := cfg.config;
    var attemptKey := CreateThreadAttempts(g);
    var attemptNumber := AttemptsOn(h, attemptKey);
    if fetched.Failure? {
      RetryOrGiveUpOn(h, env, attemptKey, attemptNumber, RetryMaxTime, now, Some("Failed to Post GDT!"));
      return;
    }
    var game := fetched.value;
    h.Delete(attemptKey);
    var proceed := CheckExistingThreadOn(h, env, c, g, game, now);
    if proceed {
      CreateGdtOn(h, env, c, fmt, g, game, now);
    }
  }

  // ---------------------------------------------------------------------------------------
  // nextLiveUpdateJob

  /** The wait before the next live update: `OVERTIME_SHOOTOUT` in overtime and shootouts. */
  function LiveDelay(game: Game): Positive
  {
    match game.periodDescriptor
    case Some(d) => if d.periodType == "OT" || d.periodType == "SO" then OvertimeShootout else LiveGameDefault
    case None => LiveGameDefault
  }

  /**
   * `game.gameState && game.gameState !== FINAL && game.gameState !== OFF` for what the fetch
   * returned; `None` is the empty object of a 304, which has no state.
   */
  predicate StillRunning(game: Option<Game>)
  {
    game.Some? && game.value.gameState.Some? && game.value.gameState.value != "" &&
    !IsTerminal(game.value.gameState.value)
  }

  /**
   * Lines 228-257: another update while the game runs; once it does not, the post-game thread
   * is scheduled when enabled (which throws for the empty object of a 304, where the title
   * cannot be formatted), and otherwise the thread is cleaned up.
   */
  function AfterLiveUpdate(w: World, env: Env, c: Config, g: GameId, p: PostId, game: Option<Game>, now: int): World
  {
    if StillRunning(game) then ScheduleNextLiveUpdate(w, env, p, g, now + LiveDelay(game.value))
    else if c.postgame.enabled then
      (if game.None? then w else ScheduleCreatePostgameThread(w, env, Found(c), game.value, now + LiveGameDefault))
    else CleanupThread(w, env, p, c.gameday.lock).0
  }

  /** The fetch and edit of lines 185-226 for the thread `p`, then the scheduling decision. */
  function UpdateGdt(w: World, env: Env, c: Config, fmt: Formatting, g: GameId, p: PostId, resp: GameResponse, now: int): World
  {
    match GetGameData(Get(w, GameEtag(g)), resp)
    case Failure(_) => ScheduleNextLiveUpdate(w, env, p, g, now + LiveGameDefault)
    case Success(data) =>
      if !data.modified then AfterLiveUpdate(w, env, c, g, p, data.game, now)
      else
        var w1 := if Truthy(data.etag) then SetKey(w, GameEtag(g), data.etag.value) else w;
        var (w2, ok) := TryUpdateThread(w1, env, p, fmt.body(data.game.value));
        if ok then AfterLiveUpdate(w2, env, c, g, p, data.game, now)
        else ScheduleNextLiveUpdate(w2, env, p, g, now + LiveGameDefault)
  }

  /**
   * `nextLiveUpdateJob(gameId)` given how reading the configuration turns out and the response
   * to the conditional fetch it makes with the stored ETag. A recorded thread that cannot be
   * found is cleaned up (which, for a post that cannot be found, changes nothing) and the
   * update goes on.
   */
  function NextLiveUpdateJob(w: World, env: Env, cfg: ConfigLookup, fmt: Formatting, g: GameId,
                             resp: GameResponse, now: int): World
  {
    match cfg
    case Found(c) =>
      var pid := Get(w, GameToThread(g));
      if !Present(pid) then w
      else
        var w1 := if pid.value in w.posts then w else CleanupThread(w, env, pid.value, c.gameday.lock).0;
        UpdateGdt(w1, env, c, fmt, g, pid.value, resp, now)
    case _ => w
  }

  method AfterLiveUpdateOn(h: Platform, env: Env, c: Config, g: GameId, p: PostId, game: Option<Game>, now: int)
    modifies h
    ensures h.W() == AfterLiveUpdate(old(h.W()), env, c, g, p, game, now)
  {
    if game.Some? && game.value.gameState.Some? && game.value.gameState.value != "" &&
       game.value.gameState.value != Final && game.value.gameState.value != Off {
      var updateTime := now + LiveGameDefault;
      var d := game.value.periodDescriptor;
      if d.Some? && (d.value.periodType == "OT" || d.value.periodType == "SO") {
        updateTime := now + OvertimeShootout;
      }
      ScheduleNextLiveUpdateOn(h, env, p, g, updateTime);
    } else if c.postgame.enabled {
      if game.Some? {
        ScheduleCreatePostgameThreadOn(h, env, Found(c), game.value, now + LiveGameDefault);
      }
    } else {
      var _ := CleanupThreadOn(h, env, p, c.gameday.lock);
    }
  }

  method UpdateGdtOn(h: Platform, env: Env, c: Config, fmt: Formatting, g: GameId, p: PostId, resp: GameResponse, now: int)
    modifies h
    ensures h.W() == UpdateGdt(old(h.W()), env, c, fmt, g, p, resp, now)
  {
    var currentEtag := h.Read(GameEtag(g));
    var result := GetGameData(currentEtag, resp);
    if result.Failure? {
      ScheduleNextLiveUpdateOn(h, env, p, g, now + LiveGameDefault);
      return;
    }
    var data := result.value;
    if data.modified {
      if Truthy(data.etag) {
        h.Write(GameEtag(g), data.etag.value);
      }
      var body := fmt.body(data.game.value);
      var ok := TryUpdateThreadOn(h, env, p, body);
      if !ok {
        ScheduleNextLiveUpdateOn(h, env, p, g, now + LiveGameDefault);
        return;
      }
    }
    AfterLiveUpdateOn(h, env, c, g, p, data.game, now);
  }

  method NextLiveUpdateJobOn(h: Platform, env: Env, cfg: ConfigLookup, fmt: Formatting, g: GameId,
                             resp: GameResponse, now: int)
    modifies h
    ensures h.W() == NextLiveUpdateJob(old(h.W()), env, cfg, fmt, g, resp, now)
  {
    if !cfg.Found? {
      return;
    }
    var c := cfg.config;
    var postId := h.Read(GameToThread(g));
    if !Present(postId) {
      return;
    }
    var existingPost := h.FetchPost(postId.value);
    if existingPost.None? {
      var _ := CleanupThreadOn(h, env, postId.value, c.gameday.lock);
    }
    UpdateGdtOn(h, env, c, fmt, g, postId.value, resp, now);
  }

  // ---------------------------------------------------------------------------------------
  // Properties

  /**
   * A creation job whose fetch fails leaves the posts alone; below five attempts it counts one
   * more and schedules only the daily check, after the backoff capped at `RETRY_MAX_TIME`; at
   * five it forgets the counter, schedules nothing and sends "Failed to Post GDT!".
   */
  lemma CreateFetchFailure(w: World, env: Env, c: Config, fmt: Formatting, g: GameId, err: string, now: int)
    ensures var r := CreateGameThreadJob(w, env, Found(c), fmt, g, Failure(err), now);
      var k := CreateThreadAttempts(g); var a := Attempts(w, k);
      r.posts == w.posts &&
      (CanRetry(a) ==>
        Attempts(r, k) == Some(a.value + 1) && r.mail == w.mail &&
        Registered(r, env, DailyJob(now + Backoff(a.value, RetryMaxTime)), JobDailyCheck) &&
        NewJobsNamed(w, r, {DailyGameCheck})) &&
      (!CanRetry(a) ==> k !in r.store && r.jobs == w.jobs && r.mail == w.mail + ["Failed to Post GDT!"])
  {
    var k := CreateThreadAttempts(g);
    RetryStep(w, env, k, Attempts(w, k), RetryMaxTime, now, Some("Failed to Post GDT!"));
  }

  /** Scheduling a live update touches no key but its own record. */
  lemma LiveUpdateKeepsOthers(w: World, env: Env, p: PostId, g: GameId, runAt: int)
    ensures KeepsOtherKeys(w, ScheduleNextLiveUpdate(w, env, p, g, runAt))
  {
  }

  /**
   * Lines 82-96, for a game that is over: no post and no notice is added, and the only job that
   * may be added is the PGT's creation; with a PGT recorded after the cleanup, that PGT is
   * cleaned up too, and otherwise its creation is registered at `now + LIVE_GAME_DEFAULT`
   * (when enabled and not already scheduled).
   */
  lemma FinishedGameCloses(w: World, env: Env, c: Config, g: GameId, p: PostId, game: Game, now: int)
    ensures var r := CloseFinishedGame(w, env, c, g, p, game, now);
      r.posts.Keys == w.posts.Keys && r.mail == w.mail && KeepsOtherKeys(w, r) &&
      NewJobsNamed(w, r, {CreatePostgameThread})
    ensures var r := CloseFinishedGame(w, env, c, g, p, game, now);
      var w1 := CleanupThread(w, env, p, c.gameday.lock).0;
      var pgt := Get(w1, GameToPgt(g));
      (Present(pgt) ==> r == CleanupThread(w1, env, pgt.value, c.postgame.lock).0) &&
      (!Present(pgt) && c.postgame.enabled && !AlreadyScheduled(w1, env, JobPostgame(game.id), PgtJobTitle(game)) ==>
         Registered(r, env, PostgameJob(game, now + LiveGameDefault), JobPostgame(game.id)))
  {
    var w1 := CleanupThread(w, env, p, c.gameday.lock).0;
    CleanupKeepsOthers(w, env, p, c.gameday.lock);
    CleanupAddsNothing(w, env, p, c.gameday.lock);
    var pgt := Get(w1, GameToPgt(g));
    var r := CloseFinishedGame(w, env, c, g, p, game, now);
    if Present(pgt) {
      CleanupKeepsOthers(w1, env, pgt.value, c.postgame.lock);
      CleanupAddsNothing(w1, env, pgt.value, c.postgame.lock);
      NewJobsNamedTrans(w, w1, r, {}, {});
    } else {
      SchedulePostgameKeepsOthers(w1, env, c, game, now + LiveGameDefault);
      ScheduleCreatePostgameCases(w1, env, Found(c), game, now + LiveGameDefault);
      if !c.postgame.enabled {
        NewJobsNamedTrans(w, w1, r, {}, {});
      } else {
        NewJobsNamedTrans(w, w1, r, {}, {CreatePostgameThread});
      }
    }
  }

  /**
   * The check of lines 63-118: creation goes ahead exactly when no thread is recorded, the
   * recorded one cannot be found, or listing the jobs throws for a game that is not over.
   */
  lemma ExistingThreadProceeds(w: World, env: Env, c: Config, g: GameId, game: Game, now: int)
    ensures var e := Get(w, GameToThread(g));
      CheckExistingThread(w, env, c, g, game, now).1 <==>
        !Present(e) || e.value !in w.posts || (!IsTerminal(GameState(game)) && env.listFails)
  {
  }

  /** The check adds no post and no notice and touches no key but thread records. */
  lemma ExistingThreadFrame(w: World, env: Env, c: Config, g: GameId, game: Game, now: int)
    ensures var r := CheckExistingThread(w, env, c, g, game, now).0;
      r.posts.Keys == w.posts.Keys && r.mail == w.mail && KeepsOtherKeys(w, r)
  {
    var e := Get(w, GameToThread(g));
    if Present(e) {
      var p := e.value;
      CleanupKeepsOthers(w, env, p, c.gameday.lock);
      CleanupAddsNothing(w, env, p, c.gameday.lock);
      if p in w.posts {
        var w1 := if w.posts[p].removed then CleanupThread(w, env, p, c.gameday.lock).0 else w;
        if IsTerminal(GameState(game)) {
          FinishedGameCloses(w1, env, c, g, p, game, now);
        } else {
          LiveUpdateKeepsOthers(w1, env, p, game.id, now + LiveGameDefault);
        }
      }
    }
  }

  /**
   * Lines 74-112, for a recorded thread that is found and a game that is not over: a removed
   * thread is cleaned up first, and then, like a live one, gets a live update in
   * `LIVE_GAME_DEFAULT` unless one for the game is already listed. The thread is re-armed,
   * never replaced.
   */
  lemma RearmLiveUpdate(w: World, env: Env, c: Config, g: GameId, game: Game, now: int)
    requires var e := Get(w, GameToThread(g)); Present(e) && e.value in w.posts
    requires !IsTerminal(GameState(game)) && !env.listFails
    ensures var r := CheckExistingThread(w, env, c, g, game, now).0;
      var p := Get(w, GameToThread(g)).value;
      var w1 := if w.posts[p].removed then CleanupThread(w, env, p, c.gameday.lock).0 else w;
      (HasLiveUpdateJob(w1, g) ==> r == w1) &&
      (!HasLiveUpdateJob(w1, g) ==>
         Registered(r, env, LiveUpdateJob(p, game.id, now + LiveGameDefault), JobGdtUpdate(game.id)) &&
         NewJobsNamed(w1, r, {NextLiveUpdate}))
  {
  }

  /**
   * No second post while a live one is recorded: when the recorded thread is found and either
   * the game is over or the jobs could be listed, the job creates no post.
   */
  lemma NoDuplicateThread(w: World, env: Env, c: Config, fmt: Formatting, g: GameId, game: Game, now: int)
    requires var e := Get(w, GameToThread(g)); Present(e) && e.value in w.posts
    requires IsTerminal(GameState(game)) || !env.listFails
    ensures var r := CreateGameThreadJob(w, env, Found(c), fmt, g, Success(game), now);
      r.posts.Keys == w.posts.Keys && r.mail == w.mail
  {
    var w0 := DelKey(w, CreateThreadAttempts(g));
    assert Get(w0, GameToThread(g)) == Get(w, GameToThread(g));
    ExistingThreadProceeds(w0, env, c, g, game, now);
    ExistingThreadFrame(w0, env, c, g, game, now);
  }

  /**
   * Lines 131-144: both directions of the mapping are recorded and, unless the game is over, the
   * first update is registered at `FirstUpdateTime`: puck-drop, or `LIVE_GAME_DEFAULT` from now
   * for a game already LIVE or CRIT. For a game that is over no job is added.
   */
  lemma GdtRecorded(w: World, env: Env, g: GameId, id: PostId, game: Game, now: int)
    ensures var r := RecordGdt(w, env, g, id, game, now);
      Get(r, GameToThread(g)) == Some(id) && Present(Get(r, ThreadToGame(id))) &&
      NumberOf(Get(r, ThreadToGame(id)).value) == Some(g) &&
      r.posts == w.posts && r.mail == w.mail && KeepsOtherKeys(w, r) &&
      (IsTerminal(GameState(game)) ==> r.jobs == w.jobs) &&
      (!IsTerminal(GameState(game)) ==>
         Registered(r, env, LiveUpdateJob(id, game.id, FirstUpdateTime(game, now)), JobGdtUpdate(game.id)) &&
         NewJobsNamed(w, r, {NextLiveUpdate}))
    ensures var t := FirstUpdateTime(game, now);
      (GameState(game) == Live || GameState(game) == Crit ==> t == now + LiveGameDefault) &&
      (GameState(game) != Live && GameState(game) != Crit ==> t == game.startTimeUtc)
  {
    NumberOfNatToString(g);
    var w1 := SetKey(SetKey(w, GameToThread(g), id), ThreadToGame(id), NatToString(g));
    assert Get(w1, GameToThread(g)) == Some(id) && Get(w1, ThreadToGame(id)) == Some(NatToString(g));
    forall k | !IsThreadRecord(k) ensures Get(w1, k) == Get(w, k) {
      assert k != GameToThread(g) && k != ThreadToGame(id);
    }
  }

  /**
   * Lines 125-151: a rejected submission sends "Game day thread creation failed" and changes
   * nothing else; an accepted one creates the post with the title, the body and the configured
   * sticky and sort settings, and then records it as `RecordGdt` does.
   */
  lemma GdtCreated(w: World, env: Env, c: Config, fmt: Formatting, g: GameId, game: Game, now: int)
    ensures var r := CreateGdt(w, env, c, fmt, g, game, now);
      env.submit.Rejected? ==> r == Notify(w, "Game day thread creation failed")
    ensures var r := CreateGdt(w, env, c, fmt, g, game, now);
      env.submit.Accepted? ==>
        var id := env.submit.id;
        id in r.posts && r.posts[id].title == fmt.title(game) && r.posts[id].text == AppendFooter(fmt.body(game)) &&
        r.posts[id].stickied == c.gameday.sticky && r.posts[id].sort == c.gameday.sort &&
        r == RecordGdt(TryCreateThread(w, env, fmt.title(game), fmt.body(game), c.gameday.sticky, c.gameday.sort).0,
                       env, g, id, game, now)
  {
    if env.submit.Accepted? {
      var w1 := TryCreateThread(w, env, fmt.title(game), fmt.body(game), c.gameday.sticky, c.gameday.sort).0;
      GdtRecorded(w1, env, g, env.submit.id, game, now);
    }
  }

  /**
   * With the program's own formatter, an accepted game-day thread of a game that is not over is
   * titled "Game Day Thread | away @ home | date time", and its text, the formatted body and
   * the footer, carries the game's status line.
   */
  lemma GdtPostFormatted(w: World, env: Env, c: Config, locale: Locale, g: GameId, game: Game, now: int)
    requires env.submit.Accepted?
    ensures var r := CreateGdt(w, env, c, Format(locale), g, game, now);
      env.submit.id in r.posts &&
      var post := r.posts[env.submit.id];
      (!IsTerminal(GameState(game)) ==>
         post.title == "Game Day Thread | " + game.awayTeam.abbrev + " @ " + game.homeTeam.abbrev + " | " +
                       (if game.gameDate != "" then game.gameDate else locale.localDate(game.startTimeUtc)) + " " +
                       locale.localTime(game.startTimeUtc)) &&
      |post.title| >= 3 && (post.title[..3] == "PGT" <==> IsTerminal(GameState(game))) &&
      post.text == AppendFooter(FormatThreadBody(game, locale)) && Within(StatusLine(game), post.text)
  {
    GdtCreated(w, env, c, Format(locale), g, game, now);
    FormatTitleAndStatus(game, locale);
    WithinExtend(StatusLine(game), "", FormatThreadBody(game, locale), Footer);
  }

  /** Creating the thread touches no key but thread records, whether or not the submission is accepted. */
  lemma CreateGdtKeepsOthers(w: World, env: Env, c: Config, fmt: Formatting, g: GameId, game: Game, now: int)
    ensures KeepsOtherKeys(w, CreateGdt(w, env, c, fmt, g, game, now))
  {
    var w1 := TryCreateThread(w, env, fmt.title(game), fmt.body(game), c.gameday.sticky, c.gameday.sort).0;
    assert w1.store == w.store;
    if env.submit.Accepted? {
      GdtRecorded(w1, env, g, env.submit.id, game, now);
    }
  }

  /**
   * A successful fetch clears the attempt counter, and nothing the job does afterwards writes
   * it again.
   */
  lemma CreateClearsCounter(w: World, env: Env, c: Config, fmt: Formatting, g: GameId, game: Game, now: int)
    ensures CreateThreadAttempts(g) !in CreateGameThreadJob(w, env, Found(c), fmt, g, Success(game), now).store
  {
    var k := CreateThreadAttempts(g);
    var w0 := DelKey(w, k);
    var check := CheckExistingThread(w0, env, c, g, game, now);
    var r := if check.1 then CreateGdt(check.0, env, c, fmt, g, game, now) else check.0;
    assert CreateGameThreadJob(w, env, Found(c), fmt, g, Success(game), now) == r;
    assert !IsThreadRecord(k);
    ExistingThreadFrame(w0, env, c, g, game, now);
    assert Get(check.0, k) == Get(w0, k);
    if check.1 {
      CreateGdtKeepsOthers(check.0, env, c, fmt, g, game, now);
      assert Get(r, k) == Get(check.0, k);
    }
  }

  /** The wait before the next live update is `OVERTIME_SHOOTOUT` exactly in overtime and shootouts. */
  lemma LiveDelayCases(game: Game)
    ensures LiveDelay(game) == OvertimeShootout <==>
      game.periodDescriptor.Some? && (game.periodDescriptor.value.periodType == "OT" || game.periodDescriptor.value.periodType == "SO")
    ensures LiveDelay(game) == OvertimeShootout || LiveDelay(game) == LiveGameDefault
  {
  }

  /** The thread whose update this is, when one is recorded. */
  function RecordedGdt(w: World, g: GameId): Option<PostId>
  {
    var pid := Get(w, GameToThread(g));
    if Present(pid) then pid else None
  }

  /** Whether the edit of a live update happens and succeeds (vacuous for an unmodified result). */
  predicate EditOk(w: World, env: Env, p: PostId, d: GameData)
  {
    d.modified ==> p in w.posts && !env.editFails
  }

  /**
   * The live update loop without a recorded thread does nothing. With one, a failed fetch or a
   * failed edit registers the next update in `LIVE_GAME_DEFAULT` and leaves the posts alone;
   * otherwise, while the game runs, the next update is registered after `LiveDelay`. The job
   * adds no job but live updates and a PGT's creation, and sends no notice.
   */
  lemma LiveUpdateLoop(w: World, env: Env, c: Config, fmt: Formatting, g: GameId, resp: GameResponse, now: int)
    ensures var r := NextLiveUpdateJob(w, env, Found(c), fmt, g, resp, now);
      RecordedGdt(w, g).None? ==> r == w
    ensures var r := NextLiveUpdateJob(w, env, Found(c), fmt, g, resp, now);
      var pid := RecordedGdt(w, g); var d := GetGameData(Get(w, GameEtag(g)), resp);
      pid.Some? ==>
        r.mail == w.mail && NewJobsNamed(w, r, {NextLiveUpdate, CreatePostgameThread}) &&
        (d.Failure? || !EditOk(w, env, pid.value, d.value) ==>
           r.posts == w.posts &&
           Registered(r, env, LiveUpdateJob(pid.value, g, now + LiveGameDefault), JobGdtUpdate(g))) &&
        (d.Success? && EditOk(w, env, pid.value, d.value) && StillRunning(d.value.game) ==>
           Registered(r, env, LiveUpdateJob(pid.value, g, now + LiveDelay(d.value.game.value)), JobGdtUpdate(g)))
  {
    var pid := RecordedGdt(w, g);
    if pid.Some? {
      var p := pid.value;
      assert CleanupThread(w, env, p, c.gameday.lock).0 == w || p in w.posts;
      var d := GetGameData(Get(w, GameEtag(g)), resp);
      if d.Success? {
        var data := d.value;
        var w1 := if data.modified && Truthy(data.etag) then SetKey(w, GameEtag(g), data.etag.value) else w;
        var w2 := if data.modified then TryUpdateThread(w1, env, p, fmt.body(data.game.value)).0 else w1;
        if EditOk(w, env, p, data) && !StillRunning(data.game) {
          GameOverStep(w2, env, c, g, p, data.game, now);
          NewJobsNamedTrans(w, w2, NextLiveUpdateJob(w, env, Found(c), fmt, g, resp, now), {}, {CreatePostgameThread});
        }
      }
    }
  }

  /**
   * Lines 248-257: once the update sees no running game, no further live update is added:
   * with post-game threads enabled the PGT's creation is scheduled (nothing at all for the
   * empty object of a 304), and otherwise the thread is cleaned up.
   */
  lemma GameOverStep(w: World, env: Env, c: Config, g: GameId, p: PostId, game: Option<Game>, now: int)
    requires !StillRunning(game) && p != ""
    ensures var r := AfterLiveUpdate(w, env, c, g, p, game, now);
      NewJobsNamed(w, r, {CreatePostgameThread}) && r.mail == w.mail && r.posts.Keys == w.posts.Keys &&
      (c.postgame.enabled && game.None? ==> r == w) &&
      (c.postgame.enabled && game.Some? && !AlreadyScheduled(w, env, JobPostgame(game.value.id), PgtJobTitle(game.value)) ==>
         Registered(r, env, PostgameJob(game.value, now + LiveGameDefault), JobPostgame(game.value.id))) &&
      (!c.postgame.enabled ==>
         NewJobsNamed(w, r, {}) &&
         (p in w.posts && w.posts[p].author == AppName ==>
            p in r.posts && !r.posts[p].stickied && (c.gameday.lock ==> r.posts[p].locked)))
  {
    if c.postgame.enabled && game.Some? {
      ScheduleCreatePostgameCases(w, env, Found(c), game.value, now + LiveGameDefault);
      SchedulePostgameKeepsOthers(w, env, c, game.value, now + LiveGameDefault);
    } else if !c.postgame.enabled {
      CleanupAddsNothing(w, env, p, c.gameday.lock);
      if p in w.posts {
        var q := UnstickyPost(w.posts[p]);
        assert q.author == w.posts[p].author;
        assert LockPost(q, c.gameday.lock).stickied == q.stickied;
      }
    }
  }

  /**
   * A fresh result stores its non-empty ETag before the edit, and the edit, when the thread
   * exists and the edit succeeds, makes the body the formatted game with the footer. The ETag
   * stays stored whenever the thread is not cleaned up afterwards: while the game runs or when
   * the edit failed. An unmodified result (a 304) never edits the text of the thread.
   */
  lemma LiveUpdateEdits(w: World, env: Env, c: Config, fmt: Formatting, g: GameId, resp: GameResponse, now: int)
    requires RecordedGdt(w, g).Some?
    ensures var r := NextLiveUpdateJob(w, env, Found(c), fmt, g, resp, now);
      var p := RecordedGdt(w, g).value; var d := GetGameData(Get(w, GameEtag(g)), resp);
      (d.Success? && d.value.modified && p in w.posts && !env.editFails ==>
         p in r.posts && r.posts[p].text == AppendFooter(fmt.body(resp.body))) &&
      (d.Success? && !d.value.modified && p in w.posts ==> p in r.posts && r.posts[p].text == w.posts[p].text) &&
      ((d.Success? && d.value.modified && Truthy(resp.etagHeader) && (StillRunning(d.value.game) || !EditOk(w, env, p, d.value))) ==>
         Get(r, GameEtag(g)) == resp.etagHeader)
  {
    var p := RecordedGdt(w, g).value;
    var d := GetGameData(Get(w, GameEtag(g)), resp);
    assert CleanupThread(w, env, p, c.gameday.lock).0 == w || p in w.posts;
    assert NextLiveUpdateJob(w, env, Found(c), fmt, g, resp, now) == UpdateGdt(w, env, c, fmt, g, p, resp, now);
    if d.Success? {
      var data := d.value;
      var w1 := if data.modified && Truthy(data.etag) then SetKey(w, GameEtag(g), data.etag.value) else w;
      var w2 := if data.modified then TryUpdateThread(w1, env, p, fmt.body(data.game.value)).0 else w1;
      if !StillRunning(data.game) && !c.postgame.enabled {
        CleanupAddsNothing(w2, env, p, c.gameday.lock);
      }
    }
  }

  /**
   * The 304 quirk: an unmodified result carries no game state, so the job takes the "game
   * finished" branch. No live update is registered: with post-game threads enabled nothing at
   * all happens (scheduling the PGT throws on the empty object), and otherwise the thread is
   * cleaned up, even in the middle of a game.
   */
  lemma NotModifiedEndsLoop(w: World, env: Env, c: Config, fmt: Formatting, g: GameId, resp: GameResponse, now: int)
    requires RecordedGdt(w, g).Some? && resp.status == 304
    ensures var r := NextLiveUpdateJob(w, env, Found(c), fmt, g, resp, now);
      var p := RecordedGdt(w, g).value;
      NewJobsNamed(w, r, {}) &&
      (c.postgame.enabled ==> r == w) &&
      (!c.postgame.enabled ==> r == CleanupThread(w, env, p, c.gameday.lock).0)
  {
    var p := RecordedGdt(w, g).value;
    assert CleanupThread(w, env, p, c.gameday.lock).0 == w || p in w.posts;
    if !c.postgame.enabled {
      CleanupAddsNothing(w, env, p, c.gameday.lock);
    }
  }
}
