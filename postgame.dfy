/**
 * The post-game thread (PGT) jobs of src/server/leagues/nhl/jobs/postgame.ts: creating the
 * thread, its update loop, and scheduling its creation, its updates and its cleanup.
 *
 * Each handler is a function on `World` stating its effect and a method of the same name,
 * ending in `On`, that performs it on a `Platform` step by step and is proved to end in the
 * state the function gives. The subreddit configuration is given as the outcome of reading it
 * (`ConfigLookup`); the NHL API's answer, the current time and the thread formatting's time
 * zone are parameters.
 */
module Postgame {
  import opened Wrappers
  import opened Strings
  import opened Constants
  import opened Api
  import opened Host
  import opened Threads
  import opened Helpers
  import opened FormatHeader
  import opened Formatter
  import opened Scheduling

  /** The text before the PGT's URL in the comment that closes the game-day thread (value not shown). */
  const ClosedGdtBase: string

  // ---------------------------------------------------------------------------------------
  // Scheduling

  function PgtUpdateJob(p: PostId, g: GameId, runAt: int): Job
  {
    Job("PGT-update-" + p, NextPgtUpdate, JobData(Some(g), Some(p), Some("PGT-Update-" + p)), runAt)
  }

  /** `scheduleNextPGTUpdate(postId, gameId, updateTime)`. */
  function ScheduleNextPgtUpdate(w: World, env: Env, p: PostId, g: GameId, runAt: int): (r: World)
    ensures Registered(r, env, PgtUpdateJob(p, g, runAt), JobPgtUpdate(g))
    ensures NewJobsNamed(w, r, {NextPgtUpdate}) && w.jobs.Keys <= r.jobs.Keys
    ensures forall k :: k != JobPgtUpdate(g) ==> Get(r, k) == Get(w, k)
    ensures r.posts == w.posts && r.mail == w.mail
  {
    RunAndRecord(w, env, PgtUpdateJob(p, g, runAt), JobPgtUpdate(g))
  }

  method ScheduleNextPgtUpdateOn(h: Platform, env: Env, p: PostId, g: GameId, runAt: int)
    modifies h
    ensures h.W() == ScheduleNextPgtUpdate(old(h.W()), env, p, g, runAt)
  {
    RunAndRecordOn(h, env, PgtUpdateJob(p, g, runAt), JobPgtUpdate(g));
  }

  function CleanupJob(p: PostId, g: GameId, runAt: int): Job
  {
    Job("PGT-cleanup-" + p, PgtCleanup, JobData(Some(g), Some(p), Some("PGT-Cleanup-" + p)), runAt)
  }

  /** `scheduleCleanup(postId, gameId, cleanupTime)`. */
  function ScheduleCleanup(w: World, env: Env, p: PostId, g: GameId, runAt: int): (r: World)
    ensures Registered(r, env, CleanupJob(p, g, runAt), JobPgtCleanup(g))
    ensures NewJobsNamed(w, r, {PgtCleanup}) && w.jobs.Keys <= r.jobs.Keys
    ensures forall k :: k != JobPgtCleanup(g) ==> Get(r, k) == Get(w, k)
    ensures r.posts == w.posts && r.mail == w.mail
  {
    RunAndRecord(w, env, CleanupJob(p, g, runAt), JobPgtCleanup(g))
  }

  method ScheduleCleanupOn(h: Platform, env: Env, p: PostId, g: GameId, runAt: int)
    modifies h
    ensures h.W() == ScheduleCleanup(old(h.W()), env, p, g, runAt)
  {
    RunAndRecordOn(h, env, CleanupJob(p, g, runAt), JobPgtCleanup(g));
  }

  /** The `jobTitle` of a PGT creation job, e.g. "PGT-TOR@MTL-2025020001". */
  function PgtJobTitle(game: Game): string
  {
    "PGT-" + game.awayTeam.abbrev + "@" + game.homeTeam.abbrev + "-" + NatToString(game.id)
  }

  function PostgameJob(game: Game, runAt: int): Job
  {
    Job("create-postgame-" + NatToString(game.id), CreatePostgameThread,
        JobData(Some(game.id), None, Some(PgtJobTitle(game))), runAt)
  }

  /**
   * `scheduleCreatePostgameThread(game, scheduledTime)`: with post-game threads disabled it
   * cleans up the recorded game-day thread instead; a creation job already scheduled under the
   * same title is left alone; otherwise the job is registered and its id recorded.
   */
  function ScheduleCreatePostgameThread(w: World, env: Env, cfg: ConfigLookup, game: Game, runAt: int): World
  {
    match cfg
    case Unreadable => w
    case Absent => Notify(w, "Failed to post thread")
    case Found(c) =>
      if !c.postgame.enabled then
        var gdt := Get(w, GameToThread(game.id));
        if Present(gdt) then CleanupThread(w, env, gdt.value, c.gameday.lock).0 else w
      else if AlreadyScheduled(w, env, JobPostgame(game.id), PgtJobTitle(game)) then w
      else RunAndRecord(w, env, PostgameJob(game, runAt), JobPostgame(game.id))
  }

  method ScheduleCreatePostgameThreadOn(h: Platform, env: Env, cfg: ConfigLookup, game: Game, runAt: int)
    modifies h
    ensures h.W() == ScheduleCreatePostgameThread(old(h.W()), env, cfg, game, runAt)
  {
    var jobTitle := PgtJobTitle(game);
    if cfg.Unreadable? {
      return;
    }
    if cfg.Absent? {
      h.SendMail("Failed to post thread");
      return;
    }
    var c := cfg.config;
    if !c.postgame.enabled {
      var gdt := h.Read(GameToThread(game.id));
      if Present(gdt) {
        var _ := CleanupThreadOn(h, env, gdt.value, c.gameday.lock);
      }
      return;
    }
    var scheduled := AlreadyScheduledOn(h, env, JobPostgame(game.id), jobTitle);
    if scheduled {
      return;
    }
    RunAndRecordOn(h, env, PostgameJob(game, runAt), JobPostgame(game.id));
  }

  /**
   * With post-game threads disabled nothing is scheduled and the game-day thread recorded for
   * the game, if any, is cleaned up. Enabled, a job already scheduled under the same title
   * suppresses scheduling, and otherwise the creation job is registered under
   * `create-postgame-<id>` and its id recorded for the game. A missing configuration only
   * sends a notice.
   */
  lemma ScheduleCreatePostgameCases(w: World, env: Env, cfg: ConfigLookup, game: Game, runAt: int)
    ensures var r := ScheduleCreatePostgameThread(w, env, cfg, game, runAt);
      cfg.Found? && !cfg.config.postgame.enabled ==>
        NewJobsNamed(w, r, {}) &&
        r == (if Present(Get(w, GameToThread(game.id)))
              then CleanupThread(w, env, Get(w, GameToThread(game.id)).value, cfg.config.gameday.lock).0 else w)
    ensures var r := ScheduleCreatePostgameThread(w, env, cfg, game, runAt);
      cfg.Found? && cfg.config.postgame.enabled ==>
        (AlreadyScheduled(w, env, JobPostgame(game.id), PgtJobTitle(game)) ==> r == w) &&
        (!AlreadyScheduled(w, env, JobPostgame(game.id), PgtJobTitle(game)) ==>
           Registered(r, env, PostgameJob(game, runAt), JobPostgame(game.id)) &&
           NewJobsNamed(w, r, {CreatePostgameThread}) && r.posts == w.posts)
    ensures cfg.Absent? ==> ScheduleCreatePostgameThread(w, env, cfg, game, runAt) == Notify(w, "Failed to post thread")
  {
  }

  // ---------------------------------------------------------------------------------------
  // createPostgameThreadJob

  /**
   * Lines 84-91: the game-day thread recorded for the game gets the closing comment with the
   * PGT's URL when game-day threads are locked, and is cleaned up. A missing game-day thread is
   * looked up as no post, so neither step changes anything.
   */
  function CloseGdt(w: World, env: Env, c: Config, g: GameId, url: string): World
  {
    var gdt := Get(w, GameToThread(g));
    if gdt.None? then w
    else
      var post := GetPost(w, gdt.value);
      var w1 := if c.gameday.lock && post.Some? then TryAddComment(w, gdt.value, ClosedGdtBase + url) else w;
      CleanupThread(w1, env, gdt.value, c.gameday.lock).0
  }

  method CloseGdtOn(h: Platform, env: Env, c: Config, g: GameId, url: string)
    modifies h
    ensures h.W() == CloseGdt(old(h.W()), env, c, g, url)
  {
    var gdt := h.Read(GameToThread(g));
    if gdt.None? {
      return;
    }
    var post := h.FetchPost(gdt.value);
    var completeComment := ClosedGdtBase + url;
    if c.gameday.lock && post.Some? {
      h.SavePost(gdt.value, post.value.(comments := post.value.comments + [completeComment]));
    }
    var _ := CleanupThreadOn(h, env, gdt.value, c.gameday.lock);
  }

  /** Lines 72-82: both directions of the PGT mapping, then its cleanup job and its first update. */
  function LinkPgt(w: World, env: Env, g: GameId, id: PostId, now: int): World
  {
    var w1 := SetKey(SetKey(w, GameToPgt(g), id), PgtToGame(id), NatToString(g));
    var w2 := ScheduleCleanup(w1, env, id, g, now + PgtCleanupDelay);
    ScheduleNextPgtUpdate(w2, env, id, g, now + LiveGameDefault)
  }

  /** Lines 67-99: format and submit the thread, then link it and close the game-day thread. */
  function CreatePgt(w: World, env: Env, c: Config, fmt: Formatting, g: GameId, game: Game, now: int): World
  {
    var (w1, created) := TryCreateThread(w, env, fmt.title(game), fmt.body(game),
                                         c.postgame.sticky, c.postgame.sort);
    if created.None? then Notify(w1, "Post-game thread creation failed")
    else CloseGdt(LinkPgt(w1, env, g, env.submit.id, now), env, c, g, env.submit.url)
  }

  /**
   * `createPostgameThreadJob(gameId)`, given how reading the configuration turns out and what
   * the (unconditional) game fetch returned. An unreadable configuration throws before
   * anything happens.
   */
  function CreatePostgameThreadJob(w: World, env: Env, cfg: ConfigLookup, fmt: Formatting, g: GameId,
                                   fetched: Result<Game>, now: int): World
  {
    match cfg
    case Unreadable => w
    case Absent => Notify(w, "Failed to post thread")
    case Found(c) =>
      if Present(Get(w, GameToPgt(g))) then w
      else
        var k := CreatePgtAttempts(g);
        match fetched
        case Failure(_) => RetryOrGiveUp(w, env, k, Attempts(w, k), RetryMaxTime, now, Some("Failed to Post PGT!"))
        case Success(game) => CreatePgt(w, env, c, fmt, g, game, now)
  }

  method LinkPgtOn(h: Platform, env: Env, g: GameId, id: PostId, now: int)
    modifies h
    ensures h.W() == LinkPgt(old(h.W()), env, g, id, now)
  {
    h.Write(GameToPgt(g), id);
    h.Write(PgtToGame(id), NatToString(g));
    ScheduleCleanupOn(h, env, id, g, now + PgtCleanupDelay);
    ScheduleNextPgtUpdateOn(h, env, id, g, now + LiveGameDefault);
  }

  method CreatePgtOn(h: Platform, env: Env, c: Config, fmt: Formatting, g: GameId, game: Game, now: int)
    modifies h
    ensures h.W() == CreatePgt(old(h.W()), env, c, fmt, g, game, now)
  {
    var title := fmt.title(game);
    var body := fmt.body(game);
    var result := TryCreateThreadOn(h, env, title, body, c.postgame.sticky, c.postgame.sort);
    if result.None? {
      h.SendMail("Post-game thread creation failed");
      return;
    }
    var post := result.value;
    LinkPgtOn(h, env, g, post.id, now);
    CloseGdtOn(h, env, c, g, post.url);
  }

  method CreatePostgameThreadJobOn(h: Platform, env: Env, cfg: ConfigLookup, fmt: Formatting, g: GameId,
                                   fetched: Result<Game>, now: int)
    modifies h
    ensures h.W() == CreatePostgameThreadJob(old(h.W()), env, cfg, fmt, g, fetched, now)
  {
    if cfg.Unreadable? {
      return;
    }
    if cfg.Absent? {
      h.SendMail("Failed to post thread");
      return;
    }
    var c := cfg.config;
    var existingPgtId := h.Read(GameToPgt(g));
    if Present(existingPgtId) {
      return;
    }
    var attemptKey := CreatePgtAttempts(g);
    var attemptNumber := AttemptsOn(h, attemptKey);
    if fetched.Failure? {
      RetryOrGiveUpOn(h, env, attemptKey, attemptNumber, RetryMaxTime, now, Some("Failed to Post PGT!"));
      return;
    }
    CreatePgtOn(h, env, c, fmt, g, fetched.value, now);
  }

  // ---------------------------------------------------------------------------------------
  // nextPGTUpdateJob

  /** Lines 141-146: another update in `LIVE_GAME_DEFAULT` unless the game is OFF (official). */
  function AfterPgtUpdate(w: World, env: Env, p: PostId, g: GameId, game: Option<Game>, now: int): World
  {
    if game.Some? && game.value.gameState == Some(Off) then w
    else ScheduleNextPgtUpdate(w, env, p, g, now + LiveGameDefault)
  }

  /**
   * `nextPGTUpdateJob(gameId)` given the response to the conditional fetch it makes with the
   * stored ETag. A failed fetch lands in the `catch`, which re-reads the PGT id and reschedules.
   */
  function NextPgtUpdateJob(w: World, env: Env, fmt: Formatting, g: GameId, resp: GameResponse, now: int): World
  {
    var pid := Get(w, GameToPgt(g));
    if !Present(pid) then w
    else
      var p := pid.value;
      match GetGameData(Get(w, GameEtag(g)), resp)
      case Failure(_) => ScheduleNextPgtUpdate(w, env, p, g, now + LiveGameDefault)
      case Success(data) =>
        if !data.modified then AfterPgtUpdate(w, env, p, g, data.game, now)
        else
          var w1 := if Truthy(data.etag) then SetKey(w, GameEtag(g), data.etag.value) else w;
          var (w2, ok) := TryUpdateThread(w1, env, p, fmt.body(data.game.value));
          if ok then AfterPgtUpdate(w2, env, p, g, data.game, now)
          else ScheduleNextPgtUpdate(w2, env, p, g, now + LiveGameDefault)
  }

  method NextPgtUpdateJobOn(h: Platform, env: Env, fmt: Formatting, g: GameId, resp: GameResponse, now: int)
    modifies h
    ensures h.W() == NextPgtUpdateJob(old(h.W()), env, fmt, g, resp, now)
  {
    var postId := h.Read(GameToPgt(g));
    if !Present(postId) {
      return;
    }
    var currentEtag := h.Read(GameEtag(g));
    var result := GetGameData(currentEtag, resp);
    if result.Failure? {
      var postIdAgain := h.Read(GameToPgt(g));
      if Present(postIdAgain) {
        ScheduleNextPgtUpdateOn(h, env, postIdAgain.value, g, now + LiveGameDefault);
      }
      return;
    }
    var data := result.value;
    if data.modified {
      if Truthy(data.etag) {
        h.Write(GameEtag(g), data.etag.value);
      }
      var body := fmt.body(data.game.value);
      var ok := TryUpdateThreadOn(h, env, postId.value, body);
      if !ok {
        ScheduleNextPgtUpdateOn(h, env, postId.value, g, now + LiveGameDefault);
        return;
      }
    }
    if !(data.game.Some? && data.game.value.gameState == Some(Off)) {
      ScheduleNextPgtUpdateOn(h, env, postId.value, g, now + LiveGameDefault);
    }
  }

  // ---------------------------------------------------------------------------------------
  // Properties

  /** Cleaning a thread up never adds a job, a post or a notice. */
  lemma CleanupAddsNothing(w: World, env: Env, p: PostId, lock: bool)
    ensures var r := CleanupThread(w, env, p, lock).0;
      NewJobsNamed(w, r, {}) && r.posts.Keys == w.posts.Keys && r.mail == w.mail
  {
    var (r, ok) := CleanupThread(w, env, p, lock);
    if ok {
      assert p in w.posts;
      assert r.posts.Keys == w.posts.Keys;
    }
  }

  /**
   * A creation job whose fetch fails leaves the posts alone; below five attempts it counts one
   * more and schedules only the daily check, after the backoff capped at `RETRY_MAX_TIME`;
   * at five it forgets the counter, schedules nothing and sends "Failed to Post PGT!".
   */
  lemma PostgameFetchFailure(w: World, env: Env, c: Config, fmt: Formatting, g: GameId, err: string, now: int)
    requires !Present(Get(w, GameToPgt(g)))
    ensures var r := CreatePostgameThreadJob(w, env, Found(c), fmt, g, Failure(err), now);
      var k := CreatePgtAttempts(g); var a := Attempts(w, k);
      r.posts == w.posts &&
      (CanRetry(a) ==>
        Attempts(r, k) == Some(a.value + 1) && r.mail == w.mail &&
        Registered(r, env, DailyJob(now + Backoff(a.value, RetryMaxTime)), JobDailyCheck) &&
        NewJobsNamed(w, r, {DailyGameCheck})) &&
      (!CanRetry(a) ==> k !in r.store && r.jobs == w.jobs && r.mail == w.mail + ["Failed to Post PGT!"])
  {
    var k := CreatePgtAttempts(g);
    RetryStep(w, env, k, Attempts(w, k), RetryMaxTime, now, Some("Failed to Post PGT!"));
  }

  /**
   * Linking records both directions of the mapping, the post's entry reading back as the game's
   * number; no post changes and no notice is sent.
   */
  lemma LinkPgtStore(w: World, env: Env, g: GameId, id: PostId, now: int)
    ensures var r := LinkPgt(w, env, g, id, now);
      Get(r, GameToPgt(g)) == Some(id) && Get(r, PgtToGame(id)) == Some(NatToString(g)) &&
      NumberOf(Get(r, PgtToGame(id)).value) == Some(g) &&
      r.posts == w.posts && r.mail == w.mail
  {
    NumberOfNatToString(g);
    var w1 := SetKey(SetKey(w, GameToPgt(g), id), PgtToGame(id), NatToString(g));
    var w2 := ScheduleCleanup(w1, env, id, g, now + PgtCleanupDelay);
    var r := ScheduleNextPgtUpdate(w2, env, id, g, now + LiveGameDefault);
    assert r == LinkPgt(w, env, g, id, now);
    assert Get(w1, GameToPgt(g)) == Some(id) && Get(w1, PgtToGame(id)) == Some(NatToString(g));
    assert Get(w2, GameToPgt(g)) == Some(id) && Get(w2, PgtToGame(id)) == Some(NatToString(g));
  }

  /** Linking records the ids the scheduler gives the cleanup job and the first update. */
  lemma LinkPgtJobIds(w: World, env: Env, g: GameId, id: PostId, now: int)
    ensures var r := LinkPgt(w, env, g, id, now);
      var a := env.runJob(CleanupJob(id, g, now + PgtCleanupDelay));
      var b := env.runJob(PgtUpdateJob(id, g, now + LiveGameDefault));
      (a.Some? ==> Get(r, JobPgtCleanup(g)) == a) && (b.Some? ==> Get(r, JobPgtUpdate(g)) == b)
  {
    var w1 := SetKey(SetKey(w, GameToPgt(g), id), PgtToGame(id), NatToString(g));
    var w2 := ScheduleCleanup(w1, env, id, g, now + PgtCleanupDelay);
    var r := ScheduleNextPgtUpdate(w2, env, id, g, now + LiveGameDefault);
    assert r == LinkPgt(w, env, g, id, now);
    assert Get(r, JobPgtCleanup(g)) == Get(w2, JobPgtCleanup(g));
  }

  /** Linking touches no key but the two mappings and the two job ids. */
  lemma LinkPgtKeeps(w: World, env: Env, g: GameId, id: PostId, now: int)
    ensures var r := LinkPgt(w, env, g, id, now);
      forall k :: k != GameToPgt(g) && k != PgtToGame(id) && k != JobPgtCleanup(g) && k != JobPgtUpdate(g) ==>
        Get(r, k) == Get(w, k)
  {
    var w1 := SetKey(SetKey(w, GameToPgt(g), id), PgtToGame(id), NatToString(g));
    var w2 := ScheduleCleanup(w1, env, id, g, now + PgtCleanupDelay);
    var r := ScheduleNextPgtUpdate(w2, env, id, g, now + LiveGameDefault);
    assert r == LinkPgt(w, env, g, id, now);
    forall k | k != GameToPgt(g) && k != PgtToGame(id) && k != JobPgtCleanup(g) && k != JobPgtUpdate(g)
      ensures Get(r, k) == Get(w, k)
    {
      assert Get(r, k) == Get(w2, k) && Get(w2, k) == Get(w1, k);
    }
  }

  /**
   * When the scheduler gives the two jobs distinct ids, both are registered by linking, each
   * with its id recorded, and linking adds no other job.
   */
  lemma LinkPgtRecords(w: World, env: Env, g: GameId, id: PostId, now: int)
    requires var a := env.runJob(CleanupJob(id, g, now + PgtCleanupDelay));
      var b := env.runJob(PgtUpdateJob(id, g, now + LiveGameDefault));
      a.Some? && b.Some? ==> a.value != b.value
    ensures var r := LinkPgt(w, env, g, id, now);
      Registered(r, env, CleanupJob(id, g, now + PgtCleanupDelay), JobPgtCleanup(g)) &&
      Registered(r, env, PgtUpdateJob(id, g, now + LiveGameDefault), JobPgtUpdate(g)) &&
      NewJobsNamed(w, r, {PgtCleanup, NextPgtUpdate})
  {
    var w1 := SetKey(SetKey(w, GameToPgt(g), id), PgtToGame(id), NatToString(g));
    var w2 := ScheduleCleanup(w1, env, id, g, now + PgtCleanupDelay);
    var r := ScheduleNextPgtUpdate(w2, env, id, g, now + LiveGameDefault);
    NewJobsNamedTrans(w, w2, r, {PgtCleanup}, {NextPgtUpdate});
  }

  /**
   * Once the PGT is submitted, its record survives closing the game-day thread: the game maps to
   * the new post and the post back to the game, and the ids of its cleanup job and first update
   * are recorded. This holds as long as the game-day thread recorded for the game is neither
   * the new post nor recorded as a PGT itself.
   */
  lemma PostgameCreated(w: World, env: Env, c: Config, fmt: Formatting, g: GameId, game: Game, now: int)
    requires !Present(Get(w, GameToPgt(g))) && env.submit.Accepted?
    requires var d := Get(w, GameToThread(g));
      d.Some? ==> d.value != env.submit.id && !Present(Get(w, PgtToGame(d.value)))
    ensures var r := CreatePostgameThreadJob(w, env, Found(c), fmt, g, Success(game), now);
      var id := env.submit.id;
      Get(r, GameToPgt(g)) == Some(id) && Present(Get(r, PgtToGame(id))) &&
      NumberOf(Get(r, PgtToGame(id)).value) == Some(g) &&
      (env.runJob(CleanupJob(id, g, now + PgtCleanupDelay)).Some? ==>
         Get(r, JobPgtCleanup(g)) == env.runJob(CleanupJob(id, g, now + PgtCleanupDelay))) &&
      (env.runJob(PgtUpdateJob(id, g, now + LiveGameDefault)).Some? ==>
         Get(r, JobPgtUpdate(g)) == env.runJob(PgtUpdateJob(id, g, now + LiveGameDefault)))
  {
    var id := env.submit.id;
    var w1 := TryCreateThread(w, env, fmt.title(game), fmt.body(game), c.postgame.sticky, c.postgame.sort).0;
    var w2 := LinkPgt(w1, env, g, id, now);
    assert CreatePostgameThreadJob(w, env, Found(c), fmt, g, Success(game), now) == CloseGdt(w2, env, c, g, env.submit.url);
    LinkPgtStore(w1, env, g, id, now);
    LinkPgtJobIds(w1, env, g, id, now);
    PgtLinkedGdt(w, env, c, fmt, g, game, now);
    CloseGdtKeeps(w2, env, c, g, env.submit.url, id);
  }

  /** Linking the new PGT leaves the game-day thread's records as they were. */
  lemma PgtLinkedGdt(w: World, env: Env, c: Config, fmt: Formatting, g: GameId, game: Game, now: int)
    requires !Present(Get(w, GameToPgt(g))) && env.submit.Accepted?
    requires var d := Get(w, GameToThread(g));
      d.Some? ==> d.value != env.submit.id && !Present(Get(w, PgtToGame(d.value)))
    ensures var w1 := TryCreateThread(w, env, fmt.title(game), fmt.body(game), c.postgame.sticky, c.postgame.sort).0;
      var w2 := LinkPgt(w1, env, g, env.submit.id, now);
      var d := Get(w2, GameToThread(g));
      d == Get(w, GameToThread(g)) && env.submit.id in w2.posts &&
      (d.Some? ==> d.value != env.submit.id && !Present(Get(w2, PgtToGame(d.value))))
  {
    var id := env.submit.id;
    var w1 := TryCreateThread(w, env, fmt.title(game), fmt.body(game), c.postgame.sticky, c.postgame.sort).0;
    LinkPgtKeeps(w1, env, g, id, now);
    LinkPgtStore(w1, env, g, id, now);
    var w2 := LinkPgt(w1, env, g, id, now);
    var d := Get(w, GameToThread(g));
    assert Get(w1, GameToThread(g)) == d;
    if d.Some? {
      assert Get(w1, PgtToGame(d.value)) == Get(w, PgtToGame(d.value));
    }
  }

  /**
   * The new PGT carries the post-game title and body, with the configured sticky flag and
   * comment sort, and closing the game-day thread leaves it alone.
   */
  lemma PostgameCreatedPost(w: World, env: Env, c: Config, fmt: Formatting, g: GameId, game: Game, now: int)
    requires !Present(Get(w, GameToPgt(g))) && env.submit.Accepted?
    requires var d := Get(w, GameToThread(g));
      d.Some? ==> d.value != env.submit.id && !Present(Get(w, PgtToGame(d.value)))
    ensures var r := CreatePostgameThreadJob(w, env, Found(c), fmt, g, Success(game), now);
      var id := env.submit.id;
      id in r.posts && r.posts[id].title == fmt.title(game) &&
      r.posts[id].text == AppendFooter(fmt.body(game)) &&
      r.posts[id].stickied == c.postgame.sticky && r.posts[id].sort == c.postgame.sort
  {
    var id := env.submit.id;
    var w1 := TryCreateThread(w, env, fmt.title(game), fmt.body(game), c.postgame.sticky, c.postgame.sort).0;
    var w2 := LinkPgt(w1, env, g, id, now);
    assert CreatePostgameThreadJob(w, env, Found(c), fmt, g, Success(game), now) == CloseGdt(w2, env, c, g, env.submit.url);
    LinkPgtStore(w1, env, g, id, now);
    PgtLinkedGdt(w, env, c, fmt, g, game, now);
    CloseGdtKeeps(w2, env, c, g, env.submit.url, id);
  }

  /**
   * With the program's own formatter, the post-game thread of a finished game is titled
   * "PGT | away @ home", a title starting "PGT" exactly for a FINAL or OFF game, and its text,
   * the formatted body and the footer, carries the game's status line.
   */
  lemma PgtPostFormatted(w: World, env: Env, c: Config, locale: Locale, g: GameId, game: Game, now: int)
    requires !Present(Get(w, GameToPgt(g))) && env.submit.Accepted?
    requires var d := Get(w, GameToThread(g));
      d.Some? ==> d.value != env.submit.id && !Present(Get(w, PgtToGame(d.value)))
    ensures var r := CreatePostgameThreadJob(w, env, Found(c), Format(locale), g, Success(game), now);
      env.submit.id in r.posts &&
      var post := r.posts[env.submit.id];
      (IsTerminal(GameState(game)) ==> post.title == "PGT | " + game.awayTeam.abbrev + " @ " + game.homeTeam.abbrev) &&
      |post.title| >= 3 && (post.title[..3] == "PGT" <==> IsTerminal(GameState(game))) &&
      post.text == AppendFooter(FormatThreadBody(game, locale)) && Within(StatusLine(game), post.text)
  {
    PostgameCreatedPost(w, env, c, Format(locale), g, game, now);
    FormatTitleAndStatus(game, locale);
    WithinExtend(StatusLine(game), "", FormatThreadBody(game, locale), Footer);
  }

  /**
   * At most one PGT per game: once a PGT with a non-empty id is created and recorded, the job run
   * again, with any response and at any time, returns before fetching and changes nothing.
   */
  lemma PgtCreatedOnce(w: World, env: Env, env2: Env, c: Config, fmt: Formatting, g: GameId, game: Game,
                       fetched: Result<Game>, now: int, later: int)
    requires !Present(Get(w, GameToPgt(g))) && env.submit.Accepted? && env.submit.id != ""
    requires var d := Get(w, GameToThread(g));
      d.Some? ==> d.value != env.submit.id && !Present(Get(w, PgtToGame(d.value)))
    ensures var r := CreatePostgameThreadJob(w, env, Found(c), fmt, g, Success(game), now);
      CreatePostgameThreadJob(r, env2, Found(c), fmt, g, fetched, later) == r
  {
    PostgameCreated(w, env, c, fmt, g, game, now);
  }

  /** Closing the game-day thread touches no key but thread records. */
  lemma CloseGdtKeepsOthers(w: World, env: Env, c: Config, g: GameId, url: string)
    ensures KeepsOtherKeys(w, CloseGdt(w, env, c, g, url))
  {
    var d := Get(w, GameToThread(g));
    if d.Some? {
      var w1 := if c.gameday.lock && GetPost(w, d.value).Some? then TryAddComment(w, d.value, ClosedGdtBase + url) else w;
      assert w1.store == w.store;
      CleanupKeepsOthers(w1, env, d.value, c.gameday.lock);
    }
  }

  /** Creating the PGT touches no key but thread records, whether or not the submission is accepted. */
  lemma CreatePgtKeepsOthers(w: World, env: Env, c: Config, fmt: Formatting, g: GameId, game: Game, now: int)
    ensures KeepsOtherKeys(w, CreatePgt(w, env, c, fmt, g, game, now))
  {
    var w1 := TryCreateThread(w, env, fmt.title(game), fmt.body(game), c.postgame.sticky, c.postgame.sort).0;
    assert w1.store == w.store;
    if env.submit.Accepted? {
      var w2 := LinkPgt(w1, env, g, env.submit.id, now);
      LinkPgtKeeps(w1, env, g, env.submit.id, now);
      CloseGdtKeepsOthers(w2, env, c, g, env.submit.url);
      forall k | !IsThreadRecord(k) ensures Get(w2, k) == Get(w, k) {
        assert k != GameToPgt(g) && k != PgtToGame(env.submit.id) && k != JobPgtCleanup(g) && k != JobPgtUpdate(g);
      }
    }
  }

  /**
   * The PGT's attempt counter is not cleared when the fetch succeeds: whatever the job does
   * afterwards, the counter reads as it did before.
   */
  lemma PgtCounterKept(w: World, env: Env, c: Config, fmt: Formatting, g: GameId, game: Game, now: int)
    ensures var r := CreatePostgameThreadJob(w, env, Found(c), fmt, g, Success(game), now);
      Get(r, CreatePgtAttempts(g)) == Get(w, CreatePgtAttempts(g))
  {
    assert !IsThreadRecord(CreatePgtAttempts(g));
    if !Present(Get(w, GameToPgt(g))) {
      CreatePgtKeepsOthers(w, env, c, fmt, g, game, now);
    }
  }

  /** The keys that record a post-game thread and its jobs. */
  predicate IsPgtRecord(k: Key)
  {
    k.GameToPgt? || k.PgtToGame? || k.JobPostgame? || k.JobPgtCleanup? || k.JobPgtUpdate?
  }

  /**
   * Cleaning up a post that is not recorded as a PGT leaves every PGT record alone, except for
   * the (absent) record of that post itself.
   */
  lemma CleanupKeepsPgtRecords(w: World, env: Env, p: PostId, lock: bool)
    requires !Present(Get(w, PgtToGame(p)))
    ensures var r := CleanupThread(w, env, p, lock).0;
      forall k :: IsPgtRecord(k) && k != PgtToGame(p) ==> Get(r, k) == Get(w, k)
  {
    var (r, ok) := CleanupThread(w, env, p, lock);
    if ok && Present(Get(w, ThreadToGame(p))) {
      match NumberOf(Get(w, ThreadToGame(p)).value)
      case None =>
        assert r.store == w.store - {ThreadToGame(p)};
      case Some(g) =>
        assert StoreSameOutside(w, r, GdtKeys(g, p));
        forall k | IsPgtRecord(k) && k != PgtToGame(p) ensures Get(r, k) == Get(w, k) {
          assert k !in GdtKeys(g, p) && !k.JobEntry?;
        }
    } else if ok {
      assert r.store == w.store;
    }
  }

  /** The keys that record a thread, its mapping or one of its jobs. */
  predicate IsThreadRecord(k: Key)
  {
    k.GameToThread? || k.ThreadToGame? || k.GameEtag? || k.JobCreate? || k.JobGdtUpdate? ||
    IsPgtRecord(k) || k.JobEntry?
  }

  /** `r` agrees with `w` on every key that is not a thread record: the counters and the daily check's id. */
  ghost predicate KeepsOtherKeys(w: World, r: World)
  {
    forall k :: !IsThreadRecord(k) ==> Get(r, k) == Get(w, k)
  }

  /** Agreeing outside a set of thread records is agreeing on every other key. */
  lemma OutsideRecordsKeeps(w: World, r: World, keys: set<Key>)
    requires StoreSameOutside(w, r, keys)
    requires forall k :: k in keys ==> IsThreadRecord(k)
    ensures KeepsOtherKeys(w, r)
  {
    forall k | !IsThreadRecord(k) ensures Get(r, k) == Get(w, k) {
      assert k !in keys && !k.JobEntry?;
    }
  }

  /** The keys a cleanup may change are all thread records. */
  lemma CleanupKeysAreRecords(g: GameId, p: PostId)
    ensures forall k :: k in PgtKeys(g, p) ==> IsThreadRecord(k)
    ensures forall k :: k in GdtKeys(g, p) ==> IsThreadRecord(k)
  {
  }

  /** Cleanup touches only thread records. */
  lemma CleanupKeepsOthers(w: World, env: Env, p: PostId, lock: bool)
    ensures KeepsOtherKeys(w, CleanupThread(w, env, p, lock).0)
  {
    var (r, ok) := CleanupThread(w, env, p, lock);
    if ok && Present(Get(w, PgtToGame(p))) {
      match NumberOf(Get(w, PgtToGame(p)).value)
      case None =>
        assert StoreSameOutside(w, r, {PgtToGame(p)});
        OutsideRecordsKeeps(w, r, {PgtToGame(p)});
      case Some(g) =>
        CleanupKeysAreRecords(g, p);
        OutsideRecordsKeeps(w, r, PgtKeys(g, p));
    } else if ok && Present(Get(w, ThreadToGame(p))) {
      match NumberOf(Get(w, ThreadToGame(p)).value)
      case None =>
        assert StoreSameOutside(w, r, {ThreadToGame(p)});
        OutsideRecordsKeeps(w, r, {ThreadToGame(p)});
      case Some(g) =>
        CleanupKeysAreRecords(g, p);
        OutsideRecordsKeeps(w, r, GdtKeys(g, p));
    } else {
      assert r.store == w.store;
    }
  }

  /** So does scheduling the creation of a PGT, for a configuration that was read. */
  lemma SchedulePostgameKeepsOthers(w: World, env: Env, c: Config, game: Game, runAt: int)
    ensures var r := ScheduleCreatePostgameThread(w, env, Found(c), game, runAt);
      KeepsOtherKeys(w, r) && r.posts.Keys == w.posts.Keys && r.mail == w.mail
  {
    var gdt := Get(w, GameToThread(game.id));
    if !c.postgame.enabled && Present(gdt) {
      CleanupKeepsOthers(w, env, gdt.value, c.gameday.lock);
      CleanupAddsNothing(w, env, gdt.value, c.gameday.lock);
    }
  }

  /**
   * Closing the game-day thread changes no PGT record but that of the game-day thread, and no
   * post but the game-day thread, when that thread is not `id` and is not recorded as a PGT.
   */
  lemma CloseGdtKeeps(w: World, env: Env, c: Config, g: GameId, url: string, id: PostId)
    requires var d := Get(w, GameToThread(g));
      d.Some? ==> d.value != id && !Present(Get(w, PgtToGame(d.value)))
    ensures var r := CloseGdt(w, env, c, g, url);
      Get(r, GameToPgt(g)) == Get(w, GameToPgt(g)) && Get(r, PgtToGame(id)) == Get(w, PgtToGame(id)) &&
      Get(r, JobPgtCleanup(g)) == Get(w, JobPgtCleanup(g)) && Get(r, JobPgtUpdate(g)) == Get(w, JobPgtUpdate(g)) &&
      (id in w.posts ==> id in r.posts && r.posts[id] == w.posts[id])
  {
    var d := Get(w, GameToThread(g));
    if d.Some? {
      var w1 := if c.gameday.lock && GetPost(w, d.value).Some? then TryAddComment(w, d.value, ClosedGdtBase + url) else w;
      assert w1.store == w.store;
      CleanupKeepsPgtRecords(w1, env, d.value, c.gameday.lock);
    }
  }

  /**
   * Lines 84-89: the game-day thread gets the closing comment with the PGT's URL exactly when
   * game-day threads are locked; the app's own thread is then unstuck and, when game-day
   * threads are locked, locked. No other post changes.
   */
  lemma CloseGdtComment(w: World, env: Env, c: Config, g: GameId, url: string)
    requires var d := Get(w, GameToThread(g)); Present(d) && d.value in w.posts
    ensures var d := Get(w, GameToThread(g)).value; var r := CloseGdt(w, env, c, g, url);
      d in r.posts &&
      r.posts[d].comments == w.posts[d].comments + (if c.gameday.lock then [ClosedGdtBase + url] else []) &&
      r.posts[d].text == w.posts[d].text &&
      (w.posts[d].author == AppName ==> !r.posts[d].stickied && (c.gameday.lock ==> r.posts[d].locked)) &&
      forall q :: q in w.posts && q != d ==> q in r.posts && r.posts[q] == w.posts[q]
  {
  }

  /** Whether a PGT update ends the loop: a fresh response for an OFF game, edited into the thread. */
  predicate PgtUpdateStops(w: World, env: Env, g: GameId, p: PostId, resp: GameResponse)
  {
    var d := GetGameData(Get(w, GameEtag(g)), resp);
    d.Success? && d.value.modified && p in w.posts && !env.editFails && d.value.game.value.gameState == Some(Off)
  }

  /**
   * The PGT update loop: without a recorded PGT nothing happens; otherwise the next update is
   * registered in `LIVE_GAME_DEFAULT` in every case but one, where a fresh response says OFF and
   * the edit went through, and then no job is added. A 304, a failed fetch and a failed edit
   * all keep the loop going.
   */
  lemma PgtUpdateLoop(w: World, env: Env, fmt: Formatting, g: GameId, resp: GameResponse, now: int)
    ensures var r := NextPgtUpdateJob(w, env, fmt, g, resp, now);
      !Present(Get(w, GameToPgt(g))) ==> r == w
    ensures var r := NextPgtUpdateJob(w, env, fmt, g, resp, now);
      var pid := Get(w, GameToPgt(g));
      Present(pid) ==>
        r.mail == w.mail && NewJobsNamed(w, r, {NextPgtUpdate}) &&
        (PgtUpdateStops(w, env, g, pid.value, resp) ==> r.jobs == w.jobs) &&
        (!PgtUpdateStops(w, env, g, pid.value, resp) ==>
           Registered(r, env, PgtUpdateJob(pid.value, g, now + LiveGameDefault), JobPgtUpdate(g)))
  {
    var pid := Get(w, GameToPgt(g));
    if Present(pid) {
      var d := GetGameData(Get(w, GameEtag(g)), resp);
      if d.Success? && d.value.modified {
        ModifiedIffGame(Get(w, GameEtag(g)), resp);
      }
    }
  }

  /**
   * The PGT's text changes only for a fresh response, to the formatted body with the footer,
   * and only when the post exists and the edit succeeds; a non-empty ETag of a fresh response
   * is stored.
   */
  lemma PgtUpdateEdits(w: World, env: Env, fmt: Formatting, g: GameId, resp: GameResponse, now: int)
    requires Present(Get(w, GameToPgt(g)))
    ensures var r := NextPgtUpdateJob(w, env, fmt, g, resp, now);
      var p := Get(w, GameToPgt(g)).value; var d := GetGameData(Get(w, GameEtag(g)), resp);
      (d.Success? && d.value.modified && p in w.posts && !env.editFails ==>
         r.posts == w.posts[p := w.posts[p].(text := AppendFooter(fmt.body(resp.body)))]) &&
      (!(d.Success? && d.value.modified && p in w.posts && !env.editFails) ==> r.posts == w.posts) &&
      (d.Success? && d.value.modified && Truthy(resp.etagHeader) ==> Get(r, GameEtag(g)) == resp.etagHeader)
  {
  }
}
