/**
 * Intervals, game states, job names and the key/value store's keys.
 * Three intervals have their values in src/server/leagues/nhl/constants.ts; the others are
 * referenced by the job handlers but defined in a file that is not part of this model, so they
 * are left as unspecified positive constants and every proof holds for any value of them.
 */
module Constants {

  type Positive = x: int | x > 0 witness 1

  /** Milliseconds between live updates. */
  const LiveGameDefault: Positive := 20 * 1000
  /** Milliseconds between updates during overtime or a shootout. */
  const OvertimeShootout: Positive := 15 * 1000
  /** Milliseconds before puck-drop at which the game-day thread is created. */
  const PregameThreadOffset: Positive := 60 * 60 * 1000
  /** Upper bound of the retry backoff (value not shown). */
  const RetryMaxTime: Positive
  /** How late a creation job may run before the game counts as stale (value not shown). */
  const LateScheduleThreshold: Positive
  /** Delay before a post-game thread is cleaned up (value not shown). */
  const PgtCleanupDelay: Positive
  /** The cap the daily check's outer failure path uses instead of `RetryMaxTime`. */
  const DailyCheckOuterCap: Positive := 1800000
  /** Attempts before a retried operation gives up. */
  const MaxAttempts: nat := 5
  /** First backoff step. */
  const BackoffBase: Positive := 60000

  /** Values of `GAME_STATES`. */
  const Fut := "FUT"
  const Pre := "PRE"
  const Live := "LIVE"
  const Crit := "CRIT"
  const Final := "FINAL"
  const Off := "OFF"
  const Unknown := "UNKNOWN"

  /** Game ids are the NHL's numeric ids. */
  type GameId = nat
  type PostId = string
  type JobId = string

  /** Names under which the job handlers are registered. */
  datatype JobName =
    | DailyGameCheck
    | CreateGameThread
    | NextLiveUpdate
    | CreatePostgameThread
    | NextPgtUpdate
    | PgtCleanup

  /**
   * Keys of the key/value store, one constructor per key family; distinct constructors and
   * distinct arguments are distinct keys.
   */
  datatype Key =
    | GameToThread(game: GameId)      // game -> game-day thread post id
    | ThreadToGame(post: PostId)      // game-day thread post id -> game id text
    | GameToPgt(game: GameId)         // game -> post-game thread post id
    | PgtToGame(post: PostId)         // post-game thread post id -> game id text
    | GameEtag(game: GameId)          // last ETag seen for the game
    | JobCreate(game: GameId)         // id of the pending create-thread job
    | JobGdtUpdate(game: GameId)      // id of the pending live-update job
    | JobPostgame(game: GameId)       // id of the pending create-postgame job
    | JobPgtUpdate(game: GameId)      // id of the pending post-game update job
    | JobPgtCleanup(game: GameId)     // id of the pending post-game cleanup job
    | CreateThreadAttempts(game: GameId)
    | CreatePgtAttempts(game: GameId)
    | DailyCheckAttempts
    | JobDailyCheck                   // id of the pending daily check job
    | JobEntry(id: JobId)             // `job:<id>`

  /** The keys a game-day thread's cleanup removes. */
  function GdtKeys(g: GameId, p: PostId): set<Key>
  {
    {JobCreate(g), JobGdtUpdate(g), GameToThread(g), ThreadToGame(p), GameEtag(g)}
  }

  /** The keys a post-game thread's cleanup removes. */
  function PgtKeys(g: GameId, p: PostId): set<Key>
  {
    {JobPostgame(g), JobPgtCleanup(g), JobPgtUpdate(g), GameToPgt(g), PgtToGame(p)}
  }
}
