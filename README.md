# GameDayLive NHL threads, modelled in Dafny

GameDayLive is a Reddit app that runs game-day threads (GDTs) and post-game threads (PGTs)
for a subreddit's NHL team. A daily job fetches today's schedule and finds the team's
game. It then schedules the creation of the game-day thread before puck-drop. The thread
is re-edited with live data until the game ends. A post-game thread then takes over, the
game-day thread is closed, and the post-game thread is updated until the result is
official and is later cleaned up. This project models:

- the job handlers of `leagues/nhl/jobs/` (modules `Gameday`, `Postgame`, `DailyCheck`);
- the steps they share, such as registering a job, attempt counters with backoff and the
  daily check's scheduling (`Scheduling`);
- the thread operations of `threads.ts` (`Threads`);
- the job lookup of `utils/jobs.ts` (`JobsUtil`);
- the NHL API calls and their ETag handling (`Api`);
- the formatting of a thread's title and body (`Formatter`, `FormatHeader`,
  `FormatLinescore`, `FormatGoals`, `FormatPenalties`, `Helpers`, over a shared `Tables`
  module);
- the `Logger` class (`Logging`);
- the configuration form's action (`SubmitForm`).

The platform is one object, `Host.Platform`. It holds the key-value store (Redis), the
scheduled jobs, the posts and the moderator mail sent. Its value view is `Host.World`.
Every job handler is a function from the old world to the new one, for example
`Gameday.CreateGameThreadJob`. Beside it is a method `...On(h, ...)` that performs the same
steps one platform call at a time and is proved to end in exactly that world. The lemmas
state what the handlers promise about this state: which keys and jobs they add, keep or
remove, and which posts they create or edit.

Whatever the platform decides on its own comes into the model as a parameter. This covers
the job ids the scheduler hands out, which cancels fail, whether a submission is accepted,
whether an edit or a job listing throws, the API's responses, the current time and the
subreddit's locale (`Host.Env`, `Api.GameResponse`, `now`, `Helpers.Locale`).

Some behaviours of the code are modelled as written although a reader might expect
otherwise. Each has a lemma that states it:

- `createGameThreadJob` deletes its attempt counter after a successful fetch
  (gameday.ts:60-61, `Gameday.CreateClearsCounter`). `createPostgameThreadJob` never does
  (`Postgame.PgtCounterKept`).
- A 304 from the live-update fetch carries no game state, so `nextLiveUpdateJob` takes its
  "game finished" branch. The live-update loop then ends in the middle of a game
  (`Gameday.NotModifiedEndsLoop`).
- Cleaning up a game-day thread deletes the game's stored ETag along with its mappings.
  The ETag stored just before the final edit of the thread therefore does not survive
  that cleanup (`Gameday.LiveUpdateEdits`, `Threads.PurgeGdt`).

## Model

| member | source | states |
|---|---|---|
| Api.RequestHeaders | src/server/leagues/nhl/api.ts:147-150 | The request carries `If-None-Match` exactly when a non-empty ETag is stored, set to that ETag; no other header |
| Api.GetGameData | src/server/leagues/nhl/api.ts:142-174 | A 304 gives the empty result, unmodified and keeping the old ETag; another non-ok status is an error; an ok response is modified, carries the game and the response's ETag ("" when it has none) |
| Api.ModifiedIffGame | src/server/leagues/nhl/api.ts:157-173 | A successful result is marked modified exactly when it carries a game |
| Api.GetTodaysSchedule | src/server/leagues/nhl/api.ts:128-140 | Fails exactly on a non-ok status; otherwise gives the games of the first `gameWeek` day dated today, or no games when no day is |
| JobsUtil.GetJobData | src/server/utils/jobs.ts:4-20 | A thrown listing finds nothing; otherwise the result is the first listed job with the id, and nothing is found exactly when no listed job has it |
| JobsUtil.ListJobsOn | src/server/utils/jobs.ts:8 | The listing throws exactly when the scheduler fails; otherwise every entry is a scheduled job under its id and every scheduled job is listed |
| JobsUtil.GetJobDataOfEnumeration | src/server/utils/jobs.ts:4-20 | Looking an id up in any complete listing gives the job scheduled under that id, or nothing when the listing throws |
| JobsUtil.LiveUpdateFilter | src/server/leagues/nhl/jobs/gameday.ts:99-108 | The filter for live-update jobs of the game is non-empty exactly when such a job is scheduled |
| Scheduling.RunAndRecord | src/server/leagues/nhl/jobs/gameday.ts:316-327 | A job the scheduler accepts is registered under its new id and that id is stored under the job's key; a scheduler that throws leaves the world unchanged; posts and mail never change |
| Scheduling.NewJobsNamedTrans | src/server/leagues/nhl/jobs/gameday.ts:15-152 | Jobs added in two steps are jobs added under the union of the two steps' names |
| Scheduling.RunAndRecordOn | src/server/leagues/nhl/jobs/gameday.ts:316-327 | The platform ends in the world `RunAndRecord` describes |
| Scheduling.AlreadyScheduledOn | src/server/leagues/nhl/jobs/gameday.ts:290-296 | Reports exactly whether the job recorded under the key is still scheduled with the given title (a thrown listing finds none) |
| Scheduling.Pow2 | src/server/leagues/nhl/jobs/gameday.ts:41-43 | Powers of two are at least 1 |
| Scheduling.Pow2Monotone | src/server/leagues/nhl/jobs/gameday.ts:41-43 | Powers of two grow with the exponent |
| Scheduling.Backoff | src/server/leagues/nhl/jobs/gameday.ts:41-43 | The wait is one minute times two to the attempt count, capped: at most the cap, and equal to the cap or to the uncapped wait |
| Scheduling.BackoffMonotone | src/server/leagues/nhl/jobs/gameday.ts:41-43 | A later attempt never waits less than an earlier one |
| Scheduling.OuterBackoffUncapped | src/server/leagues/nhl/jobs/dailyGameCheck.ts:79 | Below five attempts the daily check's 30-minute cap never applies |
| Scheduling.Attempts | src/server/leagues/nhl/jobs/gameday.ts:30 | A missing or empty counter reads as 0 attempts |
| Scheduling.AttemptsOn | src/server/leagues/nhl/jobs/gameday.ts:30 | Reads the counter as `Attempts` does |
| Scheduling.ScheduleDailyGameCheck | src/server/leagues/nhl/jobs/dailyGameCheck.ts:95-122 | The daily check is registered at the given time under "daily-game-check" and its id recorded; no other job id is added, no other key, post or mail changes |
| Scheduling.ScheduleDailyGameCheckOn | src/server/leagues/nhl/jobs/dailyGameCheck.ts:95-122 | The platform ends in the world `ScheduleDailyGameCheck` describes |
| Scheduling.RetryStep | src/server/leagues/nhl/jobs/gameday.ts:34-59 | Below five attempts the counter goes up by exactly one and only the daily check is scheduled, after the backoff; at five the counter is deleted, nothing is scheduled and the notice, if any, is sent; other keys and the posts never change |
| Scheduling.RetryOrGiveUpOn | src/server/leagues/nhl/jobs/gameday.ts:40-58 | The platform ends in the world the retry-or-give-up step describes |
| DailyCheck.TeamGame | src/server/leagues/nhl/jobs/dailyGameCheck.ts:57-59 | Finds a game exactly when the team plays in one, at home or away, and then the first such game |
| DailyCheck.DailyGameCheckJobOn | src/server/leagues/nhl/jobs/dailyGameCheck.ts:9-92 | The platform ends in the world the daily check job describes |
| DailyCheck.ScheduleTeamGameOn | src/server/leagues/nhl/jobs/dailyGameCheck.ts:61-73 | The platform ends in the world scheduling the team's game describes |
| DailyCheck.NoTeamNoop | src/server/leagues/nhl/jobs/dailyGameCheck.ts:18-22 | Without a configuration, or without an NHL team in it, the check changes nothing |
| DailyCheck.ScheduleFetchFailure | src/server/leagues/nhl/jobs/dailyGameCheck.ts:28-48 | A failed schedule fetch retries: one more attempt and only the daily check after the backoff capped at RETRY_MAX_TIME; at five attempts the counter is deleted and nothing is scheduled; no notice, no post change |
| DailyCheck.OuterFailure | src/server/leagues/nhl/jobs/dailyGameCheck.ts:75-91 | An unreadable configuration retries after 1, 2, 4, 8 or 16 minutes and gives up after the fifth attempt, without a notice |
| DailyCheck.TeamGameClears | src/server/leagues/nhl/jobs/dailyGameCheck.ts:50-73 | Scheduling the team's game after clearing the counter keeps the counter cleared and every post in place |
| DailyCheck.FetchedStep | src/server/leagues/nhl/jobs/dailyGameCheck.ts:50-73 | With the schedule fetched, the check is clearing the counter followed by scheduling the team's first game |
| DailyCheck.DailyCheckClears | src/server/leagues/nhl/jobs/dailyGameCheck.ts:50-64 | A fetched schedule clears the counter; without a game of the team nothing else changes |
| DailyCheck.DailyCheckSchedules | src/server/leagues/nhl/jobs/dailyGameCheck.ts:57-73 | The team's first game is handed to thread creation at PREGAME_THREAD_OFFSET before its start; unless stale and over or already scheduled, its creation job is registered then, or now when that time has passed |
| Gameday.ScheduleNextLiveUpdate | src/server/leagues/nhl/jobs/gameday.ts:331-361 | The live update for the post is registered at the given time and its id recorded for the game; only live-update jobs are added and none removed |
| Gameday.ScheduleNextLiveUpdateOn | src/server/leagues/nhl/jobs/gameday.ts:331-361 | The platform ends in the world `ScheduleNextLiveUpdate` describes |
| Gameday.ScheduleCreateGameThreadOn | src/server/leagues/nhl/jobs/gameday.ts:261-328 | The platform ends in the world scheduling the creation describes |
| Gameday.ScheduleCreateGameCases | src/server/leagues/nhl/jobs/gameday.ts:271-327 | A stale creation for a FINAL or OFF game only schedules the PGT at now; otherwise a job with the same title suppresses scheduling, and else the creation is registered at the requested time, or now when that has passed |
| Gameday.ScheduleCreateGameKeepsOthers | src/server/leagues/nhl/jobs/gameday.ts:261-328 | Scheduling a creation touches no key but thread records and removes no post |
| Gameday.CreateGdtOn | src/server/leagues/nhl/jobs/gameday.ts:120-151 | The platform ends in the world creating the thread describes |
| Gameday.RecordGdtOn | src/server/leagues/nhl/jobs/gameday.ts:131-144 | The platform ends in the world recording the thread describes |
| Gameday.CloseFinishedGameOn | src/server/leagues/nhl/jobs/gameday.ts:82-97 | The platform ends in the world closing a finished game describes |
| Gameday.RearmFoundOn | src/server/leagues/nhl/jobs/gameday.ts:74-112 | The platform and the proceed flag end as re-arming a found thread describes |
| Gameday.ArmLiveUpdateOn | src/server/leagues/nhl/jobs/gameday.ts:99-118 | Creation proceeds exactly when listing the jobs throws; otherwise a live update in LIVE_GAME_DEFAULT is scheduled unless one for the game is listed |
| Gameday.CheckExistingThreadOn | src/server/leagues/nhl/jobs/gameday.ts:63-118 | The platform and the proceed flag end as the existing-thread check describes |
| Gameday.CreateGameThreadJobOn | src/server/leagues/nhl/jobs/gameday.ts:15-152 | The platform ends in the world the create-thread job describes |
| Gameday.AfterLiveUpdateOn | src/server/leagues/nhl/jobs/gameday.ts:228-257 | The platform ends in the world the step after an update describes |
| Gameday.UpdateGdtOn | src/server/leagues/nhl/jobs/gameday.ts:185-257 | The platform ends in the world fetching and editing the thread describes |
| Gameday.NextLiveUpdateJobOn | src/server/leagues/nhl/jobs/gameday.ts:155-258 | The platform ends in the world the live-update job describes |
| Gameday.CreateFetchFailure | src/server/leagues/nhl/jobs/gameday.ts:34-59 | A failed fetch leaves the posts alone; below five attempts it counts one more and schedules only the daily check after the capped backoff; at five it deletes the counter and sends "Failed to Post GDT!" |
| Gameday.LiveUpdateKeepsOthers | src/server/leagues/nhl/jobs/gameday.ts:331-361 | Scheduling a live update touches no key but its own record |
| Gameday.FinishedGameCloses | src/server/leagues/nhl/jobs/gameday.ts:82-97 | For a game that is over, no post and no notice is added, no key but thread records changes, and only the PGT's creation may be added as a job |
| Gameday.ExistingThreadProceeds | src/server/leagues/nhl/jobs/gameday.ts:63-118 | Creation goes ahead exactly when no thread is recorded, the recorded one is not found, or listing the jobs throws for a game that is not over |
| Gameday.ExistingThreadFrame | src/server/leagues/nhl/jobs/gameday.ts:63-118 | The existing-thread check adds no post and no notice and touches only thread records |
| Gameday.RearmLiveUpdate | src/server/leagues/nhl/jobs/gameday.ts:74-112 | A found thread of a running game is cleaned up first when removed, then gets a live update in LIVE_GAME_DEFAULT unless one is listed; it is never replaced |
| Gameday.NoDuplicateThread | src/server/leagues/nhl/jobs/gameday.ts:63-118 | While a recorded thread is found, and the game is over or the jobs can be listed, the job creates no post and sends no notice |
| Gameday.GdtRecorded | src/server/leagues/nhl/jobs/gameday.ts:131-144 | Both directions of the game-thread mapping are stored; unless the game is over the first update is registered at puck-drop, or in LIVE_GAME_DEFAULT for a LIVE or CRIT game; no post, mail or other key changes |
| Gameday.GdtCreated | src/server/leagues/nhl/jobs/gameday.ts:120-151 | A rejected submission only sends "Game day thread creation failed"; an accepted one creates the post with the formatter's title, the body and footer and the configured sticky and sort, then records it |
| Gameday.GdtPostFormatted | src/server/leagues/nhl/jobs/gameday.ts:120-151 | With the program's own formatter an accepted GDT of a game not over is titled "Game Day Thread", "away @ home" and the date and time, separated by bars (a "PGT" title exactly for FINAL/OFF); its text is the formatted body with the footer, carrying the status line |
| Gameday.CreateGdtKeepsOthers | src/server/leagues/nhl/jobs/gameday.ts:120-151 | Creating the thread touches only thread records |
| Gameday.CreateClearsCounter | src/server/leagues/nhl/jobs/gameday.ts:60-61 | A successful fetch clears the attempt counter and nothing afterwards writes it again |
| Gameday.LiveDelayCases | src/server/leagues/nhl/jobs/gameday.ts:229-244 | The next update waits OVERTIME_SHOOTOUT exactly in overtime and shootouts, LIVE_GAME_DEFAULT otherwise |
| Gameday.LiveUpdateLoop | src/server/leagues/nhl/jobs/gameday.ts:155-258 | Without a recorded thread nothing happens; a failed fetch or edit reschedules in LIVE_GAME_DEFAULT without touching posts; a running game gets its next update after the live delay; only live updates and the PGT's creation are added, no notice is sent |
| Gameday.GameOverStep | src/server/leagues/nhl/jobs/gameday.ts:248-257 | Once the game is not running no live update is added: the PGT's creation is scheduled when enabled (nothing for a 304's empty object), else the thread is cleaned up |
| Gameday.LiveUpdateEdits | src/server/leagues/nhl/jobs/gameday.ts:211-226 | A fresh result whose edit succeeds makes the thread's text the formatted game with the footer; its non-empty ETag stays stored unless the thread is cleaned up afterwards; a 304 never edits the text |
| Gameday.NotModifiedEndsLoop | src/server/leagues/nhl/jobs/gameday.ts:205-257 | A 304 registers no further job: with PGTs enabled nothing changes, otherwise the thread is cleaned up even mid-game |
| Postgame.ScheduleNextPgtUpdate | src/server/leagues/nhl/jobs/postgame.ts:230-252 | The PGT update is registered at the given time and its id recorded for the game; only PGT updates are added and none removed |
| Postgame.ScheduleNextPgtUpdateOn | src/server/leagues/nhl/jobs/postgame.ts:230-252 | The platform ends in the world `ScheduleNextPgtUpdate` describes |
| Postgame.ScheduleCleanup | src/server/leagues/nhl/jobs/postgame.ts:255-277 | The PGT cleanup is registered at the given time and its id recorded for the game; only cleanup jobs are added and none removed |
| Postgame.ScheduleCleanupOn | src/server/leagues/nhl/jobs/postgame.ts:255-277 | The platform ends in the world `ScheduleCleanup` describes |
| Postgame.ScheduleCreatePostgameThreadOn | src/server/leagues/nhl/jobs/postgame.ts:161-227 | The platform ends in the world scheduling the PGT's creation describes |
| Postgame.ScheduleCreatePostgameCases | src/server/leagues/nhl/jobs/postgame.ts:161-227 | Disabled PGTs schedule nothing and clean up the recorded GDT; enabled, a job with the same title suppresses scheduling, otherwise the creation is registered under `create-postgame-<id>` and recorded; a missing configuration only sends a notice |
| Postgame.CloseGdtOn | src/server/leagues/nhl/jobs/postgame.ts:84-91 | The platform ends in the world closing the GDT describes |
| Postgame.LinkPgtOn | src/server/leagues/nhl/jobs/postgame.ts:76-82 | The platform ends in the world linking the PGT describes |
| Postgame.CreatePgtOn | src/server/leagues/nhl/jobs/postgame.ts:67-99 | The platform ends in the world creating the PGT describes |
| Postgame.CreatePostgameThreadJobOn | src/server/leagues/nhl/jobs/postgame.ts:14-100 | The platform ends in the world the create-PGT job describes |
| Postgame.NextPgtUpdateJobOn | src/server/leagues/nhl/jobs/postgame.ts:103-158 | The platform ends in the world the PGT update job describes |
| Postgame.CleanupAddsNothing | src/server/threads.ts:191-279 | A cleanup adds no job, post or notice |
| Postgame.PostgameFetchFailure | src/server/leagues/nhl/jobs/postgame.ts:40-65 | A failed fetch leaves the posts alone; below five attempts it counts one more and schedules only the daily check after the capped backoff; at five it deletes the counter and sends "Failed to Post PGT!" |
| Postgame.LinkPgtStore | src/server/leagues/nhl/jobs/postgame.ts:76-79 | Both directions of the game-PGT mapping are stored, the post's entry reading back as the game's number; no post or mail changes |
| Postgame.LinkPgtJobIds | src/server/leagues/nhl/jobs/postgame.ts:81-82 | The ids given to the cleanup job (after PGT_CLEANUP_DELAY) and to the first update (after LIVE_GAME_DEFAULT) are recorded |
| Postgame.LinkPgtKeeps | src/server/leagues/nhl/jobs/postgame.ts:76-82 | Linking touches no key but the two mappings and the two job ids |
| Postgame.LinkPgtRecords | src/server/leagues/nhl/jobs/postgame.ts:76-82 | With distinct job ids, the cleanup and the first update are both registered and recorded, and no other job is added |
| Postgame.PostgameCreated | src/server/leagues/nhl/jobs/postgame.ts:67-91 | After an accepted submission the game maps to the new PGT and back, and its job ids are recorded, surviving the GDT's closing |
| Postgame.PgtLinkedGdt | src/server/leagues/nhl/jobs/postgame.ts:72-82 | Creating and linking the PGT leaves the GDT's record as it was |
| Postgame.PostgameCreatedPost | src/server/leagues/nhl/jobs/postgame.ts:67-91 | The new PGT carries the formatter's title for the game, its body with the footer and the configured sticky and sort, untouched by the GDT's closing |
| Postgame.PgtPostFormatted | src/server/leagues/nhl/jobs/postgame.ts:67-91 | With the program's own formatter a finished game's PGT is titled "PGT" and "away @ home" separated by a bar (a "PGT" title exactly for FINAL/OFF), and its text is the formatted body with the footer, carrying the status line |
| Postgame.PgtCreatedOnce | src/server/leagues/nhl/jobs/postgame.ts:28-33 | Once a PGT is created and recorded, running the job again, with any response at any time, changes nothing |
| Postgame.CloseGdtKeepsOthers | src/server/leagues/nhl/jobs/postgame.ts:84-91 | Closing the GDT touches only thread records |
| Postgame.CreatePgtKeepsOthers | src/server/leagues/nhl/jobs/postgame.ts:67-99 | Creating the PGT touches only thread records, accepted or not |
| Postgame.PgtCounterKept | src/server/leagues/nhl/jobs/postgame.ts:35-100 | After a successful fetch the PGT attempt counter reads as before: it is never cleared |
| Postgame.CleanupKeepsPgtRecords | src/server/threads.ts:249-268 | Cleaning up a post not recorded as a PGT changes no PGT record |
| Postgame.OutsideRecordsKeeps | src/server/threads.ts:191-279 | A change limited to thread records keeps every other key |
| Postgame.CleanupKeysAreRecords | src/server/threads.ts:224-268 | The keys either cleanup branch may delete are all thread records |
| Postgame.CleanupKeepsOthers | src/server/threads.ts:191-279 | A cleanup touches only thread records |
| Postgame.SchedulePostgameKeepsOthers | src/server/leagues/nhl/jobs/postgame.ts:161-227 | Scheduling the PGT's creation touches only thread records, removes no post and sends no notice |
| Postgame.CloseGdtKeeps | src/server/leagues/nhl/jobs/postgame.ts:84-91 | Closing the GDT changes none of the new PGT's records and no post but the GDT |
| Postgame.CloseGdtComment | src/server/leagues/nhl/jobs/postgame.ts:84-91 | The GDT gets the closing comment with the PGT's URL exactly when GDTs are locked; the app's GDT is unstuck and, when locked, locked; its text and every other post stay |
| Postgame.PgtUpdateLoop | src/server/leagues/nhl/jobs/postgame.ts:103-158 | Without a recorded PGT nothing happens; otherwise the next update is registered in LIVE_GAME_DEFAULT except when a fresh OFF response was edited in; no notice is sent |
| Postgame.PgtUpdateEdits | src/server/leagues/nhl/jobs/postgame.ts:123-139 | The PGT's text changes only for a fresh response whose edit succeeds, to the formatted body with the footer; a fresh non-empty ETag is stored |
| Threads.AppendFooter | src/server/threads.ts:97-99 | The result is the body followed by the footer |
| Threads.StickyPost | src/server/threads.ts:112-138 | Only the sticky flag changes, set exactly when already stuck or the post is the app's and stickying is enabled |
| Threads.UnstickyPost | src/server/threads.ts:140-161 | Only the sticky flag changes, cleared for the app's own post |
| Threads.LockPost | src/server/threads.ts:163-189 | Only the lock flag changes, set exactly when already locked or the post is the app's and locking is enabled |
| Threads.GuardsIdempotent | src/server/threads.ts:112-189 | The three guards leave other authors' posts alone, do nothing when disabled, and applied twice act as once |
| Threads.TryCancelScheduledJob | src/server/threads.ts:282-302 | Succeeds exactly when the cancel works or reports "not found"; then the job and `job:<id>` are gone; otherwise the jobs stay |
| Threads.CancelAndForget | src/server/threads.ts:227-243 | The recorded job is cancelled and its key deleted either way; nothing is added and no other key changes |
| Threads.CancelThree | src/server/threads.ts:224-248 | Cancelling under three distinct keys in turn clears all three and changes nothing else |
| Threads.PurgePgt | src/server/threads.ts:224-248 | The PGT's three job keys and both mappings are deleted, the recorded jobs cancelled, nothing else; a NaN game id only deletes the post's mapping |
| Threads.PurgeGdt | src/server/threads.ts:249-268 | The GDT's two job keys, both mappings and the game's ETag are deleted, the recorded jobs cancelled, nothing else; a NaN game id only deletes the post's mapping |
| Threads.CleanupThread | src/server/threads.ts:191-279 | Fails with no change exactly for an empty id or a missing post; otherwise retires the post (unstuck, locked as asked) and purges its PGT records if it has them, else its GDT records |
| Threads.CleanupTwice | src/server/threads.ts:191-279 | Cleaning up the same post again changes nothing (for a post not recorded as both) |
| Threads.TryCreateThread | src/server/threads.ts:9-55 | Succeeds exactly when the submission is accepted; the new post has the title, body with footer, URL, app author, the temporary comment, the sort and sticky as asked; otherwise nothing changes |
| Threads.TryUpdateThread | src/server/threads.ts:58-95 | Succeeds exactly when the post exists and the edit does not throw, and then only its text changes, to the body with the footer |
| Threads.TryAddComment | src/server/threads.ts:101-110 | The comment is appended to the post's comments and nothing else changes |
| Threads.TryStickyThread | src/server/threads.ts:112-138 | The platform's post is updated as `StickyPost` says |
| Threads.TryUnstickyThread | src/server/threads.ts:140-161 | The platform's post is updated as `UnstickyPost` says |
| Threads.TryLockThread | src/server/threads.ts:163-189 | The platform's post is updated as `LockPost` says |
| Threads.TryCancelScheduledJobOn | src/server/threads.ts:282-302 | The platform and result end as `TryCancelScheduledJob` says |
| Threads.CancelAndForgetOn | src/server/threads.ts:227-243 | The platform ends as `CancelAndForget` says |
| Threads.CleanupThreadOn | src/server/threads.ts:191-279 | The platform and result end as `CleanupThread` says |
| Threads.TryCreateThreadOn | src/server/threads.ts:9-55 | The platform and result end as `TryCreateThread` says |
| Threads.TryUpdateThreadOn | src/server/threads.ts:58-95 | The platform and result end as `TryUpdateThread` says |
| Host.Get | src/server/leagues/nhl/jobs/gameday.ts:165 | A key reads as its stored value, and as nothing exactly when absent |
| Host.RunJob | src/server/leagues/nhl/jobs/gameday.ts:319 | The job is registered under the id the scheduler returns; a throw changes nothing |
| Host.CancelJob | src/server/threads.ts:286 | A cancel succeeds, or fails as "not found", exactly for ids the scheduler can cancel, and then removes the job |
| Host.GetPost | src/server/threads.ts:67 | A post is found exactly when one exists under the id |
| Host.Platform.constructor | src/server/leagues/nhl/jobs/gameday.ts:15 | The platform starts in the given world |
| Host.Platform.Read | src/server/leagues/nhl/jobs/gameday.ts:165 | Returns what `Get` gives |
| Host.Platform.Write | src/server/leagues/nhl/jobs/gameday.ts:213 | Stores the value under the key, nothing else |
| Host.Platform.Delete | src/server/threads.ts:287 | Deletes the key, nothing else |
| Host.Platform.Schedule | src/server/leagues/nhl/jobs/gameday.ts:319 | Registers the job as `RunJob` says |
| Host.Platform.Cancel | src/server/threads.ts:286 | Cancels the job as `CancelJob` says |
| Host.Platform.SendMail | src/server/leagues/nhl/jobs/gameday.ts:146-150 | Appends the notice to the mail, nothing else |
| Host.Platform.FetchPost | src/server/threads.ts:67 | Returns what `GetPost` gives |
| Host.Platform.SavePost | src/server/threads.ts:77 | Stores the post under its id, nothing else |
| Formatter.TitleChoice | src/server/leagues/nhl/formatting/formatter.ts:11-41 | A FINAL or OFF game gets the post-game title, any other the game-day title with the API's date (the local date when missing) and local time; the title starts with "PGT" exactly for a finished game |
| Formatter.AssembleStartsWithHeader | src/server/leagues/nhl/formatting/formatter.ts:53-61 | The assembled body starts with the header and so contains every piece of it |
| Formatter.BodySections | src/server/leagues/nhl/formatting/formatter.ts:43-62 | FUT and PRE games get the header alone; every other state, a missing one included, gets header, linescore, goals and penalties in order separated by rules |
| Formatter.BodyHasStatus | src/server/leagues/nhl/formatting/formatter.ts:43-62 | Every body starts with the header and contains the game's status line |
| Formatter.FormatTitleAndStatus | src/server/leagues/nhl/formatting/formatter.ts:11-62 | The program's own formatter titles a FINAL/OFF game "PGT" and "away @ home", and any other game "Game Day Thread", "away @ home" and the API date (else the local date) with the local time, the parts separated by bars; the title starts "PGT" exactly for a finished game; every body carries the status line |
| FormatHeader.LateOtLabel | src/server/leagues/nhl/formatting/formatHeader.ts:59 | A late overtime label ends in 'T' |
| FormatHeader.RegulationLabel | src/server/leagues/nhl/formatting/formatHeader.ts:61 | A regulation label starts with 'P' |
| FormatHeader.FinalLabelIff | src/server/leagues/nhl/formatting/formatHeader.ts:42-62 | The label is a final one exactly for FINAL ("Final (unofficial)") and OFF ("Final (official)") |
| FormatHeader.IntermissionLabelIff | src/server/leagues/nhl/formatting/formatHeader.ts:42-62 | The label names an intermission exactly when a started, unfinished game is in one: 1st, 2nd or plain |
| FormatHeader.TimeRemainingDisplay | src/server/leagues/nhl/formatting/formatHeader.ts:64-68 | Time is shown only for LIVE and CRIT, as "In Progress" in a shootout |
| FormatHeader.CombinedStatusShape | src/server/leagues/nhl/formatting/formatHeader.ts:70-72 | The status is the label alone exactly when there is no time to show, and always starts with the label |
| FormatHeader.Networks | src/server/leagues/nhl/formatting/formatHeader.ts:37-39 | No broadcasts give "None?"; one gives its name |
| FormatHeader.EveryNetworkListed | src/server/leagues/nhl/formatting/formatHeader.ts:37-39 | Every broadcast appears in the networks cell |
| FormatHeader.HeaderHasStatus | src/server/leagues/nhl/formatting/formatHeader.ts:76-82 | The header contains the game's status line |
| Helpers.Split | src/server/leagues/nhl/formatting/helpers.ts:5 | Splitting gives at least one piece, none containing the separator, and more than one exactly when the separator occurs |
| Helpers.JoinSplit | src/server/leagues/nhl/formatting/helpers.ts:5 | Joining the pieces with the separator gives the string back |
| Helpers.FormatTime | src/server/leagues/nhl/formatting/helpers.ts:3-7 | "-" exactly for an empty time or one without ':'; otherwise the first two fields read as numbers and padded to two characters |
| Helpers.FormatTimeClock | src/server/leagues/nhl/formatting/helpers.ts:3-7 | A clock with both fields below 100 comes out as five characters "mm:ss" whose digits read back as the fields |
| Helpers.GroupedStep | src/server/leagues/nhl/formatting/helpers.ts:13-27 | One more play keeps the groups exact |
| Helpers.OrganizePlaysByPeriod | src/server/leagues/nhl/formatting/helpers.ts:9-29 | Goals and penalties are grouped by period (1 when missing), each group in input order, other plays dropped |
| Helpers.GroupOf | src/server/leagues/nhl/formatting/helpers.ts:9-29 | A period has a group exactly when it has plays of the kind, and the group is those plays |
| Helpers.GroupedExactlyOnce | src/server/leagues/nhl/formatting/helpers.ts:9-29 | Every play of the kind and period is in its group as often as in the plays, no other play is |
| Helpers.GetTeamById | src/server/leagues/nhl/formatting/helpers.ts:31-35 | The home team's abbreviation for its id, else the away team's for its id, else "UNK" |
| Helpers.GetPlayerInfo | src/server/leagues/nhl/formatting/helpers.ts:37-45 | No player exactly for a missing or zero id; "00"/"Unknown Player" for an id off the roster; else the number ("00" when it has none) and full name of the first roster entry with that id |
| Helpers.GetStrength | src/server/leagues/nhl/formatting/helpers.ts:47-68 | No strength for a code that is not four digits or is 0101 or 1010; otherwise ENG when the opposing goalie is pulled, EA (own goalie pulled) or PP with more skaters, SHG with fewer, none when even |
| Helpers.StrengthSymmetric | src/server/leagues/nhl/formatting/helpers.ts:54-61 | Reading the situation code backwards swaps home and away |
| Helpers.GetPeriodLabel | src/server/leagues/nhl/formatting/helpers.ts:70-81 | The first play's period type decides SO or the overtime label; without plays the game's shootout flag in period 5 gives SO and its overtime flag from period 4 the overtime label |
| Helpers.PeriodLabelFallback | src/server/leagues/nhl/formatting/helpers.ts:70-81 | Any other period is labelled by its decimal number: a first play neither SO nor OT, or no plays and neither flag case |
| Helpers.ShootoutIffLabelSO | src/server/leagues/nhl/formatting/helpers.ts:83-89 | A period is a shootout exactly when its label is "SO" |
| Helpers.FormatInfraction | src/server/leagues/nhl/formatting/helpers.ts:92-110 | "Penalty" for no key, the fixed text for a listed key, else the key with its first letter capitalised |
| Helpers.ConsSorted | src/server/leagues/nhl/formatting/formatGoals.ts:24-26 | A play no later than all of a sorted sequence can go in front |
| Helpers.FrontLeAll | src/server/leagues/nhl/formatting/formatGoals.ts:24-26 | A play no later than a sorted sequence's first is no later than all of it |
| Helpers.InsertSorted | src/server/leagues/nhl/formatting/formatGoals.ts:24-26 | Inserting keeps the sequence sorted and adds exactly the play |
| Helpers.SortByTimeSorts | src/server/leagues/nhl/formatting/formatGoals.ts:24-26 | Sorting orders the plays by time and is a permutation |
| Helpers.InsertOtherTime | src/server/leagues/nhl/formatting/formatGoals.ts:24-26 | Inserting a play at another time leaves the plays at a given time in order |
| Helpers.InsertSameTime | src/server/leagues/nhl/formatting/formatGoals.ts:24-26 | An inserted play goes ahead of every play at its own time |
| Helpers.SortByTimeStable | src/server/leagues/nhl/formatting/formatGoals.ts:24-26 | The sort is stable, as the stable `Array.prototype.sort`: plays at any one time keep their input order |
| Helpers.PlayerText | src/server/leagues/nhl/formatting/formatGoals.ts:78-84 | A player is printed starting with '#' |
| FormatGoals.ShotTypeText | src/server/leagues/nhl/formatting/formatGoals.ts:62-68 | The title-cased shot type ("Unknown" when missing) gets "&nbsp;shot" exactly for Slap, Snap and Wrist |
| FormatGoals.ShotTypeIgnoresCase | src/server/leagues/nhl/formatting/formatGoals.ts:62-64 | The shot-type cell does not depend on letter case |
| FormatGoals.AssistsText | src/server/leagues/nhl/formatting/formatGoals.ts:78-84 | "Unassisted" exactly without assists; otherwise the assisting players in order, joined by ", " |
| FormatGoals.ClipText | src/server/leagues/nhl/formatting/formatGoals.ts:86-88 | "-" exactly without a clip URL, else a link to it |
| FormatGoals.GoalRowFromPlay | src/server/leagues/nhl/formatting/formatGoals.ts:52-91 | No row exactly without details or without a scorer; otherwise a row from bar to newline |
| FormatGoals.GoalRowCells | src/server/leagues/nhl/formatting/formatGoals.ts:56-90 | With a scorer the row is its seven cells between bars: period, time, team, scorer, shot type with the strength of the scoring side (home exactly when the team's abbreviation is the home team's), assists, clip |
| FormatGoals.SortedGoalsEmpty | src/server/leagues/nhl/formatting/formatGoals.ts:24-26 | A period has sorted goals exactly when it has goals |
| FormatGoals.GoalsBody | src/server/leagues/nhl/formatting/formatGoals.ts:11-43 | The goals section is empty exactly before the first period |
| FormatGoals.AppendPeriodGoals | src/server/leagues/nhl/formatting/formatGoals.ts:23-35 | One period appends its goals' rows in time order and reports whether it had goals |
| FormatGoals.AppendGoalPeriods | src/server/leagues/nhl/formatting/formatGoals.ts:23-35 | The loop appends the rows of periods 1 to the current one and reports whether any had goals |
| FormatGoals.BuildBodyGoals | src/server/leagues/nhl/formatting/formatGoals.ts:11-43 | Returns the goals section `GoalsBody` describes |
| FormatGoals.HasGoalsUpToIff | src/server/leagues/nhl/formatting/formatGoals.ts:23-35 | The flag is set exactly when some period up to the current one has a goal |
| FormatGoals.PeriodGoalRowsShape | src/server/leagues/nhl/formatting/formatGoals.ts:23-35 | A period without goals gives no rows; rows start with a bar |
| FormatGoals.GoalsPlaceholderIffNoGoals | src/server/leagues/nhl/formatting/formatGoals.ts:37-39 | After puck-drop the table holds only the placeholder exactly when no period so far had a goal |
| FormatGoals.InSorted | src/server/leagues/nhl/formatting/formatGoals.ts:24-26 | Sorting keeps every goal |
| FormatGoals.RowWithinPeriodRows | src/server/leagues/nhl/formatting/formatGoals.ts:23-35 | Every goal of the period has its row in the period's rows |
| FormatGoals.EveryGoalListed | src/server/leagues/nhl/formatting/formatGoals.ts:11-43 | Every goal of a period so far has its row, under its period's label, in the section |
| FormatPenalties.PenaltyRowFromPlay | src/server/leagues/nhl/formatting/formatPenalties.ts:56-78 | No row exactly without details or for a non-penalty; otherwise a row opening with the period label and ending with a newline |
| FormatPenalties.PenaltyRowCells | src/server/leagues/nhl/formatting/formatPenalties.ts:60-77 | The row is its seven cells joined by bars: period, time, team, committing player ("Team" when none), infraction, drawing player ("—" when none), minutes (0 when missing) |
| FormatPenalties.PenaltiesBody | src/server/leagues/nhl/formatting/formatPenalties.ts:12-47 | The penalties section is empty exactly before the first period |
| FormatPenalties.AppendPeriodPenalties | src/server/leagues/nhl/formatting/formatPenalties.ts:24-39 | A shootout period appends nothing; another appends its penalties' rows in time order and reports whether it had any |
| FormatPenalties.AppendPenaltyPeriods | src/server/leagues/nhl/formatting/formatPenalties.ts:24-39 | The loop appends the rows of periods 1 to the current one and reports whether any listed a penalty |
| FormatPenalties.BuildBodyPenalties | src/server/leagues/nhl/formatting/formatPenalties.ts:12-47 | Returns the penalties section `PenaltiesBody` describes |
| FormatPenalties.SortedPenaltiesEmpty | src/server/leagues/nhl/formatting/formatPenalties.ts:28-30 | Sorting neither adds nor drops penalties (the same multiset), so a period has sorted penalties exactly when it has penalties |
| FormatPenalties.HasPenaltiesUpToIff | src/server/leagues/nhl/formatting/formatPenalties.ts:24-39 | The flag is set exactly when some non-shootout period so far has a penalty |
| FormatPenalties.PenaltiesPlaceholderIffNone | src/server/leagues/nhl/formatting/formatPenalties.ts:41-43 | After puck-drop the table holds only the placeholder when no non-shootout period had a penalty, else those periods' rows without it |
| FormatPenalties.InSortedPenalties | src/server/leagues/nhl/formatting/formatPenalties.ts:28-30 | Sorting keeps every penalty |
| FormatPenalties.RowWithinPeriodPenaltyRows | src/server/leagues/nhl/formatting/formatPenalties.ts:24-39 | Every penalty of a listed period has its row in the period's rows |
| FormatPenalties.EveryPenaltyListed | src/server/leagues/nhl/formatting/formatPenalties.ts:12-47 | Every penalty of a non-shootout period so far has its row, under its period's label, in the section |
| FormatLinescore.GetTeamStatFirst | src/server/leagues/nhl/formatting/formatLinescore.ts:20-28 | A statistic is missing exactly when no entry has the category, else the side's value of the first such entry |
| FormatLinescore.FaceoffText | src/server/leagues/nhl/formatting/formatLinescore.ts:59-60 | A recorded faceoff share is shown ending in '%' |
| FormatLinescore.PeriodGoalCountsStep | src/server/leagues/nhl/formatting/formatLinescore.ts:42-48 | Each period adds its own goal count to the record |
| FormatLinescore.StatsOf | src/server/leagues/nhl/formatting/formatLinescore.ts:30-72 | Total goals and shots are the team's score and shots on goal (0 when missing); the faceoff cell is "-" exactly when the statistic is missing |
| FormatLinescore.CountPeriodGoals | src/server/leagues/nhl/formatting/formatLinescore.ts:42-48 | The loop gives the team's goals of each period from 1 to the current one |
| FormatLinescore.BuildStats | src/server/leagues/nhl/formatting/formatLinescore.ts:30-72 | Returns the statistics `StatsOf` describes |
| FormatLinescore.BuildLinescoreStats | src/server/leagues/nhl/formatting/formatLinescore.ts:30-72 | Returns both teams' statistics |
| FormatLinescore.PeriodColumnsStep | src/server/leagues/nhl/formatting/formatLinescore.ts:84-95 | Each period after the third adds its own column |
| FormatLinescore.BuildPeriodColumns | src/server/leagues/nhl/formatting/formatLinescore.ts:84-95 | The loop gives the columns `PeriodColumns` describes |
| FormatLinescore.ColumnsShape | src/server/leagues/nhl/formatting/formatLinescore.ts:84-95 | There are max(3, current period) columns, for periods 1, 2, 3, ... in order |
| FormatLinescore.NoBarInLabel | src/server/leagues/nhl/formatting/helpers.ts:70-81 | No period label contains a bar |
| FormatLinescore.BarredCells | src/server/leagues/nhl/formatting/formatLinescore.ts:101-104 | A barred row of cells without bars holds one bar more than it has cells |
| FormatLinescore.HeaderMatchesSeparator | src/server/leagues/nhl/formatting/formatLinescore.ts:101-104 | The header and the separator row each have as many cells as there are columns |
| FormatLinescore.HeaderMatchesSeparatorCells | src/server/leagues/nhl/formatting/formatLinescore.ts:101-103 | No header cell contains a bar |
| FormatLinescore.LinescoreBody | src/server/leagues/nhl/formatting/formatLinescore.ts:74-131 | The linescore is empty exactly before the first period |
| FormatLinescore.BuildBodyLinescore | src/server/leagues/nhl/formatting/formatLinescore.ts:74-131 | Returns the linescore `LinescoreBody` describes |
| FormatLinescore.PeriodCellOf | src/server/leagues/nhl/formatting/formatLinescore.ts:110-117 | The cell of a period column is "-" for a shootout, else the period's recorded goals, 0 when none is recorded |
| FormatLinescore.PeriodCellCounts | src/server/leagues/nhl/formatting/formatLinescore.ts:107-118 | A team's period cell is "-" for a shootout, else its goals in the period, 0 for a period not reached |
| FormatLinescore.TeamRowCells | src/server/leagues/nhl/formatting/formatLinescore.ts:107-125 | A team's row is its cells between bars: team in bold, period cells, total in bold, shots, then the extended cells when shown |
| FormatLinescore.RowCellsUnderHeader | src/server/leagues/nhl/formatting/formatLinescore.ts:97-125 | A row has one cell per header cell; faceoffs, blocks and hits sit under F/O%, BLK and HIT when extended statistics are shown, else the row ends with shots under SOG |
| FormatLinescore.CountCellDash | src/server/leagues/nhl/formatting/formatLinescore.ts:120-122 | A blocks or hits cell is "-" for zero and the rendered value otherwise, so "-" exactly for zero when no other value renders as "-" |
| FormatLinescore.LinescoreExtendedColumns | src/server/leagues/nhl/formatting/formatLinescore.ts:97-131 | Header, separator and both rows carry the extended columns exactly when the summary has team statistics; the rows are their cells between bars |
| FormatLinescore.PeriodGoalsOfStats | src/server/leagues/nhl/formatting/formatLinescore.ts:42-48 | The record has exactly the periods 1 to the current one, each with the team's goals |
| FormatLinescore.TeamGoalsBounded | src/server/leagues/nhl/formatting/formatLinescore.ts:42-48 | Two different teams are credited at most the goal plays there are |
| FormatLinescore.BothTeamsWithinPeriodGoals | src/server/leagues/nhl/formatting/formatLinescore.ts:42-48 | A period's goals of both teams add up to at most its goal plays |
| Tables.AnyUpToIff | src/server/leagues/nhl/formatting/formatGoals.ts:23-35 | The flag is set exactly when some period from 1 to n has the property |
| Tables.NoneNoRows | src/server/leagues/nhl/formatting/formatGoals.ts:23-35 | Without anything to list there are no rows |
| Tables.RowsStartWith | src/server/leagues/nhl/formatting/formatGoals.ts:27-33 | Rows that start with a character make a text that starts with it |
| Tables.RowsUpToStartWith | src/server/leagues/nhl/formatting/formatGoals.ts:23-35 | The same across periods |
| Tables.RowWithinRows | src/server/leagues/nhl/formatting/formatGoals.ts:27-33 | Every play's row is a piece of the rows |
| Tables.RowOfMemberWithinRows | src/server/leagues/nhl/formatting/formatGoals.ts:27-33 | The row of any member play is a piece of the rows |
| Tables.WithinRowsUpTo | src/server/leagues/nhl/formatting/formatGoals.ts:23-35 | A piece of one period's rows is a piece of all periods' rows |
| Tables.TablePlaceholderIff | src/server/leagues/nhl/formatting/formatGoals.ts:37-42 | The table holds only the placeholder exactly when nothing was listed |
| Tables.TableShape | src/server/leagues/nhl/formatting/formatPenalties.ts:41-46 | The table holds the placeholder when nothing was listed, else the rows without it |
| Tables.TableListsRow | src/server/leagues/nhl/formatting/formatGoals.ts:18-42 | A piece of a period's rows is a piece of the table |
| Tables.AppendRows | src/server/leagues/nhl/formatting/formatGoals.ts:27-33 | The loop appends every play's row in order |
| Logging.LevelNamed | src/server/utils/Logger.ts:3-9 | A level is found exactly for a member name, and it has that name |
| Logging.LevelSettingCases | src/server/utils/Logger.ts:21-25 | Without a saved setting, or with an unknown one, the level is Info; a saved level name reads back as that level |
| Logging.LevelNameInjective | src/server/utils/Logger.ts:3-9 | Different levels have different names |
| Logging.EnabledLevels | src/server/utils/Logger.ts:73-75 | Errors are always written, each threshold writes its own level, trace only under Trace, and enabled levels are downward closed |
| Logging.StackText | src/server/utils/Logger.ts:83-89 | The stack part is empty exactly without a stack |
| Logging.CauseText | src/server/utils/Logger.ts:83-89 | The cause part is empty exactly without a cause |
| Logging.FormatError | src/server/utils/Logger.ts:83-89 | An error with neither stack nor cause is shown as its text alone |
| Logging.ErrorFramed | src/server/utils/Logger.ts:83-89 | An error with a stack or a cause is framed by a rule and contains its text |
| Logging.ErrorShowsParts | src/server/utils/Logger.ts:83-89 | The stack and the cause appear in the error's text |
| Logging.ArgTexts | src/server/utils/Logger.ts:91-100 | Each argument becomes its text, in order |
| Logging.MessageShows | src/server/utils/Logger.ts:91-100 | A line starts with its stamp, then the bracketed label, names the level in capitals and contains every argument's text, with `<undefined>` and `<null>` |
| Logging.LevelTags | src/server/utils/Logger.ts:99 | The levels are written as ERROR, WARN, INFO, DEBUG, TRACE |
| Logging.PadTwoDigits | src/server/utils/Logger.ts:77-81 | A part below 100 is padded to two digits that read back as the part |
| Logging.FourDigits | src/server/utils/Logger.ts:77-81 | A four-digit year is written with four characters |
| Logging.Pair | src/server/utils/Logger.ts:77-81 | Two two-character parts joined by a separator sit at fixed places |
| Logging.Layout | src/server/utils/Logger.ts:77-81 | The date fields of the stamp sit at fixed places |
| Logging.StampShape | src/server/utils/Logger.ts:77-81 | A stamp is 19 characters with fixed separators whose fields read back as year, month counted from 1, day, hour, minute and second |
| Logging.Logger.constructor | src/server/utils/Logger.ts:27-30 | The logger has the label and the given level, Warn by default, no open trace and an empty console |
| Logging.Logger.Create | src/server/utils/Logger.ts:17-19 | The logger takes the level from the settings |
| Logging.Logger.SetLabel | src/server/utils/Logger.ts:32-35 | Only the label changes |
| Logging.Logger.SetLogLevel | src/server/utils/Logger.ts:32-35 | Only the threshold changes |
| Logging.Logger.Log | src/server/utils/Logger.ts:48-71 | The formatted line is written exactly when its level is enabled, and nothing else changes |
| Logging.Logger.TraceStart | src/server/utils/Logger.ts:37-40 | The span is opened under the name and its start traced when tracing is enabled |
| Logging.Logger.TraceEnd | src/server/utils/Logger.ts:42-46 | Without an open span it fails and changes nothing; otherwise the end is traced under the span's name and the span closed |
| SubmitForm.FirstValue | src/server/actions/submitForm.ts:18-25 | An array gives its first element, nothing when empty; a single value gives itself |
| SubmitForm.FirstValueOfArray | src/server/actions/submitForm.ts:18-25 | An array starting with a value normalises like the value |
| SubmitForm.ApprovalIgnoresCase | src/server/actions/submitForm.ts:41-52 | Approval does not depend on letter case, on either side |
| SubmitForm.Validate | src/server/actions/submitForm.ts:18-61 | A missing league or team is rejected with the 400 toast, an unapproved subreddit with the denial; an accepted form is saved as league, the postgame flag and the team |
| SubmitForm.SavedTeam | src/server/actions/submitForm.ts:68-73 | The saved team's abbreviation, or "N/A" when missing or empty |
| SubmitForm.FormActionOn | src/server/actions/submitForm.ts:14-101 | The platform, the saved configuration and the toast end as the form action describes |
| SubmitForm.RejectedChangesNothing | src/server/actions/submitForm.ts:27-52 | A rejected form saves nothing and changes nothing, with the toast its reason gives |
| SubmitForm.AcceptedSavesThenChecks | src/server/actions/submitForm.ts:57-97 | An accepted form is saved; the daily check runs only when it reads back, and the toast names the team read back; a failed read gets the failure toast and changes nothing |
| SubmitForm.AcceptedClearsDailyCounter | src/server/actions/submitForm.ts:63-88 | With the schedule fetched, an accepted form ends with the daily counter cleared and a 200 toast |
| Strings.NatToString | src/server/leagues/nhl/jobs/gameday.ts:45 | `String(n)` of a count is a non-empty string of decimal digits, one digit exactly below 10 |
| Strings.IntToString | src/server/leagues/nhl/formatting/formatPenalties.ts:77 | `String(n)` of an integer starts with a minus sign exactly when it is negative, and is digits otherwise |
| Strings.NumberOf | src/server/threads.ts:225 | `Number(s)` is NaN exactly for a non-empty string that is not all decimal digits |
| Strings.NumberOfNatToString | src/server/threads.ts:225 | A stored game id reads back as itself |
| Strings.ParseInt | src/server/leagues/nhl/jobs/gameday.ts:30 | `parseInt` is NaN exactly when the string does not start with a digit |
| Strings.ParseIntNatToString | src/server/leagues/nhl/jobs/gameday.ts:30 | A stored count reads back as itself |
| Strings.PadStart2 | src/server/leagues/nhl/formatting/helpers.ts:6 | The string ends the result, which is two characters or the string's length when longer, and only zeros precede it |
| Strings.PadStart2Digits | src/server/leagues/nhl/formatting/helpers.ts:6 | A number below 100 is padded to exactly two digits that read back as it |
| Strings.Lower | src/server/actions/submitForm.ts:41-43 | Every character is lower-cased in place (ASCII letters) |
| Strings.LowerIdempotent | src/server/actions/submitForm.ts:41-43 | Lower-casing twice is lower-casing once |
| Strings.Upper | src/server/utils/Logger.ts:99 | Every character is upper-cased in place (ASCII letters) |
| Strings.CapitalizeFirst | src/server/leagues/nhl/formatting/helpers.ts:108 | The first character is upper-cased and the rest kept |
| Strings.TitleCaseFrom | src/server/leagues/nhl/formatting/formatGoals.ts:64 | The length is kept and the first character is upper-cased exactly when it is a word character starting a word |
| Seqs.Find | src/server/leagues/nhl/jobs/dailyGameCheck.ts:57-59 | Finds an element exactly when one matches, and then the first |
| Seqs.FilterMultiset | src/server/leagues/nhl/jobs/gameday.ts:100-103 | Every matching element is kept as often as it occurs in the input, every other dropped |
| Seqs.Filter | src/server/leagues/nhl/jobs/gameday.ts:100-103 | Keeps only elements of the input that match, no more of them than the input has |

## Left out

- The expiry (TTL) the code sets on every key (`redis.expire`): keys never expire in the model.
- Exceptions from Redis, from `reddit.getPostById` and from the comment and sort calls are not modelled. The exceptions the model does include are: a scheduler that refuses a job, a cancel that fails, a job listing that throws, a submission that is rejected, an edit that throws, a fetch that fails, and a configuration that cannot be read. As a result, the catch of `nextLiveUpdateJob` at gameday.ts:177-183 is not modelled.
- The create jobs fetch without an ETag, so they are given the fetch result as a `Result<Game>`. A 304 reply to that unconditional request is not modelled.
- The `!game` branches for a JSON `null` body (gameday.ts:205-209, postgame.ts:116-121) are not modelled. Only the 304's empty result carries no game.
- The scheduler does not drop a job after it runs. Job runs are invoked by the caller, never by the model.
- The job data holds only the game id, the post id and the title. The subreddit name and the thread title are used only in logs and are left out.
- `Number` and `parseInt` are modelled on decimal digits only. Signs, exponents, whitespace and hexadecimal are not.
- Case mapping covers ASCII letters only. `localeCompare` is an ordinal comparison.
- Locale dates, times and number formatting are parameters (`Helpers.Locale`). So are the clock (`now`), the platform's choices (`Host.Env`) and the team labels (`teamLabel`).
- The approved-subreddit list is a parameter.
- Floating point: the faceoff share is a `real`, and its rendering is a locale parameter.
- Concurrency: two jobs running at once are not modelled. Each handler is one atomic step on the world.
- The penalty row has no leading bar, unlike its header. It is modelled as written.
- The formatters read the configuration again to find the team's time zone (`config!.nhl!`, which throws without a team). The model takes the resulting locale as a parameter and does not model that throw.
- The logger's console is a sequence of lines. The stack `console.trace` prints is not modelled.
- The five log methods are one method, `Logging.Logger.Log`, taking the level. `JSON.stringify` of an object argument appears only as the text the argument carries.
- Log levels looked up through numeric keys, and form values of other types, are not modelled.
- A handler reads the configuration once. Nested reads are assumed to return the same configuration.
- Postgame.LinkPgtRecords: requires that the scheduler gives the cleanup and the first update distinct ids.
- Saving the subreddit's configuration is the `saved` output of the form action. The configuration store is not part of the world.
- The key used to save a configuration and the key used to read it back are those of `src/server/config.ts`, which is not part of this model. The form action takes the read-back as a parameter.
- RETRY_MAX_TIME, LATE_SCHEDULE_THRESHOLD and PGT_CLEANUP_DELAY are positive constants whose values are left open. Every property holds for all of their values.
- The text of the closing comment for the game-day thread (before the PGT's URL) is a constant whose value is left open.
- The app's name (`APPNAME`, which the stickying and locking guards compare the post's author with) is a constant whose value is left open; its definition is not part of this model.
- Sending moderator mail is appending the subject to `mail`. Message bodies and the mail's recipients are not modelled.
