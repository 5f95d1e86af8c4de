/**
 * What the job handlers of src/server/leagues/nhl/jobs/ have in common: registering a job and
 * recording the id the scheduler gives it, the attempt counters with their exponential backoff,
 * the check for a job that is already scheduled under the same title, and
 * `scheduleDailyGameCheck` of dailyGameCheck.ts, through which every failed fetch is retried.
 */
module Scheduling {
  import opened Wrappers
  import opened Strings
  import opened Constants
  import opened Host
  import opened JobsUtil

  // ---------------------------------------------------------------------------------------
  // Registering jobs

  /**
   * `const jobId = await scheduler.runJob(job); await redis.set(k, jobId);` inside a `try`
   * whose `catch` only logs: a scheduler that throws leaves everything as it was.
   */
  function RunAndRecord(w: World, env: Env, job: Job, k: Key): (r: World)
    ensures env.runJob(job).Some? ==>
      r.jobs == w.jobs[env.runJob(job).value := job] && r.store == w.store[k := env.runJob(job).value]
    ensures env.runJob(job).None? ==> r == w
    ensures r.posts == w.posts && r.mail == w.mail
  {
    var (w1, id) := RunJob(w, env, job);
    if id.Some? then SetKey(w1, k, id.value) else w1
  }

  /** Every job of `r` is a job of `w`, unchanged, or has one of the `names`. */
  ghost predicate NewJobsNamed(w: World, r: World, names: set<JobName>)
  {
    forall id :: id in r.jobs ==> (id in w.jobs && r.jobs[id] == w.jobs[id]) || r.jobs[id].name in names
  }

  /** The job `job` is registered in `r` and its id is recorded under `k`, or registering it threw. */
  ghost predicate Registered(r: World, env: Env, job: Job, k: Key)
  {
    env.runJob(job).Some? ==>
      var id := env.runJob(job).value;
      id in r.jobs && r.jobs[id] == job && Get(r, k) == Some(id)
  }

  /** Jobs added in two steps are jobs added under the union of the names. */
  lemma NewJobsNamedTrans(a: World, b: World, c: World, n: set<JobName>, m: set<JobName>)
    requires NewJobsNamed(a, b, n) && NewJobsNamed(b, c, m)
    ensures NewJobsNamed(a, c, n + m)
  {
  }

  method RunAndRecordOn(h: Platform, env: Env, job: Job, k: Key)
    modifies h
    ensures h.W() == RunAndRecord(old(h.W()), env, job, k)
  {
    var id := h.Schedule(env, job);
    if id.Some? {
      h.Write(k, id.value);
    }
  }

  /**
   * `existingJobId ? await getJobData(existingJobId) : undefined` followed by
   * `existingJob?.data?.jobTitle === jobTitle`: a job recorded under `k` is still scheduled and
   * carries the title `title`. A listing that throws finds nothing.
   */
  predicate AlreadyScheduled(w: World, env: Env, k: Key, title: string)
  {
    var id := Get(w, k);
    Present(id) && var job := LookupJob(w, env, id.value); job.Some? && job.value.data.jobTitle == Some(title)
  }

  method AlreadyScheduledOn(h: Platform, env: Env, k: Key, title: string) returns (b: bool)
    ensures b == AlreadyScheduled(h.W(), env, k, title)
  {
    var id := h.Read(k);
    if !Present(id) {
      return false;
    }
    var listing := ListJobsOn(h, env);
    if listing.Some? {
      GetJobDataOfEnumeration(h.W(), env, listing.value, id.value);
    } else {
      assert LookupJob(h.W(), env, id.value).None?;
    }
    var job := GetJobData(listing, id.value);
    b := job.Some? && job.value.job.data.jobTitle == Some(title);
  }

  // ---------------------------------------------------------------------------------------
  // Attempt counters and backoff

  function Pow2(n: nat): (r: nat)
    ensures r >= 1
  {
    if n == 0 then 1 else 2 * Pow2(n - 1)
  }

  lemma {:induction false} Pow2Monotone(m: nat, n: nat)
    requires m <= n
    ensures Pow2(m) <= Pow2(n)
    decreases n
  {
    if m < n {
      Pow2Monotone(m, n - 1);
    }
  }

  /**
   * `Math.min(60000 * Math.pow(2, a), cap)` for an attempt count `a` that `parseInt` read (a
   * count of decimal digits, so never negative).
   */
  function Backoff(a: nat, cap: Positive): (r: nat)
    ensures r <= cap && r <= BackoffBase * Pow2(a)
    ensures r == cap || r == BackoffBase * Pow2(a)
  {
    if BackoffBase * Pow2(a) < cap then BackoffBase * Pow2(a) else cap
  }

  /** A later attempt never waits less than an earlier one. */
  lemma BackoffMonotone(a: nat, b: nat, cap: Positive)
    requires a <= b
    ensures Backoff(a, cap) <= Backoff(b, cap)
  {
    Pow2Monotone(a, b);
  }

  /**
   * The daily check's own 30-minute cap never bites for the attempts that are retried: attempts
   * 0 to 4 wait one, two, four, eight and sixteen minutes.
   */
  lemma OuterBackoffUncapped(a: nat)
    requires a < MaxAttempts
    ensures Backoff(a, DailyCheckOuterCap) == BackoffBase * Pow2(a)
  {
    Pow2Monotone(a, 4);
    assert Pow2(4) == 16;
  }

  /** `parseInt(await redis.get(k) || '0')`: an absent or empty counter reads as 0; `None` is NaN. */
  function Attempts(w: World, k: Key): (r: Option<nat>)
    ensures !Present(Get(w, k)) ==> r == Some(0)
  {
    ParseIntNatToString(0);
    ParseInt(if Present(Get(w, k)) then Get(w, k).value else "0")
  }

  method AttemptsOn(h: Platform, k: Key) returns (a: Option<nat>)
    ensures a == Attempts(h.W(), k)
  {
    var s := h.Read(k);
    a := ParseInt(if Present(s) then s.value else "0");
  }

  /** `attemptNumber < 5`, which is false for NaN. */
  predicate CanRetry(a: Option<nat>)
  {
    a.Some? && a.value < MaxAttempts
  }

  // ---------------------------------------------------------------------------------------
  // scheduleDailyGameCheck

  /** The job `scheduleDailyGameCheck(runAt)` submits. */
  function DailyJob(runAt: int): Job
  {
    Job("daily-game-check", DailyGameCheck, JobData(None, None, None), runAt)
  }

  /**
   * `scheduleDailyGameCheck(runAt)`: the daily check, always under the id
   * "daily-game-check", is registered to run at `runAt` and its job id is recorded under the
   * daily-check key.
   */
  function ScheduleDailyGameCheck(w: World, env: Env, runAt: int): (r: World)
    ensures Registered(r, env, DailyJob(runAt), JobDailyCheck)
    ensures r.jobs.Keys <= w.jobs.Keys + (if env.runJob(DailyJob(runAt)).Some? then {env.runJob(DailyJob(runAt)).value} else {})
    ensures NewJobsNamed(w, r, {DailyGameCheck})
    ensures forall k :: k != JobDailyCheck ==> Get(r, k) == Get(w, k)
    ensures r.posts == w.posts && r.mail == w.mail
  {
    RunAndRecord(w, env, DailyJob(runAt), JobDailyCheck)
  }

  method ScheduleDailyGameCheckOn(h: Platform, env: Env, runAt: int)
    modifies h
    ensures h.W() == ScheduleDailyGameCheck(old(h.W()), env, runAt)
  {
    RunAndRecordOn(h, env, DailyJob(runAt), JobDailyCheck);
  }

  // ---------------------------------------------------------------------------------------
  // The retry step of a failed fetch

  /**
   * What a handler does when its fetch fails, given the attempt count `a` it read from `k`: below
   * five attempts it stores one more and schedules the daily check after the backoff; otherwise
   * it sends the give-up notice, if it has one, and deletes the counter.
   */
  function RetryOrGiveUp(w: World, env: Env, k: Key, a: Option<nat>, cap: Positive, now: int, notice: Option<string>): World
  {
    if CanRetry(a) then ScheduleDailyGameCheck(SetKey(w, k, NatToString(a.value + 1)), env, now + Backoff(a.value, cap))
    else DelKey(if notice.Some? then Notify(w, notice.value) else w, k)
  }

  /**
   * A retry raises the counter by exactly one and schedules nothing but the daily check, after
   * a wait of `Backoff(a, cap)`; giving up forgets the counter, schedules nothing and sends the
   * notice. Either way no other key and no post changes.
   */
  lemma RetryStep(w: World, env: Env, k: Key, a: Option<nat>, cap: Positive, now: int, notice: Option<string>)
    requires k != JobDailyCheck
    ensures var r := RetryOrGiveUp(w, env, k, a, cap, now, notice);
      CanRetry(a) ==>
        Attempts(r, k) == Some(a.value + 1) && a.value + 1 <= MaxAttempts &&
        Registered(r, env, DailyJob(now + Backoff(a.value, cap)), JobDailyCheck) &&
        NewJobsNamed(w, r, {DailyGameCheck}) && r.mail == w.mail
    ensures var r := RetryOrGiveUp(w, env, k, a, cap, now, notice);
      !CanRetry(a) ==>
        k !in r.store && r.jobs == w.jobs &&
        r.mail == w.mail + (if notice.Some? then [notice.value] else [])
    ensures var r := RetryOrGiveUp(w, env, k, a, cap, now, notice);
      r.posts == w.posts &&
      forall k' :: k' != k && k' != JobDailyCheck ==> Get(r, k') == Get(w, k')
  {
    var r := RetryOrGiveUp(w, env, k, a, cap, now, notice);
    if CanRetry(a) {
      ParseIntNatToString(a.value + 1);
      assert Get(r, k) == Some(NatToString(a.value + 1));
    }
  }

  method RetryOrGiveUpOn(h: Platform, env: Env, k: Key, a: Option<nat>, cap: Positive, now: int, notice: Option<string>)
    modifies h
    ensures h.W() == RetryOrGiveUp(old(h.W()), env, k, a, cap, now, notice)
  {
    if CanRetry(a) {
      var backoffMs := Backoff(a.value, cap);
      h.Write(k, NatToString(a.value + 1));
      ScheduleDailyGameCheckOn(h, env, now + backoffMs);
    } else {
      if notice.Some? {
        h.SendMail(notice.value);
      }
      h.Delete(k);
    }
  }
}
