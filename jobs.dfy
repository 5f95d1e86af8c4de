/** `getJobData` of src/server/utils/jobs.ts: a scheduled job looked up by id in the job listing. */
module JobsUtil {
  import opened Wrappers
  import opened Constants
  import opened Host
  import Seqs

  /** A job as `scheduler.listJobs()` lists it: its id and the job. */
  datatype Listed = Listed(id: JobId, job: Job)

  /**
   * `getJobData(id)` given what `listJobs` returned; `None` for a listing is a thrown error,
   * which the lookup swallows.
   */
  function GetJobData(listing: Option<seq<Listed>>, id: JobId): (r: Option<Listed>)
    ensures listing.None? ==> r.None?
    ensures r.Some? ==> r.value.id == id
    ensures listing.Some? ==> (r.None? <==> forall i :: 0 <= i < |listing.value| ==> listing.value[i].id != id)
    ensures r.Some? ==> exists i :: 0 <= i < |listing.value| && listing.value[i] == r.value &&
                           forall k :: 0 <= k < i ==> listing.value[k].id != id
  {
    match listing
    case None => None
    case Some(l) => Seqs.Find(l, (e: Listed) => e.id == id)
  }

  /**
   * Whether `listing` enumerates `jobs`: each entry is a scheduled job under its id, and every
   * scheduled job is listed.
   */
  ghost predicate Enumerates(listing: seq<Listed>, jobs: map<JobId, Job>)
  {
    (forall i :: 0 <= i < |listing| ==> listing[i].id in jobs && jobs[listing[i].id] == listing[i].job) &&
    (forall id :: id in jobs ==> exists i :: 0 <= i < |listing| && listing[i].id == id)
  }

  /** `scheduler.listJobs()`: every scheduled job, in some order; `None` when the listing throws. */
  method ListJobsOn(h: Platform, env: Env) returns (listing: Option<seq<Listed>>)
    ensures listing.None? <==> env.listFails
    ensures listing.Some? ==> Enumerates(listing.value, h.jobs)
  {
    if env.listFails {
      return None;
    }
    var rest := h.jobs.Keys;
    var acc: seq<Listed> := [];
    while rest != {}
      invariant rest <= h.jobs.Keys
      invariant forall i :: 0 <= i < |acc| ==> acc[i].id in h.jobs && h.jobs[acc[i].id] == acc[i].job
      invariant forall id :: id in h.jobs && id !in rest ==> exists i :: 0 <= i < |acc| && acc[i].id == id
      decreases |rest|
    {
      var id :| id in rest;
      ghost var before := acc;
      acc := acc + [Listed(id, h.jobs[id])];
      rest := rest - {id};
      forall id' | id' in h.jobs && id' !in rest
        ensures exists i :: 0 <= i < |acc| && acc[i].id == id'
      {
        if id' == id {
          assert acc[|acc| - 1].id == id';
        } else {
          var i :| 0 <= i < |before| && before[i].id == id';
          assert acc[i].id == id';
        }
      }
    }
    return Some(acc);
  }

  /** `getJobData` against the platform's scheduler, as the job handlers use it. */
  function LookupJob(w: World, env: Env, id: JobId): Option<Job>
  {
    if env.listFails || id !in w.jobs then None else Some(w.jobs[id])
  }

  function JobOf(l: Option<Listed>): Option<Job>
  {
    match l
    case None => None
    case Some(e) => Some(e.job)
  }

  /** Looking a job up in any listing of the scheduler is looking it up in the job table. */
  lemma GetJobDataOfEnumeration(w: World, env: Env, listing: seq<Listed>, id: JobId)
    requires Enumerates(listing, w.jobs)
    ensures JobOf(GetJobData(if env.listFails then None else Some(listing), id)) == LookupJob(w, env, id)
  {
    if !env.listFails && id in w.jobs {
      var i :| 0 <= i < |listing| && listing[i].id == id;
    }
  }

  /** Whether a live-update job for game `g` is scheduled. */
  predicate HasLiveUpdateJob(w: World, g: GameId)
  {
    exists id :: id in w.jobs && w.jobs[id].name == NextLiveUpdate && w.jobs[id].data.gameId == Some(g)
  }

  predicate IsLiveUpdateFor(g: GameId, e: Listed)
  {
    e.job.name == NextLiveUpdate && e.job.data.gameId == Some(g)
  }

  /**
   * The `jobs.filter(job => job.data?.gameId === gameId && job.name === NEXT_LIVE_UPDATE)` of the
   * create-thread job is non-empty exactly when such a job is scheduled.
   */
  lemma LiveUpdateFilter(w: World, listing: seq<Listed>, g: GameId)
    requires Enumerates(listing, w.jobs)
    ensures |Seqs.Filter(listing, e => IsLiveUpdateFor(g, e))| > 0 <==> HasLiveUpdateJob(w, g)
  {
    var p := (e: Listed) => IsLiveUpdateFor(g, e);
    var f := Seqs.Filter(listing, p);
    if HasLiveUpdateJob(w, g) {
      var id :| id in w.jobs && w.jobs[id].name == NextLiveUpdate && w.jobs[id].data.gameId == Some(g);
      var i :| 0 <= i < |listing| && listing[i].id == id;
      Seqs.FilterMultiset(listing, p, listing[i]);
      assert listing[i] in multiset(listing);
      assert listing[i] in multiset(f);
    }
    if |f| > 0 {
      assert f[0] in f;
    }
  }
}
