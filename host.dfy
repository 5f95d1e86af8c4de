/**
 * The platform the bot runs on: the Redis key/value store, the job scheduler, the subreddit's
 * posts and the moderator notifications. `World` is the value of all four; `Platform` is the
 * mutable object the job handlers update in place, one primitive call at a time.
 *
 * What the platform answers is not known to the program and is given as an `Env`: the id the
 * scheduler assigns to a job, which cancels fail, what a submission returns, and whether an edit
 * or a job listing fails.
 */
module Host {
  import opened Wrappers
  import opened Constants

  /** The `data` of a scheduled job (the subreddit name is left out). */
  datatype JobData = JobData(gameId: Option<GameId>, postId: Option<PostId>, jobTitle: Option<string>)

  /** A `ScheduledJob`: the id it asks for, its handler name, its data and when it runs. */
  datatype Job = Job(tag: string, name: JobName, data: JobData, runAt: int)

  datatype Sort = New | Best

  /** A post, as far as the program reads and changes it. */
  datatype Post = Post(
    title: string,
    text: string,
    url: string,
    author: string,
    removed: bool,
    stickied: bool,
    locked: bool,
    sort: Sort,
    comments: seq<string>)

  /** The per-thread settings of a subreddit's configuration. */
  datatype ThreadConfig = ThreadConfig(enabled: bool, sticky: bool, lock: bool, sort: Sort)

  datatype Config = Config(gameday: ThreadConfig, postgame: ThreadConfig, nhl: Option<string>)

  /**
   * How reading the subreddit configuration turns out: it throws (no stored entry, or text
   * that is not JSON), it yields a falsy value (stored `null`), or it yields a configuration.
   */
  datatype ConfigLookup = Unreadable | Absent | Found(config: Config)

  datatype Submission = Rejected | Accepted(id: PostId, url: string)

  datatype Env = Env(
    runJob: Job -> Option<JobId>,   // the id the scheduler returns, None when it throws
    cancelBroken: set<JobId>,       // jobs whose cancel fails with an error other than "not found"
    submit: Submission,             // the outcome of submitting a new post
    editFails: bool,                // whether editing a post's text throws
    listFails: bool)                // whether listing the scheduled jobs throws

  datatype World = World(
    store: map<Key, string>,
    jobs: map<JobId, Job>,
    posts: map<PostId, Post>,
    mail: seq<string>)              // subjects of the moderator notifications sent so far

  /** The app's own user name, which every post it submits carries as author. */
  const AppName: string

  /** `redis.get(k)`. */
  function Get(w: World, k: Key): (r: Option<string>)
    ensures r.Some? <==> k in w.store
    ensures r.Some? ==> r.value == w.store[k]
  {
    if k in w.store then Some(w.store[k]) else None
  }

  /** JavaScript truthiness of what `redis.get` returns: present and not the empty string. */
  predicate Present(o: Option<string>) { o.Some? && o.value != "" }

  function SetKey(w: World, k: Key, v: string): World
  {
    w.(store := w.store[k := v])
  }

  function DelKey(w: World, k: Key): World
  {
    w.(store := w.store - {k})
  }

  /** `scheduler.runJob(job)`: the job is registered under the id the scheduler returns. */
  function RunJob(w: World, env: Env, job: Job): (r: (World, Option<JobId>))
    ensures r.1 == env.runJob(job)
    ensures r.1.Some? ==> r.0 == w.(jobs := w.jobs[r.1.value := job])
    ensures r.1.None? ==> r.0 == w
  {
    match env.runJob(job)
    case Some(id) => (w.(jobs := w.jobs[id := job]), Some(id))
    case None => (w, None)
  }

  /**
   * `scheduler.cancelJob(id)`. An id the scheduler does not know is reported as "not found";
   * the result says whether the cancel succeeded or failed that way.
   */
  function CancelJob(w: World, env: Env, id: JobId): (r: (World, bool))
    ensures r.1 <==> id !in env.cancelBroken
    ensures r.1 ==> r.0 == w.(jobs := w.jobs - {id})
    ensures !r.1 ==> r.0 == w
  {
    if id in env.cancelBroken then (w, false) else (w.(jobs := w.jobs - {id}), true)
  }

  /** `sendModmail(subject, body)`, recorded by its subject. */
  function Notify(w: World, subject: string): World
  {
    w.(mail := w.mail + [subject])
  }

  /** `reddit.getPostById(id)`: undefined for an id with no post. */
  function GetPost(w: World, id: PostId): (r: Option<Post>)
    ensures r.Some? <==> id in w.posts
    ensures r.Some? ==> r.value == w.posts[id]
  {
    if id in w.posts then Some(w.posts[id]) else None
  }

  /** Replaces the post `id` by `p`. */
  function PutPost(w: World, id: PostId, p: Post): World
  {
    w.(posts := w.posts[id := p])
  }

  /**
   * The platform as a mutable object. Each primitive method is one call the handlers make
   * (`redis.set`, `redis.del`, `scheduler.runJob`, `scheduler.cancelJob`, a post update,
   * `sendModmail`) and states its new state through `W()`.
   */
  class Platform {
    var store: map<Key, string>
    var jobs: map<JobId, Job>
    var posts: map<PostId, Post>
    var mail: seq<string>

    function W(): World
      reads this
    {
      World(store, jobs, posts, mail)
    }

    constructor (w: World)
      ensures W() == w
    {
      store := w.store;
      jobs := w.jobs;
      posts := w.posts;
      mail := w.mail;
    }

    method Read(k: Key) returns (r: Option<string>)
      ensures r == Get(W(), k)
    {
      r := if k in store then Some(store[k]) else None;
    }

    method Write(k: Key, v: string)
      modifies this
      ensures W() == SetKey(old(W()), k, v)
    {
      store := store[k := v];
    }

    method Delete(k: Key)
      modifies this
      ensures W() == DelKey(old(W()), k)
    {
      store := store - {k};
    }

    method Schedule(env: Env, job: Job) returns (id: Option<JobId>)
      modifies this
      ensures (W(), id) == RunJob(old(W()), env, job)
    {
      id := env.runJob(job);
      if id.Some? {
        jobs := jobs[id.value := job];
      }
    }

    method Cancel(env: Env, id: JobId) returns (ok: bool)
      modifies this
      ensures (W(), ok) == CancelJob(old(W()), env, id)
    {
      ok := id !in env.cancelBroken;
      if ok {
        jobs := jobs - {id};
      }
    }

    method SendMail(subject: string)
      modifies this
      ensures W() == Notify(old(W()), subject)
    {
      mail := mail + [subject];
    }

    method FetchPost(id: PostId) returns (r: Option<Post>)
      ensures r == GetPost(W(), id)
    {
      r := if id in posts then Some(posts[id]) else None;
    }

    method SavePost(id: PostId, p: Post)
      modifies this
      ensures W() == PutPost(old(W()), id, p)
    {
      posts := posts[id := p];
    }
  }
}
