/**
 * Post and job housekeeping of src/server/threads.ts: creating, editing, sticking, locking and
 * cleaning up a thread, and cancelling a scheduled job.
 *
 * Each operation is a function on `World` stating what the operation does, and a method of the
 * same name that performs it on a `Platform` one call at a time and is proved to end in the
 * state the function gives.
 */
module Threads {
  import opened Wrappers
  import opened Constants
  import opened Strings
  import opened Host

  /** The fixed footer appended to every thread body. */
  const Footer: string := "\n\n---\n\n[GameDayLive](https://developers.reddit.com/apps/gamedaylive) is an [open source project](<https://github.com/Arctyc/GameDayLive>) that is not affiliated with any organization."

  /** The notice the app adds as the first comment of every thread it creates. */
  const TempComment: string :=
    "This thread was created by GameDayLive, an application that is in active development.  \n" +
    "GameDayLive is currently testing its features and performance in this subreddit. We appreciate your patience in the event of any issues.  \n\n" +
    "To see more, report a bug, or contribute to the project, please visit [the github page](<https://github.com/Arctyc/GameDayLive>)."

  /** `appendFooter(body)`. */
  function AppendFooter(body: string): (r: string)
    ensures |r| == |body| + |Footer|
    ensures r[..|body|] == body && r[|body|..] == Footer
  {
    body + Footer
  }

  // ---------------------------------------------------------------------------------------
  // Guards on a single post

  /** `tryStickyThread(post, enabled)`: sticks the app's own post when enabled. */
  function StickyPost(p: Post, enabled: bool): (r: Post)
    ensures r == p.(stickied := r.stickied)
    ensures r.stickied <==> p.stickied || (p.author == AppName && enabled)
  {
    if p.author != AppName || !enabled || p.stickied then p else p.(stickied := true)
  }

  /** `tryUnstickyThread(post)`: unsticks the app's own post. */
  function UnstickyPost(p: Post): (r: Post)
    ensures r == p.(stickied := r.stickied)
    ensures r.stickied <==> p.stickied && p.author != AppName
  {
    if p.author != AppName || !p.stickied then p else p.(stickied := false)
  }

  /** `tryLockThread(post, enabled)`: locks the app's own post when enabled. */
  function LockPost(p: Post, enabled: bool): (r: Post)
    ensures r == p.(locked := r.locked)
    ensures r.locked <==> p.locked || (p.author == AppName && enabled)
  {
    if p.author != AppName || !enabled || p.locked then p else p.(locked := true)
  }

  /** Each guard is a no-op on a post the app did not write, and applying it twice is applying it once. */
  lemma GuardsIdempotent(p: Post, enabled: bool)
    ensures p.author != AppName ==> StickyPost(p, enabled) == p && UnstickyPost(p) == p && LockPost(p, enabled) == p
    ensures !enabled ==> StickyPost(p, enabled) == p && LockPost(p, enabled) == p
    ensures StickyPost(StickyPost(p, enabled), enabled) == StickyPost(p, enabled)
    ensures UnstickyPost(UnstickyPost(p)) == UnstickyPost(p)
    ensures LockPost(LockPost(p, enabled), enabled) == LockPost(p, enabled)
  {
  }

  /** Applies `f` to post `id` if there is one. */
  function UpdatePost(w: World, id: PostId, f: Post -> Post): World
  {
    if id in w.posts then PutPost(w, id, f(w.posts[id])) else w
  }

  // ---------------------------------------------------------------------------------------
  // Frames: what an operation may change

  /** The key/value store of `r` agrees with `w` on every key outside `keys` and the `job:<id>` keys. */
  ghost predicate StoreSameOutside(w: World, r: World, keys: set<Key>)
  {
    forall k :: k !in keys && !k.JobEntry? ==> Get(r, k) == Get(w, k)
  }

  /** `r`'s jobs are `w`'s jobs with some removed, and `job:<id>` keys were only deleted. */
  ghost predicate OnlyRemoves(w: World, r: World)
  {
    r.jobs.Keys <= w.jobs.Keys &&
    (forall id :: id in r.jobs ==> r.jobs[id] == w.jobs[id]) &&
    (forall id :: JobEntry(id) in r.store ==> JobEntry(id) in w.store && r.store[JobEntry(id)] == w.store[JobEntry(id)])
  }

  /** Every job removed between `w` and `r` was the one recorded under one of `keys` in `w`. */
  ghost predicate RemovedOnlyRecorded(w: World, r: World, keys: set<Key>)
  {
    forall id :: id in w.jobs && id !in r.jobs ==> exists k :: k in keys && Get(w, k) == Some(id)
  }

  /** Every job recorded under one of `keys` in `w` whose cancel succeeds is gone in `r`. */
  ghost predicate RecordedCancelled(w: World, r: World, env: Env, keys: set<Key>)
  {
    forall k :: k in keys && Present(Get(w, k)) && Get(w, k).value !in env.cancelBroken ==>
      Get(w, k).value !in r.jobs
  }

  // ---------------------------------------------------------------------------------------
  // Cancelling jobs

  /**
   * `tryCancelScheduledJob(id)`. A cancel that succeeds or fails with "not found" deletes
   * `job:<id>` and reports ok; any other failure keeps the key and reports not ok.
   */
  function TryCancelScheduledJob(w: World, env: Env, id: JobId): (r: (World, bool))
    ensures r.1 <==> id !in env.cancelBroken
    ensures r.1 ==> id !in r.0.jobs && JobEntry(id) !in r.0.store
    ensures r.0.jobs == w.jobs - (if r.1 then {id} else {})
    ensures r.0.store == w.store - (if r.1 then {JobEntry(id)} else {})
    ensures r.0.posts == w.posts && r.0.mail == w.mail
  {
    var (w1, ok) := CancelJob(w, env, id);
    if ok then (DelKey(w1, JobEntry(id)), true) else (w1, false)
  }

  /**
   * The `if (jobId) { await tryCancelScheduledJob(jobId); await redis.del(key); }` step of a
   * cleanup: cancels the job recorded under `k`, if any, and forgets it whether or not the
   * cancel succeeded.
   */
  function CancelAndForget(w: World, env: Env, k: Key): (r: World)
    requires !k.JobEntry?
    ensures !Present(Get(r, k))
    ensures Present(Get(w, k)) ==> k !in r.store
    ensures StoreSameOutside(w, r, {k}) && OnlyRemoves(w, r)
    ensures RemovedOnlyRecorded(w, r, {k}) && RecordedCancelled(w, r, env, {k})
    ensures r.posts == w.posts && r.mail == w.mail
  {
    var id := Get(w, k);
    if Present(id) then DelKey(TryCancelScheduledJob(w, env, id.value).0, k) else w
  }

  // ---------------------------------------------------------------------------------------
  // Cleanup

  /** Cancelling and forgetting under three keys in turn is cancelling and forgetting under the three. */
  lemma CancelThree(w: World, env: Env, a: Key, b: Key, c: Key)
    requires !a.JobEntry? && !b.JobEntry? && !c.JobEntry? && a != b && b != c && a != c
    ensures var r := CancelAndForget(CancelAndForget(CancelAndForget(w, env, a), env, b), env, c);
      !Present(Get(r, a)) && !Present(Get(r, b)) && !Present(Get(r, c)) &&
      StoreSameOutside(w, r, {a, b, c}) && OnlyRemoves(w, r) &&
      RemovedOnlyRecorded(w, r, {a, b, c}) && RecordedCancelled(w, r, env, {a, b, c})
  {
    var w1 := CancelAndForget(w, env, a);
    var w2 := CancelAndForget(w1, env, b);
    var r := CancelAndForget(w2, env, c);
    assert Get(w2, a) == Get(w1, a) && Get(r, a) == Get(w2, a);
    assert Get(r, b) == Get(w2, b);
    assert Get(w1, b) == Get(w, b) && Get(w2, c) == Get(w1, c) && Get(w1, c) == Get(w, c);
    forall id | id in w.jobs && id !in r.jobs
      ensures exists k :: k in {a, b, c} && Get(w, k) == Some(id)
    {
      if id !in w1.jobs {
        assert Get(w, a) == Some(id);
      } else if id !in w2.jobs {
        assert Get(w, b) == Some(id);
      } else {
        assert Get(w, c) == Some(id);
      }
    }
  }

  /** The job keys a post-game thread's cleanup cancels. */
  function PgtJobKeys(g: GameId): set<Key> { {JobPostgame(g), JobPgtCleanup(g), JobPgtUpdate(g)} }

  /** The job keys a game-day thread's cleanup cancels. */
  function GdtJobKeys(g: GameId): set<Key> { {JobCreate(g), JobGdtUpdate(g)} }

  /**
   * The post-game branch of `tryCleanupThread` for post `p` whose recorded game id reads as `g`
   * (`None` when `Number` gives NaN: no key is ever written under a NaN game id, so only the
   * post's own mapping is deleted).
   */
  function PurgePgt(w: World, env: Env, p: PostId, g: Option<GameId>): (r: World)
    ensures g.None? ==> r == DelKey(w, PgtToGame(p))
    ensures g.Some? ==>
      (forall k :: k in PgtJobKeys(g.value) ==> !Present(Get(r, k))) &&
      GameToPgt(g.value) !in r.store && PgtToGame(p) !in r.store &&
      StoreSameOutside(w, r, PgtKeys(g.value, p)) && OnlyRemoves(w, r) &&
      RemovedOnlyRecorded(w, r, PgtJobKeys(g.value)) && RecordedCancelled(w, r, env, PgtJobKeys(g.value))
    ensures r.posts == w.posts && r.mail == w.mail
  {
    match g
    case None => DelKey(w, PgtToGame(p))
    case Some(g) =>
      CancelThree(w, env, JobPostgame(g), JobPgtCleanup(g), JobPgtUpdate(g));
      var w3 := CancelAndForget(CancelAndForget(CancelAndForget(w, env, JobPostgame(g)), env, JobPgtCleanup(g)), env, JobPgtUpdate(g));
      DelKey(DelKey(w3, GameToPgt(g)), PgtToGame(p))
  }

  /** The game-day branch of `tryCleanupThread`, as `PurgePgt`. */
  function PurgeGdt(w: World, env: Env, p: PostId, g: Option<GameId>): (r: World)
    ensures g.None? ==> r == DelKey(w, ThreadToGame(p))
    ensures g.Some? ==>
      (forall k :: k in GdtJobKeys(g.value) ==> !Present(Get(r, k))) &&
      GameToThread(g.value) !in r.store && ThreadToGame(p) !in r.store && GameEtag(g.value) !in r.store &&
      StoreSameOutside(w, r, GdtKeys(g.value, p)) && OnlyRemoves(w, r) &&
      RemovedOnlyRecorded(w, r, GdtJobKeys(g.value)) && RecordedCancelled(w, r, env, GdtJobKeys(g.value))
    ensures r.posts == w.posts && r.mail == w.mail
  {
    match g
    case None => DelKey(w, ThreadToGame(p))
    case Some(g) =>
      var w1 := CancelAndForget(w, env, JobCreate(g));
      var w2 := CancelAndForget(w1, env, JobGdtUpdate(g));
      assert RemovedOnlyRecorded(w, w2, GdtJobKeys(g)) by {
        forall id | id in w.jobs && id !in w2.jobs
          ensures exists k :: k in GdtJobKeys(g) && Get(w, k) == Some(id)
        {
          if id !in w1.jobs {
            assert Get(w, JobCreate(g)) == Some(id);
          } else {
            assert Get(w, JobGdtUpdate(g)) == Some(id);
          }
        }
      }
      DelKey(DelKey(DelKey(w2, GameToThread(g)), ThreadToGame(p)), GameEtag(g))
  }

  /** The post after cleanup has unstuck and (when `lock`) locked it. */
  function Retire(p: Post, lock: bool): Post { LockPost(UnstickyPost(p), lock) }

  /**
   * `tryCleanupThread(postId, lock)`: fails without any change for an empty id or a post that
   * cannot be found; otherwise unsticks and locks the post, then forgets its post-game mapping
   * if it has one, else its game-day mapping if it has one, and succeeds.
   */
  function CleanupThread(w: World, env: Env, p: PostId, lock: bool): (r: (World, bool))
    ensures !r.1 <==> p == "" || p !in w.posts
    ensures !r.1 ==> r.0 == w
    ensures r.1 ==> r.0.posts == w.posts[p := Retire(w.posts[p], lock)] && r.0.mail == w.mail
    ensures r.1 && Present(Get(w, PgtToGame(p))) ==>
      match NumberOf(Get(w, PgtToGame(p)).value)
      case None => r.0.store == w.store - {PgtToGame(p)} && r.0.jobs == w.jobs
      case Some(g) =>
        (forall k :: k in PgtJobKeys(g) ==> !Present(Get(r.0, k))) &&
        GameToPgt(g) !in r.0.store && PgtToGame(p) !in r.0.store &&
        StoreSameOutside(w, r.0, PgtKeys(g, p)) && OnlyRemoves(w, r.0) &&
        RemovedOnlyRecorded(w, r.0, PgtJobKeys(g)) && RecordedCancelled(w, r.0, env, PgtJobKeys(g))
    ensures r.1 && !Present(Get(w, PgtToGame(p))) && Present(Get(w, ThreadToGame(p))) ==>
      match NumberOf(Get(w, ThreadToGame(p)).value)
      case None => r.0.store == w.store - {ThreadToGame(p)} && r.0.jobs == w.jobs
      case Some(g) =>
        (forall k :: k in GdtJobKeys(g) ==> !Present(Get(r.0, k))) &&
        GameToThread(g) !in r.0.store && ThreadToGame(p) !in r.0.store && GameEtag(g) !in r.0.store &&
        StoreSameOutside(w, r.0, GdtKeys(g, p)) && OnlyRemoves(w, r.0) &&
        RemovedOnlyRecorded(w, r.0, GdtJobKeys(g)) && RecordedCancelled(w, r.0, env, GdtJobKeys(g))
    ensures r.1 && !Present(Get(w, PgtToGame(p))) && !Present(Get(w, ThreadToGame(p))) ==>
      r.0.store == w.store && r.0.jobs == w.jobs
  {
    if p == "" || p !in w.posts then (w, false)
    else
      var w1 := PutPost(w, p, Retire(w.posts[p], lock));
      var gdt := Get(w1, ThreadToGame(p));
      var pgt := Get(w1, PgtToGame(p));
      if Present(pgt) then (PurgePgt(w1, env, p, NumberOf(pgt.value)), true)
      else if Present(gdt) then (PurgeGdt(w1, env, p, NumberOf(gdt.value)), true)
      else (w1, true)
  }

  /**
   * Cleaning a post up a second time changes nothing, as long as the post was not recorded
   * both as a game-day thread and as a post-game thread.
   */
  lemma CleanupTwice(w: World, env: Env, p: PostId, lock: bool)
    requires !(Present(Get(w, ThreadToGame(p))) && Present(Get(w, PgtToGame(p))))
    ensures var r := CleanupThread(w, env, p, lock); CleanupThread(r.0, env, p, lock) == r
  {
    var r := CleanupThread(w, env, p, lock);
    if r.1 {
      GuardsIdempotent(UnstickyPost(w.posts[p]), lock);
      assert Retire(r.0.posts[p], lock) == r.0.posts[p];
      assert !Present(Get(r.0, PgtToGame(p)));
      assert !Present(Get(r.0, ThreadToGame(p)));
      assert r.0.posts[p := Retire(r.0.posts[p], lock)] == r.0.posts;
    }
  }

  // ---------------------------------------------------------------------------------------
  // Creating and editing

  /**
   * `tryCreateThread(title, body, sticky, sort)`: submits the post with the footer appended,
   * adds the notice comment, sets the comment sort and sticks it when `sticky`. The result is
   * the new post's id and URL, or `None` when the submission failed.
   */
  function TryCreateThread(w: World, env: Env, title: string, body: string, sticky: bool, sort: Sort)
    : (r: (World, Option<Submission>))
    ensures r.1.Some? <==> env.submit.Accepted?
    ensures r.1.None? ==> r.0 == w
    ensures r.1.Some? ==>
      r.1.value == env.submit && env.submit.id in r.0.posts &&
      var p := r.0.posts[env.submit.id];
      r.0 == w.(posts := w.posts[env.submit.id := p]) &&
      p.title == title && p.text == AppendFooter(body) && p.url == env.submit.url &&
      p.author == AppName && !p.removed && p.stickied == sticky && !p.locked &&
      p.sort == sort && p.comments == [TempComment]
  {
    match env.submit
    case Rejected => (w, None)
    case Accepted(id, url) =>
      var submitted := Post(title, AppendFooter(body), url, AppName, false, false, false, New, []);
      var w1 := PutPost(w, id, submitted);
      var w2 := UpdatePost(w1, id, (q: Post) => q.(comments := q.comments + [TempComment]));
      var w3 := UpdatePost(w2, id, (q: Post) => q.(sort := sort));
      var w4 := UpdatePost(w3, id, q => StickyPost(q, sticky));
      (w4, Some(env.submit))
  }

  /**
   * `tryUpdateThread(postId, body)`: fails without change when the post cannot be found or the
   * edit throws; otherwise the post's text becomes the body with the footer, and nothing else
   * changes.
   */
  function TryUpdateThread(w: World, env: Env, p: PostId, body: string): (r: (World, bool))
    ensures r.1 <==> p in w.posts && !env.editFails
    ensures !r.1 ==> r.0 == w
    ensures r.1 ==> r.0 == w.(posts := w.posts[p := w.posts[p].(text := AppendFooter(body))])
  {
    if p !in w.posts || env.editFails then (w, false)
    else (PutPost(w, p, w.posts[p].(text := AppendFooter(body))), true)
  }

  /** `tryAddComment(post, text)` on a post that exists. */
  function TryAddComment(w: World, p: PostId, text: string): (r: World)
    requires p in w.posts
    ensures r == w.(posts := w.posts[p := w.posts[p].(comments := w.posts[p].comments + [text])])
  {
    PutPost(w, p, w.posts[p].(comments := w.posts[p].comments + [text]))
  }

  // ---------------------------------------------------------------------------------------
  // The same operations performed on the platform

  method TryStickyThread(h: Platform, p: PostId, enabled: bool)
    modifies h
    ensures h.W() == UpdatePost(old(h.W()), p, q => StickyPost(q, enabled))
  {
    var post := h.FetchPost(p);
    if post.None? {
      return;
    }
    if post.value.author != AppName || !enabled || post.value.stickied {
      return;
    }
    h.SavePost(p, post.value.(stickied := true));
  }

  method TryUnstickyThread(h: Platform, p: PostId)
    modifies h
    ensures h.W() == UpdatePost(old(h.W()), p, UnstickyPost)
  {
    var post := h.FetchPost(p);
    if post.None? {
      return;
    }
    if post.value.author != AppName || !post.value.stickied {
      return;
    }
    h.SavePost(p, post.value.(stickied := false));
  }

  method TryLockThread(h: Platform, p: PostId, enabled: bool)
    modifies h
    ensures h.W() == UpdatePost(old(h.W()), p, q => LockPost(q, enabled))
  {
    var post := h.FetchPost(p);
    if post.None? {
      return;
    }
    if post.value.author != AppName || !enabled || post.value.locked {
      return;
    }
    h.SavePost(p, post.value.(locked := true));
  }

  method TryCancelScheduledJobOn(h: Platform, env: Env, id: JobId) returns (ok: bool)
    modifies h
    ensures (h.W(), ok) == TryCancelScheduledJob(old(h.W()), env, id)
  {
    ok := h.Cancel(env, id);
    if ok {
      h.Delete(JobEntry(id));
    }
  }

  method CancelAndForgetOn(h: Platform, env: Env, k: Key)
    requires !k.JobEntry?
    modifies h
    ensures h.W() == CancelAndForget(old(h.W()), env, k)
  {
    var id := h.Read(k);
    if Present(id) {
      var _ := TryCancelScheduledJobOn(h, env, id.value);
      h.Delete(k);
    }
  }

  method CleanupThreadOn(h: Platform, env: Env, p: PostId, lock: bool) returns (ok: bool)
    modifies h
    ensures (h.W(), ok) == CleanupThread(old(h.W()), env, p, lock)
  {
    if p == "" {
      return false;
    }
    var post := h.FetchPost(p);
    if post.None? {
      return false;
    }
    ghost var w0 := h.W();
    TryUnstickyThread(h, p);
    TryLockThread(h, p, lock);
    assert h.W() == PutPost(w0, p, Retire(w0.posts[p], lock));
    var gdt := h.Read(ThreadToGame(p));
    var pgt := h.Read(PgtToGame(p));
    if Present(pgt) {
      var g := NumberOf(pgt.value);
      if g.None? {
        h.Delete(PgtToGame(p));
      } else {
        CancelAndForgetOn(h, env, JobPostgame(g.value));
        CancelAndForgetOn(h, env, JobPgtCleanup(g.value));
        CancelAndForgetOn(h, env, JobPgtUpdate(g.value));
        h.Delete(GameToPgt(g.value));
        h.Delete(PgtToGame(p));
      }
    } else if Present(gdt) {
      var g := NumberOf(gdt.value);
      if g.None? {
        h.Delete(ThreadToGame(p));
      } else {
        CancelAndForgetOn(h, env, JobCreate(g.value));
        CancelAndForgetOn(h, env, JobGdtUpdate(g.value));
        h.Delete(GameToThread(g.value));
        h.Delete(ThreadToGame(p));
        h.Delete(GameEtag(g.value));
      }
    }
    return true;
  }

  method TryCreateThreadOn(h: Platform, env: Env, title: string, body: string, sticky: bool, sort: Sort)
    returns (created: Option<Submission>)
    modifies h
    ensures (h.W(), created) == TryCreateThread(old(h.W()), env, title, body, sticky, sort)
  {
    if env.submit.Rejected? {
      return None;
    }
    var id := env.submit.id;
    h.SavePost(id, Post(title, AppendFooter(body), env.submit.url, AppName, false, false, false, New, []));
    var post := h.FetchPost(id);
    h.SavePost(id, post.value.(comments := post.value.comments + [TempComment]));
    post := h.FetchPost(id);
    h.SavePost(id, post.value.(sort := sort));
    TryStickyThread(h, id, sticky);
    return Some(env.submit);
  }

  method TryUpdateThreadOn(h: Platform, env: Env, p: PostId, body: string) returns (ok: bool)
    modifies h
    ensures (h.W(), ok) == TryUpdateThread(old(h.W()), env, p, body)
  {
    var text := AppendFooter(body);
    var post := h.FetchPost(p);
    if post.None? || env.editFails {
      return false;
    }
    h.SavePost(p, post.value.(text := text));
    return true;
  }
}
