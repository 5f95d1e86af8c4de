/**
 * The configuration form's handler, `formAction` of src/server/actions/submitForm.ts: the
 * submitted values are normalised and checked, the subreddit must be on the approved list,
 * the configuration is saved and read back, and the daily game check runs at once.
 */
module SubmitForm {
  import opened Wrappers
  import opened Strings
  import opened Api
  import opened Constants
  import opened Host
  import opened DailyCheck

  /** A submitted form field: absent, a single value, or an array of values. */
  datatype Field<T> = Missing | Single(v: T) | Many(items: seq<T>)

  /** `Array.isArray(x) ? x[0] : x`: an array gives its first element, `undefined` when it is empty. */
  function FirstValue<T>(f: Field<T>): (r: Option<T>)
    ensures f.Missing? ==> r.None?
    ensures f.Single? ==> r == Some(f.v)
    ensures f.Many? ==> (r.Some? <==> f.items != []) && (f.items != [] ==> r.value == f.items[0])
  {
    match f
    case Missing => None
    case Single(v) => Some(v)
    case Many(items) => if items == [] then None else Some(items[0])
  }

  /** Normalising is the same for a value and for an array that starts with it. */
  lemma FirstValueOfArray<T>(v: T, rest: seq<T>)
    ensures FirstValue(Many([v] + rest)) == FirstValue(Single(v))
  {
  }

  /** The value of the post-game checkbox, as the form sends it. */
  datatype Flag = Text(s: string) | Bool(b: bool)

  /** `!!value`. */
  predicate FlagOn(value: Option<Flag>)
  {
    match value
    case None => false
    case Some(Text(s)) => s != ""
    case Some(Bool(b)) => b
  }

  /** A string value that JavaScript treats as true: present and not empty. */
  predicate Given(value: Option<string>)
  {
    value.Some? && value.value != ""
  }

  datatype FormBody = FormBody(league: Field<string>, team: Field<string>, enablePostgameThreads: Field<Flag>)

  /** The `SubredditConfig` the form builds and saves. */
  datatype SubredditConfig = SubredditConfig(league: string, enablePostgameThreads: bool, nhl: Option<string>)

  /** The toast the form's response shows: the status, its appearance (if any) and its text. */
  datatype Toast = Toast(status: nat, appearance: Option<string>, text: string)

  const MissingSelection := Toast(400, Some("error"), "League and team must be selected.")
  const Denied := Toast(200, None, "Configuration denied - unauthorized subreddit. For more info: r/gamedaylive_dev")
  const SaveFailed := Toast(400, Some("error"), "Failed to save configuration.")

  function Saved(teamName: string): Toast
  {
    Toast(200, Some("success"), "Configuration saved for team: " + teamName)
  }

  /**
   * Lines 41-43: the subreddit, lower-cased, is on the approved list compared without regard to
   * case; a missing or empty subreddit name is never approved.
   */
  predicate Approved(approved: seq<string>, subreddit: Option<string>)
  {
    subreddit.Some? && Lower(subreddit.value) != "" &&
    exists i :: 0 <= i < |approved| && Lower(approved[i]) == Lower(Lower(subreddit.value))
  }

  /**
   * The approval check ignores case on both sides: two spellings of a name that differ only
   * in case are both approved or both denied, and a name on the list is approved however the
   * list spells it.
   */
  lemma ApprovalIgnoresCase(approved: seq<string>, a: string, b: string)
    requires Lower(a) == Lower(b)
    ensures Approved(approved, Some(a)) <==> Approved(approved, Some(b))
    ensures a != "" && (exists i :: 0 <= i < |approved| && Lower(approved[i]) == Lower(a)) ==> Approved(approved, Some(b))
  {
    LowerIdempotent(a);
    LowerIdempotent(b);
    assert |Lower(a)| == |a| && |Lower(b)| == |b|;
  }

  /** What the checks before the save decide: a toast that ends the request, or the config to save. */
  datatype Decision = Reject(toast: Toast) | Save(config: SubredditConfig)

  /** Lines 18-61: normalise the values, check them and the subreddit, and build the configuration. */
  function Validate(body: FormBody, subreddit: Option<string>, approved: seq<string>): (d: Decision)
    ensures d.Save? ==> Given(FirstValue(body.league)) && Given(FirstValue(body.team)) && Approved(approved, subreddit)
    ensures d.Save? ==>
      d.config == SubredditConfig(FirstValue(body.league).value, FlagOn(FirstValue(body.enablePostgameThreads)),
                                  Some(FirstValue(body.team).value))
    ensures !Given(FirstValue(body.league)) || !Given(FirstValue(body.team)) ==> d == Reject(MissingSelection)
    ensures Given(FirstValue(body.league)) && Given(FirstValue(body.team)) && !Approved(approved, subreddit) ==>
      d == Reject(Denied)
  {
    var leagueValue := FirstValue(body.league);
    var teamValue := FirstValue(body.team);
    var enablePostgameThreadsValue := FirstValue(body.enablePostgameThreads);
    if !Given(leagueValue) || !Given(teamValue) then Reject(MissingSelection)
    else if !Approved(approved, subreddit) then Reject(Denied)
    else Save(SubredditConfig(leagueValue.value, FlagOn(enablePostgameThreadsValue), Some(teamValue.value)))
  }

  /** `savedConfig?.nhl?.teamAbbreviation`, "N/A" when it is missing or empty. */
  function SavedTeam(readBack: ConfigLookup): (r: string)
    ensures readBack.Found? && Given(readBack.config.nhl) ==> r == readBack.config.nhl.value
    ensures !(readBack.Found? && Given(readBack.config.nhl)) ==> r == "N/A"
  {
    if readBack.Found? && Given(readBack.config.nhl) then readBack.config.nhl.value else "N/A"
  }

  /** What handling one submission produced: the configuration saved, if any, the toast and the new world. */
  datatype Outcome = Outcome(saved: Option<SubredditConfig>, toast: Toast, world: World)

  /**
   * The whole request, given the subreddit's name, the approved list, what reading the
   * configuration back gives (the daily check reads the same), the team-label lookup and what
   * the daily check needs. A read-back that throws lands in the handler's `catch`.
   */
  function FormAction(w: World, env: Env, body: FormBody, subreddit: Option<string>, approved: seq<string>,
                      readBack: ConfigLookup, teamLabel: string -> string,
                      today: string, resp: ScheduleResponse, now: int): Outcome
  {
    match Validate(body, subreddit, approved)
    case Reject(toast) => Outcome(None, toast, w)
    case Save(config) =>
      if readBack.Unreadable? then Outcome(Some(config), SaveFailed, w)
      else Outcome(Some(config), Saved(teamLabel(SavedTeam(readBack))), DailyGameCheckJob(w, env, readBack, today, resp, now))
  }

  method FormActionOn(h: Platform, env: Env, body: FormBody, subreddit: Option<string>, approved: seq<string>,
                      readBack: ConfigLookup, teamLabel: string -> string,
                      today: string, resp: ScheduleResponse, now: int)
    returns (saved: Option<SubredditConfig>, toast: Toast)
    modifies h
    ensures var o := FormAction(old(h.W()), env, body, subreddit, approved, readBack, teamLabel, today, resp, now);
      saved == o.saved && toast == o.toast && h.W() == o.world
  {
    var decision := Validate(body, subreddit, approved);
    if decision.Reject? {
      return None, decision.toast;
    }
    saved := Some(decision.config);
    if readBack.Unreadable? {
      return saved, SaveFailed;
    }
    var savedTeamValue := SavedTeam(readBack);
    DailyGameCheckJobOn(h, env, readBack, today, resp, now);
    toast := Saved(teamLabel(savedTeamValue));
  }

  // ---------------------------------------------------------------------------------------
  // Properties

  /**
   * A rejected submission saves nothing, runs no check and changes nothing: a missing league
   * or team gets the 400 toast, an unapproved subreddit the denial.
   */
  lemma RejectedChangesNothing(w: World, env: Env, body: FormBody, subreddit: Option<string>, approved: seq<string>,
                               readBack: ConfigLookup, teamLabel: string -> string,
                               today: string, resp: ScheduleResponse, now: int)
    requires !Given(FirstValue(body.league)) || !Given(FirstValue(body.team)) || !Approved(approved, subreddit)
    ensures var o := FormAction(w, env, body, subreddit, approved, readBack, teamLabel, today, resp, now);
      o.saved.None? && o.world == w &&
      (!Given(FirstValue(body.league)) || !Given(FirstValue(body.team)) ==> o.toast == MissingSelection) &&
      (Given(FirstValue(body.league)) && Given(FirstValue(body.team)) ==> o.toast == Denied)
  {
  }

  /**
   * An accepted submission saves the league, `!!enablePostgameThreads` and the team as the NHL
   * abbreviation. The daily check runs only when the saved configuration reads back, and then
   * the toast names the read-back team's label, or "N/A"'s label when it has no team; a
   * read-back that throws gets the failure toast and runs nothing.
   */
  lemma AcceptedSavesThenChecks(w: World, env: Env, body: FormBody, subreddit: Option<string>, approved: seq<string>,
                                readBack: ConfigLookup, teamLabel: string -> string,
                                today: string, resp: ScheduleResponse, now: int)
    requires Given(FirstValue(body.league)) && Given(FirstValue(body.team)) && Approved(approved, subreddit)
    ensures var o := FormAction(w, env, body, subreddit, approved, readBack, teamLabel, today, resp, now);
      o.saved == Some(SubredditConfig(FirstValue(body.league).value, FlagOn(FirstValue(body.enablePostgameThreads)),
                                      Some(FirstValue(body.team).value))) &&
      (readBack.Unreadable? ==> o.toast == SaveFailed && o.world == w) &&
      (!readBack.Unreadable? ==>
         o.world == DailyGameCheckJob(w, env, readBack, today, resp, now) &&
         o.toast == Saved(teamLabel(if readBack.Found? && Given(readBack.config.nhl) then readBack.config.nhl.value else "N/A")))
  {
  }

  /**
   * With a saved team read back whose schedule fetch succeeds, the submission leaves the daily
   * check's attempt counter cleared, as the check itself promises.
   */
  lemma AcceptedClearsDailyCounter(w: World, env: Env, body: FormBody, subreddit: Option<string>, approved: seq<string>,
                                   c: Config, teamLabel: string -> string,
                                   today: string, resp: ScheduleResponse, now: int)
    requires Given(FirstValue(body.league)) && Given(FirstValue(body.team)) && Approved(approved, subreddit)
    requires c.nhl.Some? && IsOk(resp.status)
    ensures var o := FormAction(w, env, body, subreddit, approved, Found(c), teamLabel, today, resp, now);
      o.toast.status == 200 && DailyCheckAttempts !in o.world.store
  {
    DailyCheckClears(w, env, c, today, resp, now);
  }
}
