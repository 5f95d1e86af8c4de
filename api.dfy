/**
 * The NHL web API client of src/server/leagues/nhl/api.ts: the game record it returns, the
 * conditional (ETag) game fetch and today's schedule. The HTTP exchange itself is a parameter:
 * a response is given as its status, its `etag` header and its parsed JSON body.
 */
module Api {
  import opened Wrappers
  import opened Constants
  import Seqs

  datatype PeriodDescriptor = PeriodDescriptor(number: int, periodType: string)

  datatype Team = Team(
    id: int,
    abbrev: string,
    placeName: string,
    commonName: string,
    score: Option<int>,
    sog: Option<int>)

  datatype Clock = Clock(timeRemaining: string, inIntermission: bool)

  /** The optional `details` of a play: goal fields and penalty fields. */
  datatype Details = Details(
    eventOwnerTeamId: Option<int>,
    scoringPlayerId: Option<int>,
    assist1PlayerId: Option<int>,
    assist2PlayerId: Option<int>,
    shotType: Option<string>,
    highlightClipSharingUrl: Option<string>,
    descKey: Option<string>,
    duration: Option<int>,
    committedByPlayerId: Option<int>,
    drawnByPlayerId: Option<int>)

  datatype Play = Play(
    periodDescriptor: Option<PeriodDescriptor>,
    timeInPeriod: string,
    situationCode: string,
    typeDescKey: string,
    details: Option<Details>)

  datatype RosterSpot = RosterSpot(
    playerId: int,
    firstName: string,
    lastName: string,
    sweaterNumber: Option<int>)

  /** One entry of `summary.teamGameStats`. */
  datatype TeamStat = TeamStat(category: string, awayValue: real, homeValue: real)

  /**
   * `NHLGame`. `startTimeUtc` is `startTimeUTC` already converted to epoch milliseconds
   * (what `new Date(game.startTimeUTC).getTime()` gives).
   */
  datatype Game = Game(
    id: GameId,
    gameDate: string,
    startTimeUtc: int,
    gameState: Option<string>,
    venue: string,
    periodDescriptor: Option<PeriodDescriptor>,
    awayTeam: Team,
    homeTeam: Team,
    clock: Option<Clock>,
    plays: Option<seq<Play>>,
    rosterSpots: Option<seq<RosterSpot>>,
    shootoutInUse: Option<bool>,
    otInUse: Option<bool>,
    tvBroadcasts: Option<seq<string>>,
    teamGameStats: Option<seq<TeamStat>>)

  /** A response of the game-landing endpoint. */
  datatype GameResponse = GameResponse(status: int, etagHeader: Option<string>, body: Game)

  /**
   * What `getGameData` resolves to. `game == None` is the empty object `{}` returned for a
   * 304, in which every field (`gameState` included) is missing.
   */
  datatype GameData = GameData(game: Option<Game>, etag: Option<string>, modified: bool)

  /** `response.ok`. */
  predicate IsOk(status: int) { 200 <= status <= 299 }

  /** JavaScript truthiness of an optional string: present and non-empty. */
  predicate Truthy(s: Option<string>) { s.Some? && s.value != "" }

  /** The request headers of `getGameData`. */
  function RequestHeaders(etag: Option<string>): (h: map<string, string>)
    ensures "If-None-Match" in h <==> Truthy(etag)
    ensures "If-None-Match" in h ==> h["If-None-Match"] == etag.value
    ensures h.Keys <= {"If-None-Match"}
  {
    if Truthy(etag) then map["If-None-Match" := etag.value] else map[]
  }

  /** `getGameData(gameId, fetch, etag)` given the response it received. */
  function GetGameData(etag: Option<string>, resp: GameResponse): (r: Result<GameData>)
    ensures r.Failure? <==> resp.status != 304 && !IsOk(resp.status)
    ensures resp.status == 304 ==> r == Success(GameData(None, etag, false))
    ensures r.Success? ==> (r.value.modified <==> resp.status != 304)
    ensures r.Success? && r.value.modified ==>
      r.value.game == Some(resp.body) &&
      r.value.etag == Some(if Truthy(resp.etagHeader) then resp.etagHeader.value else "")
  {
    if resp.status == 304 then
      Success(GameData(None, etag, false))
    else if !IsOk(resp.status) then
      Failure("NHL API error")
    else
      var newEtag := if Truthy(resp.etagHeader) then resp.etagHeader.value else "";
      Success(GameData(Some(resp.body), Some(newEtag), true))
  }

  /**
   * A result marks the data changed exactly when it carries a game: only a 304 yields the
   * empty object, and a 304 is never "modified".
   */
  lemma ModifiedIffGame(etag: Option<string>, resp: GameResponse)
    requires GetGameData(etag, resp).Success?
    ensures GetGameData(etag, resp).value.modified <==> GetGameData(etag, resp).value.game.Some?
  {
  }

  datatype ScheduleDay = ScheduleDay(date: string, games: seq<Game>)

  datatype ScheduleResponse = ScheduleResponse(status: int, gameWeek: seq<ScheduleDay>)

  /** `getTodaysSchedule(fetch)`; `today` is the `YYYY-MM-DD` part of the current UTC time. */
  function GetTodaysSchedule(today: string, resp: ScheduleResponse): (r: Result<seq<Game>>)
    ensures r.Failure? <==> !IsOk(resp.status)
    ensures r.Success? ==>
      (exists i :: 0 <= i < |resp.gameWeek| && resp.gameWeek[i].date == today &&
         r.value == resp.gameWeek[i].games &&
         forall j :: 0 <= j < i ==> resp.gameWeek[j].date != today) ||
      ((forall j :: 0 <= j < |resp.gameWeek| ==> resp.gameWeek[j].date != today) && r.value == [])
  {
    if !IsOk(resp.status) then
      Failure("NHL API error")
    else
      match Seqs.Find(resp.gameWeek, (d: ScheduleDay) => d.date == today)
      case Some(day) => Success(day.games)
      case None => Success([])
  }
}
