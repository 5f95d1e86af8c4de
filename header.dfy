/**
 * `buildBodyHeader` of src/server/leagues/nhl/formatting/formatHeader.ts: the heading block of
 * a thread, with the score, the status line, start time, venue and networks. The start time
 * and the "Last Update" stamp come already formatted in the subreddit team's time zone.
 */
module FormatHeader {
  import opened Wrappers
  import opened Strings
  import opened Constants
  import opened Api
  import opened Helpers

  /** `game.gameState ?? GAME_STATES.UNKNOWN`. */
  function GameState(game: Game): string
  {
    game.gameState.GetOr(Unknown)
  }

  predicate IsTerminal(gameState: string) { gameState == Final || gameState == Off }

  /** The `periodLabel` chain: final states first, then "Scheduled", intermissions, shootout, overtime, regulation. */
  function StatusLabel(gameState: string, period: int, periodType: string, inIntermission: bool): string
  {
    if gameState == Final then "Final (unofficial)"
    else if gameState == Off then "Final (official)"
    else if period == 0 then "Scheduled"
    else if inIntermission then
      (if period == 1 then "1st Intermission" else if period == 2 then "2nd Intermission" else "Intermission")
    else if periodType == "SO" then "Shootout"
    else if periodType == "OT" then (if period == 4 then "Overtime" else IntToString(period - 3) + "OT")
    else "Period " + IntToString(period)
  }

  predicate IsFinalLabel(s: string) { s == "Final (unofficial)" || s == "Final (official)" }

  predicate IsIntermissionLabel(s: string) { s == "1st Intermission" || s == "2nd Intermission" || s == "Intermission" }

  /** The "(p-3)OT" label ends in 'T', so it is none of the fixed labels that end otherwise. */
  lemma LateOtLabel(period: int)
    ensures var s := IntToString(period - 3) + "OT"; |s| >= 3 && s[|s| - 1] == 'T'
  {
  }

  /** "Period p" starts with 'P'. */
  lemma RegulationLabel(period: int)
    ensures var s := "Period " + IntToString(period); |s| >= 8 && s[0] == 'P'
  {
  }

  /** The label reads as final exactly for the FINAL and OFF states, whatever the period and clock say. */
  lemma FinalLabelIff(gameState: string, period: int, periodType: string, inIntermission: bool)
    ensures IsFinalLabel(StatusLabel(gameState, period, periodType, inIntermission)) <==> IsTerminal(gameState)
    ensures gameState == Final ==> StatusLabel(gameState, period, periodType, inIntermission) == "Final (unofficial)"
    ensures gameState == Off ==> StatusLabel(gameState, period, periodType, inIntermission) == "Final (official)"
  {
    var r := StatusLabel(gameState, period, periodType, inIntermission);
    LateOtLabel(period);
    RegulationLabel(period);
    if !IsTerminal(gameState) && period != 0 && !inIntermission && periodType != "SO" {
      if periodType == "OT" && period != 4 {
        assert r[|r| - 1] == 'T';
        assert "Final (unofficial)"[17] == ')';
      } else if periodType != "OT" {
        assert r[0] == 'P';
      }
    }
  }

  /** The label names an intermission exactly when a started, unfinished game is in one. */
  lemma IntermissionLabelIff(gameState: string, period: int, periodType: string, inIntermission: bool)
    ensures IsIntermissionLabel(StatusLabel(gameState, period, periodType, inIntermission)) <==>
            !IsTerminal(gameState) && period != 0 && inIntermission
    ensures !IsTerminal(gameState) && period != 0 && inIntermission ==>
      StatusLabel(gameState, period, periodType, inIntermission) ==
        (if period == 1 then "1st Intermission" else if period == 2 then "2nd Intermission" else "Intermission")
  {
    var r := StatusLabel(gameState, period, periodType, inIntermission);
    LateOtLabel(period);
    RegulationLabel(period);
    if !IsTerminal(gameState) && period != 0 && !inIntermission && periodType != "SO" {
      if periodType == "OT" && period != 4 {
        assert r[|r| - 1] == 'T';
      } else if periodType != "OT" {
        assert r[0] == 'P';
      }
    }
  }

  /** The time-remaining text: the clock (or "In Progress" in a shootout) for LIVE and CRIT, nothing otherwise. */
  function TimeRemainingDisplay(gameState: string, periodType: string, rawTimeRemaining: string): (r: string)
    ensures r != "" ==> gameState == Live || gameState == Crit
    ensures (gameState == Live || gameState == Crit) && periodType == "SO" ==> r == "In Progress"
  {
    if gameState == Live || gameState == Crit then
      (if periodType == "SO" then "In Progress" else rawTimeRemaining)
    else ""
  }

  /** `combinedStatusText`. */
  function CombinedStatus(periodLabel: string, timeRemaining: string): string
  {
    if timeRemaining != "" then periodLabel + " - " + timeRemaining else periodLabel
  }

  /** The status is the label alone exactly when there is no time to show, and otherwise starts with it. */
  lemma CombinedStatusShape(periodLabel: string, timeRemaining: string)
    ensures CombinedStatus(periodLabel, timeRemaining) == periodLabel <==> timeRemaining == ""
    ensures var r := CombinedStatus(periodLabel, timeRemaining); |periodLabel| <= |r| && r[..|periodLabel|] == periodLabel
  {
    var r := CombinedStatus(periodLabel, timeRemaining);
    if timeRemaining != "" {
      assert |r| > |periodLabel|;
      assert r[..|periodLabel|] == periodLabel;
    }
  }

  /** The networks cell: the broadcasts joined by ", ", or "None?" when there are none. */
  function Networks(tvBroadcasts: Option<seq<string>>): (r: string)
    ensures tvBroadcasts.None? || tvBroadcasts.value == [] ==> r == "None?"
    ensures tvBroadcasts.Some? && |tvBroadcasts.value| == 1 ==> r == tvBroadcasts.value[0]
  {
    if tvBroadcasts.Some? && |tvBroadcasts.value| > 0 then Join(tvBroadcasts.value, ", ") else "None?"
  }

  /** Every network appears in the networks cell. */
  lemma EveryNetworkListed(tvBroadcasts: seq<string>, i: nat)
    requires i < |tvBroadcasts|
    ensures Within(tvBroadcasts[i], Networks(Some(tvBroadcasts)))
  {
    WithinJoin(tvBroadcasts, ", ", i);
  }

  /** The status of `game`: the label from its state, period and clock, with the time remaining. */
  function StatusOf(game: Game): string
  {
    var period := CurrentPeriod(game);
    var periodType := match game.periodDescriptor case Some(d) => d.periodType case None => "";
    var inIntermission := match game.clock case Some(c) => c.inIntermission case None => false;
    var rawTimeRemaining := match game.clock case Some(c) => c.timeRemaining case None => "";
    var gameState := GameState(game);
    CombinedStatus(StatusLabel(gameState, period, periodType, inIntermission),
                   TimeRemainingDisplay(gameState, periodType, rawTimeRemaining))
  }

  /** The status line of the header. */
  function StatusLine(game: Game): string
  {
    "**Status:** " + StatusOf(game) + "  \n"
  }

  /** What `buildBodyHeader(game, subredditName)` returns. */
  function HeaderBody(game: Game, locale: Locale): string
  {
    var away := game.awayTeam;
    var home := game.homeTeam;
    var gameCenterUrl := "https://www.nhl.com/gamecenter/" + NatToString(game.id);
    var title := "# [" + away.placeName + " " + away.commonName + " @ " + home.placeName + " " + home.commonName + "](" + gameCenterUrl + ")\n\n";
    var score := "**Score:** " + away.abbrev + " **" + IntToString(away.score.GetOr(0)) + "** : **" +
                 IntToString(home.score.GetOr(0)) + "** " + home.abbrev + "  \n";
    var details := "**Start Time:** " + locale.localTime(game.startTimeUtc) + " | **Venue:** " + game.venue +
                   " | **Networks:** " + Networks(game.tvBroadcasts) + "  \n";
    var lastUpdate := "**Last Update:** " + locale.lastUpdate + "\n";
    title + score + StatusLine(game) + details + lastUpdate
  }

  /** The header carries the game's status line. */
  lemma HeaderHasStatus(game: Game, locale: Locale)
    ensures Within(StatusLine(game), HeaderBody(game, locale))
  {
    var away := game.awayTeam;
    var home := game.homeTeam;
    var gameCenterUrl := "https://www.nhl.com/gamecenter/" + NatToString(game.id);
    var title := "# [" + away.placeName + " " + away.commonName + " @ " + home.placeName + " " + home.commonName + "](" + gameCenterUrl + ")\n\n";
    var score := "**Score:** " + away.abbrev + " **" + IntToString(away.score.GetOr(0)) + "** : **" +
                 IntToString(home.score.GetOr(0)) + "** " + home.abbrev + "  \n";
    var details := "**Start Time:** " + locale.localTime(game.startTimeUtc) + " | **Venue:** " + game.venue +
                   " | **Networks:** " + Networks(game.tvBroadcasts) + "  \n";
    var lastUpdate := "**Last Update:** " + locale.lastUpdate + "\n";
    WithinSelf(StatusLine(game));
    WithinExtend(StatusLine(game), title + score, StatusLine(game), details + lastUpdate);
    assert HeaderBody(game, locale) == title + score + StatusLine(game) + (details + lastUpdate);
  }
}
