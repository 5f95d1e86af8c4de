/** `buildBodyGoals` of src/server/leagues/nhl/formatting/formatGoals.ts: the goals table. */
module FormatGoals {
  import opened Wrappers
  import opened Strings
  import opened Api
  import opened Helpers
  import opened Tables

  const GoalsHead := "**GOALS** swipe→\n\n"
  const GoalsTableHeader := "| Per. | Time | Team | Player | Shot&nbsp;Type | Assists | Clip |\n|---|---|---|--------|--------|--------|---|\n"
  const NoGoalsRow := "- | - | - | - | - | - | -\n"

  /**
   * The shot-type cell: the API's shot type ("Unknown" when missing) lower-cased and then
   * title-cased, with "&nbsp;shot" after "Slap", "Snap" and "Wrist".
   */
  function ShotTypeText(shotType: Option<string>): (r: string)
    ensures var base := TitleCase(Lower(shotType.GetOr("Unknown")));
      (r == base + "&nbsp;shot" <==> base in {"Slap", "Snap", "Wrist"}) &&
      (base !in {"Slap", "Snap", "Wrist"} ==> r == base)
  {
    var base := TitleCase(Lower(shotType.GetOr("Unknown")));
    if base == "Slap" || base == "Snap" || base == "Wrist" then base + "&nbsp;shot" else base
  }

  /** The shot-type cell does not depend on the letter case the API uses. */
  lemma ShotTypeIgnoresCase(s: string)
    ensures ShotTypeText(Some(s)) == ShotTypeText(Some(Lower(s)))
  {
    LowerIdempotent(s);
  }

  /** The assists cell: the assisting players in order, joined by ", ", or "Unassisted". */
  function AssistsText(a1: Option<PlayerInfo>, a2: Option<PlayerInfo>): (r: string)
    ensures r == "Unassisted" <==> a1.None? && a2.None?
    ensures a1.Some? && a2.Some? ==> r == PlayerText(a1.value) + ", " + PlayerText(a2.value)
    ensures a1.Some? != a2.Some? ==> r == PlayerText(if a1.Some? then a1.value else a2.value)
  {
    var assists := (if a1.Some? then [PlayerText(a1.value)] else []) + (if a2.Some? then [PlayerText(a2.value)] else []);
    if |assists| > 0 then
      assert |assists| == 2 ==> Join(assists, ", ") == assists[0] + ", " + assists[1] by {
        if |assists| == 2 {
          assert assists[1..] == [assists[1]];
        }
      }
      assert Join(assists, ", ")[0] == '#';
      Join(assists, ", ")
    else "Unassisted"
  }

  /** The clip cell: a link when the play has a clip URL, "-" otherwise. */
  function ClipText(url: Option<string>): (r: string)
    ensures r == "-" <==> !Truthy(url)
    ensures Truthy(url) ==> r == "[nhl.com](" + url.value + ")"
  {
    if Truthy(url) then "[nhl.com](" + url.value + ")" else "-"
  }

  /**
   * `goalRowFromPlay(play, game, periodLabel)`: nothing for a play without details or without
   * a scorer; otherwise one table row, with the strength read from the scoring side (home
   * exactly when the scoring team's abbreviation is the home team's).
   */
  function GoalRowFromPlay(play: Play, game: Game, periodLabel: string): (r: string)
    ensures r == "" <==> play.details.None? || GetPlayerInfo(game, play.details.value.scoringPlayerId).None?
    ensures r != "" ==> r[0] == '|' && r[|r| - 1] == '\n'
  {
    match play.details
    case None => ""
    case Some(d) =>
      var time := FormatTime(play.timeInPeriod);
      var team := GetTeamById(game, d.eventOwnerTeamId);
      match GetPlayerInfo(game, d.scoringPlayerId)
      case None => ""
      case Some(scorer) =>
        var shotType := ShotTypeText(d.shotType);
        var modifier := GetStrength(play.situationCode, team == game.homeTeam.abbrev);
        var assists := AssistsText(GetPlayerInfo(game, d.assist1PlayerId), GetPlayerInfo(game, d.assist2PlayerId));
        var clip := ClipText(d.highlightClipSharingUrl);
        var head := "| " + periodLabel + " | " + time + " | " + team + " | " + PlayerText(scorer) + " | ";
        var tail := "&nbsp;" + modifier + " | " + assists + " | " + clip + "\n";
        head + shotType + tail
  }

  /**
   * A goal with details and a known scorer is the row of its seven cells: period label, clock
   * time, scoring team, scorer, shot type with the strength of the scoring side (home exactly
   * when the scoring team's abbreviation is the home team's), assists and clip.
   */
  lemma GoalRowCells(play: Play, game: Game, periodLabel: string)
    requires play.details.Some? && GetPlayerInfo(game, play.details.value.scoringPlayerId).Some?
    ensures var d := play.details.value;
      var team := GetTeamById(game, d.eventOwnerTeamId);
      var cells := [periodLabel, FormatTime(play.timeInPeriod), team,
                    PlayerText(GetPlayerInfo(game, d.scoringPlayerId).value),
                    ShotTypeText(d.shotType) + "&nbsp;" + GetStrength(play.situationCode, team == game.homeTeam.abbrev),
                    AssistsText(GetPlayerInfo(game, d.assist1PlayerId), GetPlayerInfo(game, d.assist2PlayerId)),
                    ClipText(d.highlightClipSharingUrl)];
      GoalRowFromPlay(play, game, periodLabel) == "| " + Join(cells, " | ") + "\n"
  {
    var d := play.details.value;
    var time := FormatTime(play.timeInPeriod);
    var team := GetTeamById(game, d.eventOwnerTeamId);
    var scorer := PlayerText(GetPlayerInfo(game, d.scoringPlayerId).value);
    var shotType := ShotTypeText(d.shotType);
    var modifier := GetStrength(play.situationCode, team == game.homeTeam.abbrev);
    var assists := AssistsText(GetPlayerInfo(game, d.assist1PlayerId), GetPlayerInfo(game, d.assist2PlayerId));
    var clip := ClipText(d.highlightClipSharingUrl);
    var sep := " | ";
    var head := "| " + periodLabel + sep + time + sep + team + sep + scorer + sep;
    var tail := "&nbsp;" + modifier + sep + assists + sep + clip + "\n";
    assert GoalRowFromPlay(play, game, periodLabel) == head + shotType + tail;
    JoinSeven(periodLabel, time, team, scorer, shotType + "&nbsp;" + modifier, assists, clip, sep);
    GoalRegroup("| ", periodLabel, time, team, scorer, shotType, "&nbsp;", modifier, assists, clip, sep, "\n");
  }

  /** The pieces a goal row is built from are its cells in one chain. */
  lemma GoalRegroup(p: string, a: string, b: string, c: string, d: string, x: string, q: string, m: string,
                    f: string, g: string, s: string, n: string)
    ensures (p + a + s + b + s + c + s + d + s) + x + (q + m + s + f + s + g + n) ==
      p + (a + s + b + s + c + s + d + s + (x + q + m) + s + f + s + g) + n
  {
  }

  // ---------------------------------------------------------------------------------------
  // The table

  /** The goal plays of period `p`, in the order the table lists them. */
  function SortedGoals(game: Game, p: int): seq<Play>
  {
    SortByTime(PlaysOf(PlaysList(game), "goal", p))
  }

  /** Sorting neither adds nor drops goals, so a period has sorted goals exactly when it has goals. */
  lemma SortedGoalsEmpty(game: Game, p: int)
    ensures SortedGoals(game, p) == [] <==> PlaysOf(PlaysList(game), "goal", p) == []
  {
    var g := PlaysOf(PlaysList(game), "goal", p);
    SortByTimeSorts(g);
    assert multiset(SortedGoals(game, p)) == multiset(g);
  }

  /** The label of period `p`: taken from its first goal after sorting. */
  function GoalPeriodLabel(game: Game, p: int): string
  {
    GetPeriodLabel(p, game, Some(SortedGoals(game, p)))
  }

  /** The row of a goal under a period label. */
  function GoalRow(game: Game, periodLabel: string): Play -> string
  {
    x => GoalRowFromPlay(x, game, periodLabel)
  }

  /** The rows of period `p`; none for a period without goals. */
  function PeriodGoalRows(game: Game, p: int): string
  {
    var sorted := SortedGoals(game, p);
    if |sorted| == 0 then "" else Rows(sorted, GoalRow(game, GoalPeriodLabel(game, p)))
  }

  function PeriodGoals(game: Game): int -> string
  {
    p => PeriodGoalRows(game, p)
  }

  /** Whether period `p` sets the `hasAnyGoals` flag. */
  function HasGoals(game: Game): int -> bool
  {
    p => |SortedGoals(game, p)| > 0
  }

  /**
   * What `buildBodyGoals(game)` returns: nothing before the game starts; otherwise the heading,
   * the table header, the rows of every period up to the current one and, when no period had
   * a goal, the placeholder row.
   */
  function GoalsBody(game: Game): (r: string)
    ensures r == "" <==> CurrentPeriod(game) == 0
  {
    var cp := CurrentPeriod(game);
    if cp == 0 then "" else Table(GoalsHead + GoalsTableHeader, PeriodGoals(game), HasGoals(game), cp, NoGoalsRow)
  }

  /** One pass of the period loop of `buildBodyGoals`: the rows of the period's goals sorted by time. */
  method AppendPeriodGoals(prefix: string, game: Game, goals: map<int, seq<Play>>, period: int) returns (out: string, found: bool)
    requires Grouped(goals, PlaysList(game), "goal")
    ensures out == prefix + PeriodGoalRows(game, period)
    ensures found == HasGoals(game)(period)
  {
    GroupOf(goals, PlaysList(game), "goal", period);
    var sorted := if period in goals then SortByTime(goals[period]) else [];
    assert sorted == SortedGoals(game, period);
    out := prefix;
    found := false;
    if |sorted| > 0 {
      found := true;
      var periodLabel := GetPeriodLabel(period, game, Some(sorted));
      out := AppendRows(out, sorted, GoalRow(game, periodLabel));
    }
  }

  /**
   * The period loop of `buildBodyGoals`: appends the rows of periods 1 to `cp` and reports
   * whether any period had goals.
   */
  method AppendGoalPeriods(prefix: string, game: Game, goals: map<int, seq<Play>>, cp: int) returns (out: string, hasAnyGoals: bool)
    requires Grouped(goals, PlaysList(game), "goal")
    ensures out == prefix + RowsUpTo(PeriodGoals(game), cp)
    ensures hasAnyGoals == AnyUpTo(HasGoals(game), cp)
  {
    out := prefix;
    hasAnyGoals := false;
    var last := if cp >= 1 then cp else 0;
    for period := 1 to last + 1
      invariant out == prefix + RowsUpTo(PeriodGoals(game), period - 1)
      invariant hasAnyGoals == AnyUpTo(HasGoals(game), period - 1)
    {
      var found;
      AppendAssoc(prefix, RowsUpTo(PeriodGoals(game), period - 1), PeriodGoalRows(game, period));
      out, found := AppendPeriodGoals(out, game, goals, period);
      hasAnyGoals := hasAnyGoals || found;
    }
  }

  /** `buildBodyGoals(game)`. */
  method BuildBodyGoals(game: Game) returns (out: string)
    ensures out == GoalsBody(game)
  {
    var cp := CurrentPeriod(game);
    if cp == 0 {
      return "";
    }
    var goals, _ := OrganizePlaysByPeriod(PlaysList(game));
    var hasAnyGoals;
    out, hasAnyGoals := AppendGoalPeriods(GoalsHead + GoalsTableHeader, game, goals, cp);
    if !hasAnyGoals {
      out := out + NoGoalsRow;
    }
    out := out + "\n";
  }

  // ---------------------------------------------------------------------------------------
  // Properties of the table

  /** The `hasAnyGoals` flag is set after period `n` exactly when some period up to `n` has a goal. */
  lemma HasGoalsUpToIff(game: Game, n: int)
    ensures AnyUpTo(HasGoals(game), n) <==> exists p :: 1 <= p <= n && PlaysOf(PlaysList(game), "goal", p) != []
  {
    AnyUpToIff(HasGoals(game), n);
    forall p
      ensures HasGoals(game)(p) <==> PlaysOf(PlaysList(game), "goal", p) != []
    {
      SortedGoalsEmpty(game, p);
    }
  }

  /** The rows of a period are empty for a period without goals, and otherwise start with '|'. */
  lemma PeriodGoalRowsShape(game: Game, p: int)
    ensures !HasGoals(game)(p) ==> PeriodGoals(game)(p) == ""
    ensures PeriodGoals(game)(p) == "" || PeriodGoals(game)(p)[0] == '|'
  {
    RowsStartWith(SortedGoals(game, p), GoalRow(game, GoalPeriodLabel(game, p)), '|');
  }

  /**
   * Once the game has started, the placeholder row is the whole table body exactly when no
   * period from the first to the current one has a goal play.
   */
  lemma GoalsPlaceholderIffNoGoals(game: Game)
    requires CurrentPeriod(game) != 0
    ensures GoalsBody(game) == GoalsHead + GoalsTableHeader + NoGoalsRow + "\n" <==>
            !exists p :: 1 <= p <= CurrentPeriod(game) && PlaysOf(PlaysList(game), "goal", p) != []
  {
    forall p
      ensures !HasGoals(game)(p) ==> PeriodGoals(game)(p) == ""
      ensures PeriodGoals(game)(p) == "" || PeriodGoals(game)(p)[0] == '|'
    {
      PeriodGoalRowsShape(game, p);
    }
    TablePlaceholderIff(GoalsHead + GoalsTableHeader, PeriodGoals(game), HasGoals(game), CurrentPeriod(game), NoGoalsRow, '|');
    HasGoalsUpToIff(game, CurrentPeriod(game));
  }

  lemma InSorted(s: seq<Play>, x: Play)
    requires x in s
    ensures x in SortByTime(s)
  {
    SortByTimeSorts(s);
    assert x in multiset(s);
  }

  /** The row of every goal of period `p` is a piece of the period's rows. */
  lemma RowWithinPeriodRows(game: Game, p: int, x: Play)
    requires x in PlaysOf(PlaysList(game), "goal", p)
    ensures Within(GoalRowFromPlay(x, game, GoalPeriodLabel(game, p)), PeriodGoals(game)(p))
  {
    InSorted(PlaysOf(PlaysList(game), "goal", p), x);
    RowOfMemberWithinRows(SortedGoals(game, p), GoalRow(game, GoalPeriodLabel(game, p)), x);
  }

  /** Every goal scored in a period up to the current one has its row, under its period's label, in the table. */
  lemma EveryGoalListed(game: Game, p: int, x: Play)
    requires 1 <= p <= CurrentPeriod(game)
    requires x in PlaysOf(PlaysList(game), "goal", p)
    ensures Within(GoalRowFromPlay(x, game, GoalPeriodLabel(game, p)), GoalsBody(game))
  {
    var row := GoalRowFromPlay(x, game, GoalPeriodLabel(game, p));
    RowWithinPeriodRows(game, p, x);
    TableListsRow(row, GoalsHead + GoalsTableHeader, PeriodGoals(game), HasGoals(game), CurrentPeriod(game), NoGoalsRow, p);
  }
}
