/** `buildBodyPenalties` of src/server/leagues/nhl/formatting/formatPenalties.ts: the penalties table. */
module FormatPenalties {
  import opened Wrappers
  import opened Strings
  import opened Api
  import opened Helpers
  import opened Tables

  const PenaltiesHead := "**PENALTIES** swipe→\n\n"
  const PenaltiesTableHeader := "| Per. | Time | Team | Player | Infraction | Against | Min. |\n|---|---|---|--------|--------|--------|---|\n"
  const NoPenaltiesRow := "- | - | - | - | - | - | -\n"

  /** A player cell: the player, or `absent` when there is none. */
  function PlayerCell(info: Option<PlayerInfo>, absent: string): string
  {
    match info
    case Some(p) => PlayerText(p)
    case None => absent
  }

  /**
   * `penaltyRowFromPlay(play, game, periodLabel)`: nothing for a play without details or one
   * that is not a penalty; otherwise one row that opens with the period label, names the team
   * when no player committed the penalty and "—" when none drew it, and gives the minutes (0
   * when the duration is missing).
   */
  function PenaltyRowFromPlay(play: Play, game: Game, periodLabel: string): (r: string)
    ensures r == "" <==> play.details.None? || play.typeDescKey != "penalty"
    ensures r != "" ==> r[|r| - 1] == '\n' && |periodLabel| + 3 <= |r| && r[..|periodLabel| + 3] == periodLabel + " | "
  {
    match play.details
    case None => ""
    case Some(d) =>
      if play.typeDescKey != "penalty" then ""
      else
        var time := FormatTime(play.timeInPeriod);
        var team := GetTeamById(game, d.eventOwnerTeamId);
        var playerStr := PlayerCell(GetPlayerInfo(game, d.committedByPlayerId), "Team");
        var againstStr := PlayerCell(GetPlayerInfo(game, d.drawnByPlayerId), "—");
        var infraction := FormatInfraction(d.descKey);
        var minutes := d.duration.GetOr(0);
        var head := periodLabel + " | ";
        var mid := time + " | " + team + " | " + playerStr + " | " + infraction;
        var tail := " | " + againstStr + " | " + IntToString(minutes) + "\n";
        var r := head + mid + tail;
        assert r[..|head|] == head;
        r
  }

  /**
   * A penalty's row is its seven cells separated by " | ": the period, the time, the team, the
   * player who committed it ("Team" when none did), the infraction, the player who drew it ("—"
   * when none did) and the minutes (0 when the duration is missing).
   */
  lemma PenaltyRowCells(play: Play, game: Game, periodLabel: string)
    requires play.details.Some? && play.typeDescKey == "penalty"
    ensures var d := play.details.value;
      var committed := GetPlayerInfo(game, d.committedByPlayerId);
      var drawn := GetPlayerInfo(game, d.drawnByPlayerId);
      var cells := [periodLabel, FormatTime(play.timeInPeriod), GetTeamById(game, d.eventOwnerTeamId),
                    if committed.Some? then PlayerText(committed.value) else "Team",
                    FormatInfraction(d.descKey),
                    if drawn.Some? then PlayerText(drawn.value) else "—",
                    IntToString(if d.duration.Some? then d.duration.value else 0)];
      PenaltyRowFromPlay(play, game, periodLabel) == Join(cells, " | ") + "\n"
  {
    var d := play.details.value;
    var time := FormatTime(play.timeInPeriod);
    var team := GetTeamById(game, d.eventOwnerTeamId);
    var player := PlayerCell(GetPlayerInfo(game, d.committedByPlayerId), "Team");
    var infraction := FormatInfraction(d.descKey);
    var against := PlayerCell(GetPlayerInfo(game, d.drawnByPlayerId), "—");
    var minutes := IntToString(d.duration.GetOr(0));
    var sep := " | ";
    var head := periodLabel + " | ";
    var mid := time + " | " + team + " | " + player + " | " + infraction;
    var tail := " | " + against + " | " + minutes + "\n";
    assert PenaltyRowFromPlay(play, game, periodLabel) == head + mid + tail;
    JoinSeven(periodLabel, time, team, player, infraction, against, minutes, sep);
    RowRegroup(periodLabel, time, team, player, infraction, against, minutes, sep, "\n");
  }

  /** The three pieces a row is built from are the row's cells in one chain. */
  lemma RowRegroup(a: string, b: string, c: string, d: string, e: string, f: string, g: string, s: string, n: string)
    ensures (a + s) + (b + s + c + s + d + s + e) + (s + f + s + g + n) == a + s + b + s + c + s + d + s + e + s + f + s + g + n
  {
  }

  // ---------------------------------------------------------------------------------------
  // The table

  /** The penalty plays of period `p` in input order: `penalties[period]`, read as empty when absent. */
  function PenaltyGroup(game: Game, p: int): seq<Play>
  {
    PlaysOf(PlaysList(game), "penalty", p)
  }

  /** The group as `isShootoutPeriod` receives it: `undefined` for a period without penalties. */
  function GroupArg(game: Game, p: int): Option<seq<Play>>
  {
    if PenaltyGroup(game, p) == [] then None else Some(PenaltyGroup(game, p))
  }

  /** Whether the table skips period `p` as a shootout (decided on the unsorted group). */
  predicate SkippedPeriod(game: Game, p: int)
  {
    IsShootoutPeriod(p, game, GroupArg(game, p))
  }

  function SortedPenalties(game: Game, p: int): seq<Play>
  {
    SortByTime(PenaltyGroup(game, p))
  }

  function PenaltyPeriodLabel(game: Game, p: int): string
  {
    GetPeriodLabel(p, game, Some(SortedPenalties(game, p)))
  }

  /** The row of a penalty under a period label. */
  function PenaltyRow(game: Game, periodLabel: string): Play -> string
  {
    x => PenaltyRowFromPlay(x, game, periodLabel)
  }

  /** Whether period `p` has penalties the table lists: it is not skipped and has penalties. */
  function Listed(game: Game): int -> bool
  {
    p => !SkippedPeriod(game, p) && |SortedPenalties(game, p)| > 0
  }

  /** The rows of period `p`: none for a skipped period or one without penalties. */
  function PeriodPenaltyRows(game: Game, p: int): string
  {
    if !Listed(game)(p) then "" else Rows(SortedPenalties(game, p), PenaltyRow(game, PenaltyPeriodLabel(game, p)))
  }

  function PeriodPenalties(game: Game): int -> string
  {
    p => PeriodPenaltyRows(game, p)
  }

  /** What `buildBodyPenalties(game)` returns. */
  function PenaltiesBody(game: Game): (r: string)
    ensures r == "" <==> CurrentPeriod(game) == 0
  {
    var cp := CurrentPeriod(game);
    if cp == 0 then "" else Table(PenaltiesHead + PenaltiesTableHeader, PeriodPenalties(game), Listed(game), cp, NoPenaltiesRow)
  }

  /**
   * One pass of the period loop of `buildBodyPenalties`: nothing for a shootout period,
   * otherwise the rows of the period's penalties sorted by time.
   */
  method AppendPeriodPenalties(prefix: string, game: Game, penalties: map<int, seq<Play>>, period: int)
    returns (out: string, found: bool)
    requires Grouped(penalties, PlaysList(game), "penalty")
    ensures out == prefix + PeriodPenaltyRows(game, period)
    ensures found == Listed(game)(period)
  {
    GroupOf(penalties, PlaysList(game), "penalty", period);
    out := prefix;
    found := false;
    var group := if period in penalties then Some(penalties[period]) else None;
    assert group == GroupArg(game, period);
    if !IsShootoutPeriod(period, game, group) {
      var sorted := if period in penalties then SortByTime(penalties[period]) else [];
      assert sorted == SortedPenalties(game, period);
      if |sorted| > 0 {
        found := true;
        var periodLabel := GetPeriodLabel(period, game, Some(sorted));
        out := AppendRows(out, sorted, PenaltyRow(game, periodLabel));
      }
    }
  }

  /** The period loop of `buildBodyPenalties`. */
  method AppendPenaltyPeriods(prefix: string, game: Game, penalties: map<int, seq<Play>>, cp: int)
    returns (out: string, hasAnyPenalties: bool)
    requires Grouped(penalties, PlaysList(game), "penalty")
    ensures out == prefix + RowsUpTo(PeriodPenalties(game), cp)
    ensures hasAnyPenalties == AnyUpTo(Listed(game), cp)
  {
    out := prefix;
    hasAnyPenalties := false;
    var last := if cp >= 1 then cp else 0;
    for period := 1 to last + 1
      invariant out == prefix + RowsUpTo(PeriodPenalties(game), period - 1)
      invariant hasAnyPenalties == AnyUpTo(Listed(game), period - 1)
    {
      var found;
      ghost var before := RowsUpTo(PeriodPenalties(game), period - 1);
      assert RowsUpTo(PeriodPenalties(game), period) == before + PeriodPenaltyRows(game, period);
      AppendAssoc(prefix, before, PeriodPenaltyRows(game, period));
      out, found := AppendPeriodPenalties(out, game, penalties, period);
      hasAnyPenalties := hasAnyPenalties || found;
    }
  }

  /** `buildBodyPenalties(game)`. */
  method BuildBodyPenalties(game: Game) returns (out: string)
    ensures out == PenaltiesBody(game)
  {
    var cp := CurrentPeriod(game);
    if cp == 0 {
      return "";
    }
    var _, penalties := OrganizePlaysByPeriod(PlaysList(game));
    var hasAnyPenalties;
    out, hasAnyPenalties := AppendPenaltyPeriods(PenaltiesHead + PenaltiesTableHeader, game, penalties, cp);
    if !hasAnyPenalties {
      out := out + NoPenaltiesRow;
    }
    out := out + "\n";
  }

  // ---------------------------------------------------------------------------------------
  // Properties of the table

  /** Sorting neither adds nor drops penalties. */
  lemma SortedPenaltiesEmpty(game: Game, p: int)
    ensures SortedPenalties(game, p) == [] <==> PenaltyGroup(game, p) == []
    ensures multiset(SortedPenalties(game, p)) == multiset(PenaltyGroup(game, p))
  {
    SortByTimeSorts(PenaltyGroup(game, p));
    assert multiset(SortedPenalties(game, p)) == multiset(PenaltyGroup(game, p));
  }

  /** The `hasAnyPenalties` flag is set after period `n` exactly when some period up to `n` is not skipped and has a penalty. */
  lemma HasPenaltiesUpToIff(game: Game, n: int)
    ensures AnyUpTo(Listed(game), n) <==> exists p :: 1 <= p <= n && !SkippedPeriod(game, p) && PenaltyGroup(game, p) != []
  {
    AnyUpToIff(Listed(game), n);
    forall p
      ensures Listed(game)(p) <==> !SkippedPeriod(game, p) && PenaltyGroup(game, p) != []
    {
      SortedPenaltiesEmpty(game, p);
    }
  }

  /**
   * Once the game has started, the table holds only the placeholder row when no period from
   * the first to the current one, shootouts aside, has a penalty, and otherwise the rows of
   * those periods and no placeholder.
   */
  lemma PenaltiesPlaceholderIffNone(game: Game)
    requires CurrentPeriod(game) != 0
    ensures var cp := CurrentPeriod(game);
      var some := exists p :: 1 <= p <= cp && !SkippedPeriod(game, p) && PenaltyGroup(game, p) != [];
      (!some ==> PenaltiesBody(game) == PenaltiesHead + PenaltiesTableHeader + NoPenaltiesRow + "\n") &&
      (some ==> PenaltiesBody(game) == PenaltiesHead + PenaltiesTableHeader + RowsUpTo(PeriodPenalties(game), cp) + "\n")
  {
    TableShape(PenaltiesHead + PenaltiesTableHeader, PeriodPenalties(game), Listed(game), CurrentPeriod(game), NoPenaltiesRow);
    HasPenaltiesUpToIff(game, CurrentPeriod(game));
  }

  lemma InSortedPenalties(game: Game, p: int, x: Play)
    requires x in PenaltyGroup(game, p)
    ensures x in SortedPenalties(game, p)
  {
    SortByTimeSorts(PenaltyGroup(game, p));
    assert x in multiset(PenaltyGroup(game, p));
  }

  /** The row of every penalty of a listed period is a piece of the period's rows. */
  lemma RowWithinPeriodPenaltyRows(game: Game, p: int, x: Play)
    requires !SkippedPeriod(game, p) && x in PenaltyGroup(game, p)
    ensures Within(PenaltyRowFromPlay(x, game, PenaltyPeriodLabel(game, p)), PeriodPenalties(game)(p))
  {
    InSortedPenalties(game, p, x);
    RowOfMemberWithinRows(SortedPenalties(game, p), PenaltyRow(game, PenaltyPeriodLabel(game, p)), x);
  }

  /**
   * Every penalty of a period up to the current one that is not a shootout has its row,
   * under its period's label, in the table.
   */
  lemma EveryPenaltyListed(game: Game, p: int, x: Play)
    requires 1 <= p <= CurrentPeriod(game)
    requires !SkippedPeriod(game, p) && x in PenaltyGroup(game, p)
    ensures Within(PenaltyRowFromPlay(x, game, PenaltyPeriodLabel(game, p)), PenaltiesBody(game))
  {
    var row := PenaltyRowFromPlay(x, game, PenaltyPeriodLabel(game, p));
    RowWithinPeriodPenaltyRows(game, p, x);
    TableListsRow(row, PenaltiesHead + PenaltiesTableHeader, PeriodPenalties(game), Listed(game), CurrentPeriod(game), NoPenaltiesRow, p);
  }
}
