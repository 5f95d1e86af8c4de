/**
 * `buildBodyLinescore` of src/server/leagues/nhl/formatting/formatLinescore.ts: the table of
 * goals per period, total, shots and (when the API provides them) faceoff, block and hit
 * statistics for both teams.
 */
module FormatLinescore {
  import opened Wrappers
  import opened Strings
  import opened Api
  import opened Helpers
  import Seqs

  const LinescoreHead := "**LINESCORE** swipe→\n\n"
  const ExtendedHeaders := " | F/O% | BLK | HIT"

  datatype Side = Away | Home

  function TeamOf(game: Game, side: Side): Team
  {
    if side == Home then game.homeTeam else game.awayTeam
  }

  /** `getTeamStat(teamGameStats, category, side)`. */
  function GetTeamStat(stats: seq<TeamStat>, category: string, side: Side): Option<real>
  {
    match Seqs.Find(stats, (s: TeamStat) => s.category == category)
    case None => None
    case Some(entry) => Some(if side == Away then entry.awayValue else entry.homeValue)
  }

  /** A statistic is missing exactly when no entry has its category, and is otherwise the side's value of the first such entry. */
  lemma GetTeamStatFirst(stats: seq<TeamStat>, category: string, side: Side)
    ensures var r := GetTeamStat(stats, category, side);
      (r.None? <==> forall i :: 0 <= i < |stats| ==> stats[i].category != category) &&
      (r.Some? ==> exists i :: (0 <= i < |stats| && stats[i].category == category &&
         (forall j :: 0 <= j < i ==> stats[j].category != category) &&
         r.value == (if side == Away then stats[i].awayValue else stats[i].homeValue)))
  {
  }

  /** `summary.teamGameStats`, empty when missing. */
  function TeamGameStats(game: Game): seq<TeamStat>
  {
    game.teamGameStats.GetOr([])
  }

  /** Whether a play belongs to team `teamId`: `play.details?.eventOwnerTeamId === teamId`. */
  predicate OwnedBy(teamId: int, play: Play)
  {
    play.details.Some? && play.details.value.eventOwnerTeamId == Some(teamId)
  }

  /** The goals team `teamId` scored in period `p`. */
  function TeamGoals(game: Game, teamId: int, p: int): nat
  {
    |Seqs.Filter(PlaysOf(PlaysList(game), "goal", p), x => OwnedBy(teamId, x))|
  }

  /** The `periodGoals` record: one entry per period 1 to `cp`. */
  function PeriodGoalCounts(game: Game, teamId: int, cp: int): map<int, nat>
  {
    map p | 1 <= p <= cp :: TeamGoals(game, teamId, p)
  }

  datatype TeamLinescoreStats = TeamLinescoreStats(
    periodGoals: map<int, nat>,
    totalGoals: int,
    shots: int,
    faceoffPct: string,
    blocks: real,
    hits: real)

  /** The faceoff cell of a recorded share: the percentage with one decimal and a '%'. */
  function FaceoffText(share: real, locale: Locale): (r: string)
    ensures |r| >= 1 && r[|r| - 1] == '%' && r != "-"
  {
    var r := locale.fixed1(share * 100.0) + "%";
    assert r[|r| - 1] == '%';
    r
  }

  /** The `periodGoals` record has an entry for each period from 1 to `cp`, the team's goals in it. */
  lemma PeriodGoalCountsStep(game: Game, teamId: int, p: int)
    requires p >= 1
    ensures PeriodGoalCounts(game, teamId, p) == PeriodGoalCounts(game, teamId, p - 1)[p := TeamGoals(game, teamId, p)]
  {
  }

  /** What `buildStats(side)` returns. */
  function StatsOf(game: Game, side: Side, locale: Locale): (r: TeamLinescoreStats)
    ensures r.totalGoals == TeamOf(game, side).score.GetOr(0)
    ensures r.shots == TeamOf(game, side).sog.GetOr(0)
    ensures r.faceoffPct == "-" <==> GetTeamStat(TeamGameStats(game), "faceoffWinningPctg", side).None?
  {
    var team := TeamOf(game, side);
    var stats := TeamGameStats(game);
    var foRaw := GetTeamStat(stats, "faceoffWinningPctg", side);
    var faceoffPct := if foRaw.Some? then FaceoffText(foRaw.value, locale) else "-";
    TeamLinescoreStats(
      PeriodGoalCounts(game, team.id, CurrentPeriod(game)),
      team.score.GetOr(0),
      team.sog.GetOr(0),
      faceoffPct,
      GetTeamStat(stats, "blockedShots", side).GetOr(0.0),
      GetTeamStat(stats, "hits", side).GetOr(0.0))
  }

  /** The loop of `buildStats` that fills `periodGoals`. */
  method CountPeriodGoals(game: Game, goals: map<int, seq<Play>>, teamId: int, cp: int) returns (periodGoals: map<int, nat>)
    requires Grouped(goals, PlaysList(game), "goal")
    ensures periodGoals == PeriodGoalCounts(game, teamId, cp)
  {
    periodGoals := map[];
    var last := if cp >= 1 then cp else 0;
    for p := 1 to last + 1
      invariant periodGoals == PeriodGoalCounts(game, teamId, p - 1)
    {
      GroupOf(goals, PlaysList(game), "goal", p);
      var periodPlays := if p in goals then goals[p] else [];
      PeriodGoalCountsStep(game, teamId, p);
      periodGoals := periodGoals[p := |Seqs.Filter(periodPlays, x => OwnedBy(teamId, x))|];
    }
    assert PeriodGoalCounts(game, teamId, last) == PeriodGoalCounts(game, teamId, cp);
  }

  /** `buildStats(side)`. */
  method BuildStats(game: Game, goals: map<int, seq<Play>>, side: Side, locale: Locale) returns (stats: TeamLinescoreStats)
    requires Grouped(goals, PlaysList(game), "goal")
    ensures stats == StatsOf(game, side, locale)
  {
    var team := TeamOf(game, side);
    var periodGoals := CountPeriodGoals(game, goals, team.id, CurrentPeriod(game));
    var teamGameStats := TeamGameStats(game);
    var foRaw := GetTeamStat(teamGameStats, "faceoffWinningPctg", side);
    var faceoffPct := if foRaw.Some? then FaceoffText(foRaw.value, locale) else "-";
    var blocksRaw := GetTeamStat(teamGameStats, "blockedShots", side);
    var hitsRaw := GetTeamStat(teamGameStats, "hits", side);
    stats := TeamLinescoreStats(periodGoals, team.score.GetOr(0), team.sog.GetOr(0), faceoffPct,
      blocksRaw.GetOr(0.0), hitsRaw.GetOr(0.0));
  }

  /** `buildLinescoreStats(game)`. */
  method BuildLinescoreStats(game: Game, locale: Locale) returns (away: TeamLinescoreStats, home: TeamLinescoreStats)
    ensures away == StatsOf(game, Away, locale)
    ensures home == StatsOf(game, Home, locale)
  {
    var goals, _ := OrganizePlaysByPeriod(PlaysList(game));
    away := BuildStats(game, goals, Away, locale);
    home := BuildStats(game, goals, Home, locale);
  }

  // ---------------------------------------------------------------------------------------
  // Columns

  datatype Column = Column(periodLabel: string, period: int)

  /** The goal plays of period `p` as `isShootoutPeriod` and `getPeriodLabel` receive them. */
  function GoalGroupArg(game: Game, p: int): Option<seq<Play>>
  {
    var g := PlaysOf(PlaysList(game), "goal", p);
    if |g| > 0 then Some(g) else None
  }

  const FixedColumns := [Column("1st", 1), Column("2nd", 2), Column("3rd", 3)]

  /** The column of a period after the third. */
  function LateColumn(game: Game, p: int): Column
  {
    Column(GetPeriodLabel(p, game, GoalGroupArg(game, p)), p)
  }

  /** The period columns: always the three regulation periods, then one per later period up to `cp`. */
  function PeriodColumns(game: Game, cp: int): seq<Column>
  {
    FixedColumns + seq(if cp > 3 then cp - 3 else 0, i => LateColumn(game, i + 4))
  }

  /** A period after the third adds its own column to those before it. */
  lemma PeriodColumnsStep(game: Game, p: int)
    requires p >= 4
    ensures PeriodColumns(game, p) == PeriodColumns(game, p - 1) + [LateColumn(game, p)]
  {
    var late := seq(p - 3, i => LateColumn(game, i + 4));
    var before := seq(p - 4, i => LateColumn(game, i + 4));
    assert late == before + [LateColumn(game, p)];
  }

  /** The loop of `buildBodyLinescore` that adds the columns after the third period. */
  method BuildPeriodColumns(game: Game, goals: map<int, seq<Play>>, cp: int) returns (cols: seq<Column>)
    requires Grouped(goals, PlaysList(game), "goal")
    ensures cols == PeriodColumns(game, cp)
  {
    cols := FixedColumns;
    var last := if cp > 3 then cp else 3;
    for p := 4 to last + 1
      invariant cols == PeriodColumns(game, p - 1)
    {
      GroupOf(goals, PlaysList(game), "goal", p);
      var playsInPeriod := if p in goals then goals[p] else [];
      var periodLabel := GetPeriodLabel(p, game, if |playsInPeriod| > 0 then Some(playsInPeriod) else None);
      assert Column(periodLabel, p) == LateColumn(game, p);
      PeriodColumnsStep(game, p);
      cols := cols + [Column(periodLabel, p)];
    }
  }

  /** There are max(3, cp) columns, for periods 1, 2, 3, ... in order. */
  lemma ColumnsShape(game: Game, cp: int)
    ensures |PeriodColumns(game, cp)| == if cp > 3 then cp else 3
    ensures forall i :: 0 <= i < |PeriodColumns(game, cp)| ==> PeriodColumns(game, cp)[i].period == i + 1
  {
  }

  // ---------------------------------------------------------------------------------------
  // Header and separator

  function Labels(cols: seq<Column>): seq<string>
  {
    seq(|cols|, i requires 0 <= i < |cols| => cols[i].periodLabel)
  }

  /** The header's cells: Team, one per period, Total, SOG and, with extended statistics, F/O%, BLK and HIT. */
  function HeaderCells(cols: seq<Column>, hasExtendedStats: bool): seq<string>
  {
    ["Team"] + Labels(cols) + ["Total", "SOG"] + (if hasExtendedStats then ["F/O%", "BLK", "HIT"] else [])
  }

  /**
   * The header row, `| Team | ${periodHeaders} | Total | SOG${extendedHeaders} |`: its cells
   * between bars.
   */
  function HeaderRow(cols: seq<Column>, hasExtendedStats: bool): string
  {
    "| " + Join(HeaderCells(cols, hasExtendedStats), " | ") + " |"
  }

  /** The number of columns. */
  function ColumnCount(cols: seq<Column>, hasExtendedStats: bool): nat
  {
    |cols| + 3 + (if hasExtendedStats then 3 else 0)
  }

  /** The separator row: a "---" cell per column. */
  function SeparatorRow(cols: seq<Column>, hasExtendedStats: bool): string
  {
    "|" + Join(Repeat("---", ColumnCount(cols, hasExtendedStats)), "|") + "|"
  }

  /** No period label holds a '|'. */
  lemma NoBarInLabel(p: int, game: Game, plays: Option<seq<Play>>)
    ensures CountChar(GetPeriodLabel(p, game, plays), '|') == 0
  {
    var r := GetPeriodLabel(p, game, plays);
    var s := IntToString(p - 3);
    assert forall k :: 0 <= k < |s| ==> s[k] != '|' by {
      if p - 3 >= 0 {
      } else {
        assert s == "-" + NatToString(-(p - 3));
      }
    }
    var t := IntToString(p);
    assert forall k :: 0 <= k < |t| ==> t[k] != '|' by {
      if p < 0 {
        assert t == "-" + NatToString(-p);
      }
    }
    assert forall k :: 0 <= k < |r| ==> r[k] != '|';
    CountCharNone(r, '|');
  }

  /** Text between bars: "| c1 | c2 | ... |" holds one more '|' than it has cells, when no cell holds a '|'. */
  lemma BarredCells(cells: seq<string>, open: string, sep: string, close: string)
    requires |cells| >= 1
    requires forall i :: 0 <= i < |cells| ==> CountChar(cells[i], '|') == 0
    requires CountChar(open, '|') == 1 && CountChar(sep, '|') == 1 && CountChar(close, '|') == 1
    ensures CountChar(open + Join(cells, sep) + close, '|') == |cells| + 1
  {
    CountCharJoin(cells, sep, '|');
    CountCharAppend(open, Join(cells, sep), '|');
    CountCharAppend(open + Join(cells, sep), close, '|');
  }

  lemma OneBar(s: string, k: nat)
    requires k < |s| && s[k] == '|'
    requires forall j :: 0 <= j < |s| && j != k ==> s[j] != '|'
    ensures CountChar(s, '|') == 1
  {
    CountCharNone(s[..k], '|');
    CountCharNone(s[k + 1..], '|');
    assert s == s[..k] + [s[k]] + s[k + 1..];
    CountCharAppend(s[..k], [s[k]], '|');
    CountCharAppend(s[..k] + [s[k]], s[k + 1..], '|');
    assert CountChar([s[k]], '|') == 1 by {
      assert [s[k]][1..] == [];
    }
  }

  /**
   * The header and the separator have as many cells as there are columns: each holds one '|'
   * more than the column count, period labels holding no '|'.
   */
  lemma HeaderMatchesSeparator(game: Game, cp: int, hasExtendedStats: bool)
    ensures var cols := PeriodColumns(game, cp);
      CountChar(HeaderRow(cols, hasExtendedStats), '|') == ColumnCount(cols, hasExtendedStats) + 1 &&
      CountChar(SeparatorRow(cols, hasExtendedStats), '|') == ColumnCount(cols, hasExtendedStats) + 1
  {
    var cols := PeriodColumns(game, cp);
    HeaderMatchesSeparatorCells(game, cp, hasExtendedStats);
    OneBar("| ", 0);
    OneBar(" | ", 1);
    OneBar(" |", 1);
    OneBar("|", 0);
    BarredCells(HeaderCells(cols, hasExtendedStats), "| ", " | ", " |");
    var dashes := Repeat("---", ColumnCount(cols, hasExtendedStats));
    forall i | 0 <= i < |dashes|
      ensures CountChar(dashes[i], '|') == 0
    {
      CountCharNone(dashes[i], '|');
    }
    BarredCells(dashes, "|", "|", "|");
  }

  lemma HeaderMatchesSeparatorCells(game: Game, cp: int, hasExtendedStats: bool)
    ensures var cells := HeaderCells(PeriodColumns(game, cp), hasExtendedStats);
      forall i :: 0 <= i < |cells| ==> CountChar(cells[i], '|') == 0
  {
    var cols := PeriodColumns(game, cp);
    var labels := Labels(cols);
    var cells := HeaderCells(cols, hasExtendedStats);
    forall i | 0 <= i < |cells|
      ensures CountChar(cells[i], '|') == 0
    {
      if 1 <= i <= 3 {
        CountCharNone(cells[i], '|');
      } else if 4 <= i <= |cols| {
        assert cells[i] == labels[i - 1];
        assert cols[i - 1] == LateColumn(game, i);
        NoBarInLabel(i, game, GoalGroupArg(game, i));
      } else {
        CountCharNone(cells[i], '|');
      }
    }
  }

  // ---------------------------------------------------------------------------------------
  // Team rows

  /** A period cell: "-" for a shootout period, otherwise the team's goals in it (0 when not recorded). */
  function PeriodCell(game: Game, stats: TeamLinescoreStats, c: Column): string
  {
    if IsShootoutPeriod(c.period, game, GoalGroupArg(game, c.period)) then "-"
    else IntToString(if c.period in stats.periodGoals then stats.periodGoals[c.period] else 0)
  }

  function PeriodCells(game: Game, stats: TeamLinescoreStats, cols: seq<Column>): seq<string>
  {
    seq(|cols|, i requires 0 <= i < |cols| => PeriodCell(game, stats, cols[i]))
  }

  /** A blocks or hits cell: "-" for zero (`value || "-"`). */
  function CountCell(value: real, locale: Locale): string
  {
    if value == 0.0 then "-" else locale.number(value)
  }

  function ExtendedCells(stats: TeamLinescoreStats, hasExtendedStats: bool, locale: Locale): string
  {
    if hasExtendedStats then " | " + stats.faceoffPct + " | " + CountCell(stats.blocks, locale) + " | " + CountCell(stats.hits, locale)
    else ""
  }

  /** `buildRow(abbrev, stats)`. */
  function TeamRow(game: Game, abbrev: string, stats: TeamLinescoreStats, cols: seq<Column>, hasExtendedStats: bool, locale: Locale): string
  {
    "| **" + abbrev + "** | " + Join(PeriodCells(game, stats, cols), " | ") + " | **" + IntToString(stats.totalGoals) + "** | " +
    IntToString(stats.shots) + ExtendedCells(stats, hasExtendedStats, locale) + " |"
  }

  /**
   * The cells of a team's row, in the header's order: the team in bold, one per period, the
   * total in bold, the shots and, with extended statistics, faceoff percentage, blocks and hits.
   */
  function RowCells(game: Game, abbrev: string, stats: TeamLinescoreStats, cols: seq<Column>, hasExtendedStats: bool, locale: Locale): seq<string>
  {
    ["**" + abbrev + "**"] + PeriodCells(game, stats, cols) + TotalCells(stats, hasExtendedStats, locale)
  }

  /** The cells after the periods: total in bold, shots and, with extended statistics, faceoffs, blocks and hits. */
  function TotalCells(stats: TeamLinescoreStats, hasExtendedStats: bool, locale: Locale): seq<string>
  {
    ["**" + IntToString(stats.totalGoals) + "**", IntToString(stats.shots)] +
    (if hasExtendedStats then [stats.faceoffPct, CountCell(stats.blocks, locale), CountCell(stats.hits, locale)] else [])
  }

  /** A team's row is its cells between bars. */
  lemma TeamRowCells(game: Game, abbrev: string, stats: TeamLinescoreStats, cols: seq<Column>, hasExtendedStats: bool, locale: Locale)
    requires |cols| > 0
    ensures TeamRow(game, abbrev, stats, cols, hasExtendedStats, locale) == "| " + Join(RowCells(game, abbrev, stats, cols, hasExtendedStats, locale), " | ") + " |"
  {
    var sep := " | ";
    var team := "**" + abbrev + "**";
    var periods := PeriodCells(game, stats, cols);
    var ext := if hasExtendedStats then [stats.faceoffPct, CountCell(stats.blocks, locale), CountCell(stats.hits, locale)] else [];
    var last := TotalCells(stats, hasExtendedStats, locale);
    JoinTail("**" + IntToString(stats.totalGoals) + "**", IntToString(stats.shots), ext, sep);
    assert (if |ext| == 0 then "" else sep + ext[0] + sep + ext[1] + sep + ext[2]) == ExtendedCells(stats, hasExtendedStats, locale);
    JoinAppend([team], periods, sep);
    JoinAppend([team] + periods, last, sep);
    TeamRowRegroup(abbrev, Join(periods, sep), IntToString(stats.totalGoals), IntToString(stats.shots), ExtendedCells(stats, hasExtendedStats, locale));
  }

  /**
   * A team's row has one cell under each header cell: the last three are faceoff percentage,
   * blocks and hits under F/O%, BLK and HIT exactly when extended statistics are shown, and
   * otherwise the row ends with the shots under SOG.
   */
  lemma RowCellsUnderHeader(game: Game, abbrev: string, stats: TeamLinescoreStats, cols: seq<Column>, hasExtendedStats: bool, locale: Locale)
    ensures var cells := RowCells(game, abbrev, stats, cols, hasExtendedStats, locale);
      var header := HeaderCells(cols, hasExtendedStats);
      |cells| == |header| == ColumnCount(cols, hasExtendedStats) &&
      (hasExtendedStats ==>
         cells[|cols| + 3..] == [stats.faceoffPct, CountCell(stats.blocks, locale), CountCell(stats.hits, locale)] &&
         header[|cols| + 3..] == ["F/O%", "BLK", "HIT"]) &&
      (!hasExtendedStats ==> cells[|cols| + 2] == IntToString(stats.shots) && header[|cols| + 2] == "SOG")
  {
  }

  /** The last cells of a row, joined: total and shots, then the extended cells when there are any. */
  lemma JoinTail(total: string, shots: string, ext: seq<string>, sep: string)
    requires |ext| == 0 || |ext| == 3
    ensures Join([total, shots] + ext, sep) == total + sep + shots + (if |ext| == 0 then "" else sep + ext[0] + sep + ext[1] + sep + ext[2])
  {
    assert [total, shots][1..] == [shots];
    if |ext| == 3 {
      var a, b, c := ext[0], ext[1], ext[2];
      assert ext == [a, b, c];
      assert [a, b, c][1..] == [b, c] && [b, c][1..] == [c];
      assert Join([b, c], sep) == b + sep + c;
      assert Join(ext, sep) == a + sep + (b + sep + c);
      JoinAppend([total, shots], ext, sep);
    } else {
      assert [total, shots] + ext == [total, shots];
    }
  }

  /** The pieces a team row is built from are its cells between bars. */
  lemma TeamRowRegroup(abbrev: string, periods: string, total: string, shots: string, ext: string)
    ensures "| **" + abbrev + "** | " + periods + " | **" + total + "** | " + shots + ext + " |" ==
      "| " + (("**" + abbrev + "**") + " | " + periods + " | " + (("**" + total + "**") + " | " + shots + ext)) + " |"
  {
  }

  /**
   * A blocks or hits cell is "-" for zero and the rendered value otherwise; so it is "-" exactly
   * when the value is zero, as long as no other value renders as "-".
   */
  lemma CountCellDash(value: real, locale: Locale)
    ensures value == 0.0 ==> CountCell(value, locale) == "-"
    ensures value != 0.0 ==> CountCell(value, locale) == locale.number(value)
    ensures (forall x :: x != 0.0 ==> locale.number(x) != "-") ==> (CountCell(value, locale) == "-" <==> value == 0.0)
  {
  }

  /** What `buildBodyLinescore(game)` returns. */
  function LinescoreBody(game: Game, locale: Locale): (r: string)
    ensures r == "" <==> CurrentPeriod(game) == 0
  {
    var cp := CurrentPeriod(game);
    if cp == 0 then ""
    else
      var cols := PeriodColumns(game, cp);
      var ext := |TeamGameStats(game)| > 0;
      var awayRow := TeamRow(game, game.awayTeam.abbrev, StatsOf(game, Away, locale), cols, ext, locale);
      var homeRow := TeamRow(game, game.homeTeam.abbrev, StatsOf(game, Home, locale), cols, ext, locale);
      LinescoreHead + HeaderRow(cols, ext) + "\n" + SeparatorRow(cols, ext) + "\n" + awayRow + "\n" + homeRow + "\n\n"
  }

  /**
   * The table shows the extended columns exactly when the game summary has team statistics:
   * the header, the separator and both team rows are built with that one flag, and each row
   * lists its cells between bars.
   */
  lemma LinescoreExtendedColumns(game: Game, locale: Locale)
    requires CurrentPeriod(game) != 0
    ensures var cols := PeriodColumns(game, CurrentPeriod(game));
      var ext := |TeamGameStats(game)| > 0;
      LinescoreBody(game, locale) ==
        LinescoreHead + HeaderRow(cols, ext) + "\n" + SeparatorRow(cols, ext) + "\n" +
        ("| " + Join(RowCells(game, game.awayTeam.abbrev, StatsOf(game, Away, locale), cols, ext, locale), " | ") + " |") + "\n" +
        ("| " + Join(RowCells(game, game.homeTeam.abbrev, StatsOf(game, Home, locale), cols, ext, locale), " | ") + " |") + "\n\n"
  {
    var cols := PeriodColumns(game, CurrentPeriod(game));
    var ext := |TeamGameStats(game)| > 0;
    var away, home := StatsOf(game, Away, locale), StatsOf(game, Home, locale);
    ColumnsShape(game, CurrentPeriod(game));
    TeamRowCells(game, game.awayTeam.abbrev, away, cols, ext, locale);
    TeamRowCells(game, game.homeTeam.abbrev, home, cols, ext, locale);
  }

  /** `buildBodyLinescore(game)`. */
  method BuildBodyLinescore(game: Game, locale: Locale) returns (out: string)
    ensures out == LinescoreBody(game, locale)
  {
    var cp := CurrentPeriod(game);
    if cp == 0 {
      return "";
    }
    var away, home := BuildLinescoreStats(game, locale);
    var goals, _ := OrganizePlaysByPeriod(PlaysList(game));
    var cols := BuildPeriodColumns(game, goals, cp);
    var ext := |TeamGameStats(game)| > 0;
    var awayRow := TeamRow(game, game.awayTeam.abbrev, away, cols, ext, locale);
    var homeRow := TeamRow(game, game.homeTeam.abbrev, home, cols, ext, locale);
    out := LinescoreHead + HeaderRow(cols, ext) + "\n" + SeparatorRow(cols, ext) + "\n" + awayRow + "\n" + homeRow + "\n\n";
  }

  // ---------------------------------------------------------------------------------------
  // Properties of the rows

  /**
   * The cell of period `p` in a team's row: "-" for a shootout period, otherwise the number of
   * that period's goal plays the team owns, and 0 for a regulation period not yet reached.
   */
  lemma PeriodCellCounts(game: Game, side: Side, locale: Locale, p: int)
    requires 1 <= p <= |PeriodColumns(game, CurrentPeriod(game))|
    ensures var cols := PeriodColumns(game, CurrentPeriod(game));
      var cell := PeriodCells(game, StatsOf(game, side, locale), cols)[p - 1];
      (IsShootoutPeriod(p, game, GoalGroupArg(game, p)) ==> cell == "-") &&
      (!IsShootoutPeriod(p, game, GoalGroupArg(game, p)) ==>
         cell == IntToString(if p <= CurrentPeriod(game) then TeamGoals(game, TeamOf(game, side).id, p) else 0))
  {
    var cols := PeriodColumns(game, CurrentPeriod(game));
    ColumnsShape(game, CurrentPeriod(game));
    PeriodCellOf(game, StatsOf(game, side, locale), cols, p);
    PeriodGoalsOfStats(game, side, locale, p);
  }

  lemma PeriodCellOf(game: Game, stats: TeamLinescoreStats, cols: seq<Column>, p: int)
    requires 1 <= p <= |cols| && cols[p - 1].period == p
    ensures PeriodCells(game, stats, cols)[p - 1] ==
      if IsShootoutPeriod(p, game, GoalGroupArg(game, p)) then "-"
      else IntToString(if p in stats.periodGoals then stats.periodGoals[p] else 0)
  {
  }

  /** The `periodGoals` record of a team's statistics holds the team's goals of each period from 1 to the current one. */
  lemma PeriodGoalsOfStats(game: Game, side: Side, locale: Locale, p: int)
    ensures var m := StatsOf(game, side, locale).periodGoals;
      (p in m <==> 1 <= p <= CurrentPeriod(game)) && (p in m ==> m[p] == TeamGoals(game, TeamOf(game, side).id, p))
  {
  }

  /** The goals a period credits to the two teams are at most the period's goal plays, when the teams differ. */
  lemma {:induction false} TeamGoalsBounded(plays: seq<Play>, awayId: int, homeId: int)
    requires awayId != homeId
    ensures |Seqs.Filter(plays, x => OwnedBy(awayId, x))| + |Seqs.Filter(plays, x => OwnedBy(homeId, x))| <= |plays|
  {
    if |plays| > 0 {
      TeamGoalsBounded(plays[1..], awayId, homeId);
    }
  }

  lemma BothTeamsWithinPeriodGoals(game: Game, p: int)
    requires game.awayTeam.id != game.homeTeam.id
    ensures TeamGoals(game, game.awayTeam.id, p) + TeamGoals(game, game.homeTeam.id, p) <= |PlaysOf(PlaysList(game), "goal", p)|
  {
    TeamGoalsBounded(PlaysOf(PlaysList(game), "goal", p), game.awayTeam.id, game.homeTeam.id);
  }
}
