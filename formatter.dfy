/**
 * `formatThreadTitle` and `formatThreadBody` of src/server/leagues/nhl/formatting/formatter.ts:
 * the title of a game's thread and its body assembled from the four sections.
 */
module Formatter {
  import opened Strings
  import opened Constants
  import opened Api
  import opened Helpers
  import opened FormatHeader
  import opened FormatLinescore
  import opened FormatGoals
  import opened FormatPenalties

  const SectionBreak := "\n\n---\n\n"

  /** `formatThreadTitle(game)`. */
  function FormatThreadTitle(game: Game, locale: Locale): string
  {
    var away := game.awayTeam.abbrev;
    var home := game.homeTeam.abbrev;
    var gameDate := if game.gameDate != "" then game.gameDate else locale.localDate(game.startTimeUtc);
    var localTime := locale.localTime(game.startTimeUtc);
    if IsTerminal(GameState(game)) then "PGT | " + away + " @ " + home
    else "Game Day Thread | " + away + " @ " + home + " | " + gameDate + " " + localTime
  }

  /**
   * A finished game (FINAL or OFF) gets exactly the post-game title; any other state, a missing
   * one included, gets the game-day title with the API's date, or the locale date when the API
   * gives none.
   */
  lemma TitleChoice(game: Game, locale: Locale)
    ensures IsTerminal(GameState(game)) ==>
      FormatThreadTitle(game, locale) == "PGT | " + game.awayTeam.abbrev + " @ " + game.homeTeam.abbrev
    ensures !IsTerminal(GameState(game)) ==>
      var gameDate := if game.gameDate != "" then game.gameDate else locale.localDate(game.startTimeUtc);
      FormatThreadTitle(game, locale) ==
        "Game Day Thread | " + game.awayTeam.abbrev + " @ " + game.homeTeam.abbrev + " | " + gameDate + " " + locale.localTime(game.startTimeUtc)
    ensures var t := FormatThreadTitle(game, locale); |t| >= 3 && (t[..3] == "PGT" <==> IsTerminal(GameState(game)))
  {
    var t := FormatThreadTitle(game, locale);
    if IsTerminal(GameState(game)) {
      assert t[..3] == "PGT";
    } else {
      assert t[0] == 'G';
    }
  }

  /** The full body: the sections in order, separated by rules. */
  function Assemble(header: string, linescore: string, goals: string, penalties: string): string
  {
    header + SectionBreak + linescore + SectionBreak + goals + SectionBreak + penalties
  }

  /** The assembled body starts with the header, and so carries every piece of it. */
  lemma AssembleStartsWithHeader(piece: string, header: string, linescore: string, goals: string, penalties: string)
    requires Within(piece, header)
    ensures var b := Assemble(header, linescore, goals, penalties); |header| <= |b| && b[..|header|] == header
    ensures Within(piece, Assemble(header, linescore, goals, penalties))
  {
    var b1 := header + SectionBreak;
    var b2 := b1 + linescore;
    var b3 := b2 + SectionBreak;
    var b4 := b3 + goals;
    var b5 := b4 + SectionBreak;
    assert Assemble(header, linescore, goals, penalties) == b5 + penalties;
    assert header[..|header|] == header;
    PrefixExtend(header, header, SectionBreak);
    PrefixExtend(header, b1, linescore);
    PrefixExtend(header, b2, SectionBreak);
    PrefixExtend(header, b3, goals);
    PrefixExtend(header, b4, SectionBreak);
    PrefixExtend(header, b5, penalties);
    WithinExtend(piece, "", header, SectionBreak);
    WithinExtend(piece, "", b1, linescore);
    WithinExtend(piece, "", b2, SectionBreak);
    WithinExtend(piece, "", b3, goals);
    WithinExtend(piece, "", b4, SectionBreak);
    WithinExtend(piece, "", b5, penalties);
  }

  /** What a string starts with, it still starts with after more is appended. */
  lemma PrefixExtend(h: string, a: string, x: string)
    requires |h| <= |a| && a[..|h|] == h
    ensures |h| <= |a + x| && (a + x)[..|h|] == h
  {
    assert (a + x)[..|h|] == a[..|h|];
  }

  /** `formatThreadBody(game)`. */
  function FormatThreadBody(game: Game, locale: Locale): string
  {
    var gameState := GameState(game);
    var header := HeaderBody(game, locale);
    if gameState == Fut || gameState == Pre then header
    else Assemble(header, LinescoreBody(game, locale), GoalsBody(game), PenaltiesBody(game))
  }

  /**
   * Before the game (FUT, PRE) the body is the header alone; otherwise it is the header, the
   * linescore, the goals and the penalties in that order, separated by rules. A missing state
   * counts as UNKNOWN and gets the full body.
   */
  lemma BodySections(game: Game, locale: Locale)
    ensures var s := GameState(game); s == Fut || s == Pre ==> FormatThreadBody(game, locale) == HeaderBody(game, locale)
    ensures var s := GameState(game); s != Fut && s != Pre ==>
      FormatThreadBody(game, locale) ==
        HeaderBody(game, locale) + SectionBreak + LinescoreBody(game, locale) + SectionBreak + GoalsBody(game) + SectionBreak + PenaltiesBody(game)
    ensures game.gameState.None? ==>
      FormatThreadBody(game, locale) == Assemble(HeaderBody(game, locale), LinescoreBody(game, locale), GoalsBody(game), PenaltiesBody(game))
  {
  }

  /** Every body, full or not, starts with the header and carries the game's status line. */
  lemma BodyHasStatus(game: Game, locale: Locale)
    ensures var b := FormatThreadBody(game, locale); var h := HeaderBody(game, locale);
      |h| <= |b| && b[..|h|] == h
    ensures Within(StatusLine(game), FormatThreadBody(game, locale))
  {
    HeaderHasStatus(game, locale);
    var s := GameState(game);
    if s != Fut && s != Pre {
      AssembleStartsWithHeader(StatusLine(game), HeaderBody(game, locale), LinescoreBody(game, locale), GoalsBody(game), PenaltiesBody(game));
    }
  }

  /**
   * How the jobs format a thread for a game: its title and its body. The jobs take it as a
   * parameter; the program's own is `Format(locale)` for the subreddit's time zone.
   */
  datatype Formatting = Formatting(title: Game -> string, body: Game -> string)

  function Format(locale: Locale): (f: Formatting)
    ensures forall game :: f.title(game) == FormatThreadTitle(game, locale) && f.body(game) == FormatThreadBody(game, locale)
  {
    Formatting(game => FormatThreadTitle(game, locale), game => FormatThreadBody(game, locale))
  }

  /**
   * The program's own formatter titles a finished game's thread as its post-game thread and any
   * other game's as its game-day thread, and every body it writes carries the status line.
   */
  lemma FormatTitleAndStatus(game: Game, locale: Locale)
    ensures var t := Format(locale).title(game);
      (IsTerminal(GameState(game)) ==> t == "PGT | " + game.awayTeam.abbrev + " @ " + game.homeTeam.abbrev) &&
      (!IsTerminal(GameState(game)) ==>
         t == "Game Day Thread | " + game.awayTeam.abbrev + " @ " + game.homeTeam.abbrev + " | " +
              (if game.gameDate != "" then game.gameDate else locale.localDate(game.startTimeUtc)) + " " +
              locale.localTime(game.startTimeUtc)) &&
      |t| >= 3 && (t[..3] == "PGT" <==> IsTerminal(GameState(game)))
    ensures Within(StatusLine(game), Format(locale).body(game))
  {
    TitleChoice(game, locale);
    BodyHasStatus(game, locale);
  }
}
