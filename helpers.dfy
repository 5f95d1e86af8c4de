/**
 * The shared formatting helpers of src/server/leagues/nhl/formatting/helpers.ts, and the
 * locale-dependent strings the formatters take as parameters.
 */
module Helpers {
  import opened Wrappers
  import opened Strings
  import opened Api
  import Seqs

  /** What the runtime's locale and time-zone support renders; the formatters take it as given. */
  datatype Locale = Locale(
    localDate: int -> string,   // an instant as `toLocaleDateString('en-CA')` in the team's zone
    localTime: int -> string,   // an instant as `toLocaleTimeString('en-US', ...)` in the team's zone
    lastUpdate: string,         // the current time as `toLocaleString('en-US', ...)`
    fixed1: real -> string,     // `x.toFixed(1)`
    number: real -> string)     // `String(x)` for a statistic value

  // ---------------------------------------------------------------------------------------
  // formatTime

  /** `s.split(c)` for a one-character separator. */
  function Split(s: string, c: char): (r: seq<string>)
    ensures |r| >= 1
    ensures forall i :: 0 <= i < |r| ==> !ContainsChar(r[i], c)
    ensures ContainsChar(s, c) <==> |r| >= 2
  {
    if s == [] then [""]
    else
      var rest := Split(s[1..], c);
      if s[0] == c then
        assert ContainsChar(s, c) by { assert s[0] == c; }
        [""] + rest
      else
        assert !ContainsChar([s[0]] + rest[0], c) by {
          forall i | 0 <= i < |[s[0]] + rest[0]| ensures ([s[0]] + rest[0])[i] != c {
            if i > 0 {
              assert ([s[0]] + rest[0])[i] == rest[0][i - 1];
            }
          }
        }
        assert ContainsChar(s, c) <==> ContainsChar(s[1..], c) by {
          if ContainsChar(s, c) {
            var i :| 0 <= i < |s| && s[i] == c;
            assert s[1..][i - 1] == c;
          }
          if ContainsChar(s[1..], c) {
            var i :| 0 <= i < |s[1..]| && s[1..][i] == c;
            assert s[i + 1] == c;
          }
        }
        [[s[0]] + rest[0]] + rest[1..]
  }

  /** Splitting on `c` and joining with `c` gives the string back. */
  lemma {:induction false} JoinSplit(s: string, c: char)
    ensures Join(Split(s, c), [c]) == s
  {
    if s != [] {
      var rest := Split(s[1..], c);
      JoinSplit(s[1..], c);
      if s[0] == c {
        assert Join([""] + rest, [c]) == "" + [c] + Join(rest, [c]) by {
          assert ([""] + rest)[1..] == rest;
        }
        assert s == [c] + s[1..];
      } else {
        var parts := [[s[0]] + rest[0]] + rest[1..];
        if |rest| == 1 {
          assert Join(rest, [c]) == rest[0];
        } else {
          assert Join(rest, [c]) == rest[0] + [c] + Join(rest[1..], [c]);
          assert parts[1..] == rest[1..];
        }
        assert s == [s[0]] + s[1..];
      }
    }
  }

  /** `n.toString()` of what `Number` gave: the digits, or "NaN". */
  function NumText(n: Option<nat>): string
  {
    match n
    case Some(v) => NatToString(v)
    case None => "NaN"
  }

  /**
   * `formatTime(t)`: "-" for an empty time or one without ':'; otherwise the minutes and
   * seconds fields, each read with `Number` and padded to two digits.
   */
  function FormatTime(t: string): (r: string)
    ensures r == "-" <==> t == "" || !ContainsChar(t, ':')
    ensures r != "-" ==>
      var parts := Split(t, ':');
      r == PadStart2(NumText(NumberOf(parts[0]))) + ":" + PadStart2(NumText(NumberOf(parts[1])))
  {
    if t == "" || !ContainsChar(t, ':') then "-"
    else
      var parts := Split(t, ':');
      var r := PadStart2(NumText(NumberOf(parts[0]))) + ":" + PadStart2(NumText(NumberOf(parts[1])));
      assert r[|PadStart2(NumText(NumberOf(parts[0])))|] == ':';
      r
  }

  /** A clock time "m:s" with both fields below 100 comes out as exactly "mm:ss". */
  lemma FormatTimeClock(t: string)
    requires ContainsChar(t, ':')
    requires var parts := Split(t, ':');
      NumberOf(parts[0]).Some? && NumberOf(parts[0]).value < 100 &&
      NumberOf(parts[1]).Some? && NumberOf(parts[1]).value < 100
    ensures var r := FormatTime(t); var parts := Split(t, ':');
      |r| == 5 && r[2] == ':' && AllDigits(r[..2]) && AllDigits(r[3..]) &&
      DigitsValue(r[..2]) == NumberOf(parts[0]).value && DigitsValue(r[3..]) == NumberOf(parts[1]).value
  {
    var parts := Split(t, ':');
    var m, s := NumberOf(parts[0]).value, NumberOf(parts[1]).value;
    PadStart2Digits(m);
    PadStart2Digits(s);
    var mm := PadStart2(NatToString(m));
    var ss := PadStart2(NatToString(s));
    assert t != "";
    assert FormatTime(t) == mm + ":" + ss;
    ClockPieces(mm, ss);
  }

  /** Two two-character fields around a ':' sit at fixed positions. */
  lemma ClockPieces(mm: string, ss: string)
    requires |mm| == 2 && |ss| == 2
    ensures var r := mm + ":" + ss; |r| == 5 && r[2] == ':' && r[..2] == mm && r[3..] == ss
  {
    var r := mm + ":" + ss;
    assert r[..2] == mm;
    assert r[3..] == ss;
  }

  // ---------------------------------------------------------------------------------------
  // organizePlaysByPeriod

  /** A play's period number; 1 when the play has no period descriptor. */
  function PeriodOf(play: Play): int
  {
    match play.periodDescriptor
    case Some(d) => d.number
    case None => 1
  }

  predicate IsKindIn(kind: string, p: int, play: Play)
  {
    play.typeDescKey == kind && PeriodOf(play) == p
  }

  /** The plays of type `kind` in period `p`, in input order. */
  function PlaysOf(plays: seq<Play>, kind: string, p: int): seq<Play>
  {
    Seqs.Filter(plays, x => IsKindIn(kind, p, x))
  }

  /** What a `Record<number, any[]>` built by `organizePlaysByPeriod` holds for `kind`. */
  ghost predicate Grouped(m: map<int, seq<Play>>, plays: seq<Play>, kind: string)
  {
    forall p :: (p in m <==> PlaysOf(plays, kind, p) != []) && (p in m ==> m[p] == PlaysOf(plays, kind, p))
  }

  /** The `if (type === kind) { ... m[period]!.push(play) }` step of `organizePlaysByPeriod`. */
  function AddPlay(m: map<int, seq<Play>>, play: Play, kind: string): map<int, seq<Play>>
  {
    if play.typeDescKey != kind then m
    else
      var period := PeriodOf(play);
      m[period := (if period in m then m[period] else []) + [play]]
  }

  lemma GroupedStep(m: map<int, seq<Play>>, plays: seq<Play>, play: Play, kind: string)
    requires Grouped(m, plays, kind)
    ensures Grouped(AddPlay(m, play, kind), plays + [play], kind)
  {
    var m' := AddPlay(m, play, kind);
    forall p ensures (p in m' <==> PlaysOf(plays + [play], kind, p) != []) &&
                     (p in m' ==> m'[p] == PlaysOf(plays + [play], kind, p))
    {
      Seqs.FilterAppend(plays, [play], x => IsKindIn(kind, p, x));
      assert Seqs.Filter([play], x => IsKindIn(kind, p, x)) == (if IsKindIn(kind, p, play) then [play] else []) by {
        assert [play][1..] == [];
      }
    }
  }

  /**
   * `organizePlaysByPeriod(plays)`: goal plays and penalty plays grouped by period, each group
   * in input order; plays of other types are dropped.
   */
  method OrganizePlaysByPeriod(plays: seq<Play>) returns (goals: map<int, seq<Play>>, penalties: map<int, seq<Play>>)
    ensures Grouped(goals, plays, "goal")
    ensures Grouped(penalties, plays, "penalty")
  {
    goals := map[];
    penalties := map[];
    for i := 0 to |plays|
      invariant Grouped(goals, plays[..i], "goal")
      invariant Grouped(penalties, plays[..i], "penalty")
    {
      var play := plays[i];
      var period := PeriodOf(play);
      GroupedStep(goals, plays[..i], play, "goal");
      GroupedStep(penalties, plays[..i], play, "penalty");
      assert plays[..i + 1] == plays[..i] + [play];
      if play.typeDescKey == "goal" {
        var before := if period in goals then goals[period] else [];
        goals := goals[period := before + [play]];
      }
      if play.typeDescKey == "penalty" {
        var before := if period in penalties then penalties[period] else [];
        penalties := penalties[period := before + [play]];
      }
    }
    assert plays[..|plays|] == plays;
  }

  /** What the record holds for period `p`, reading an absent period as empty. */
  lemma GroupOf(m: map<int, seq<Play>>, plays: seq<Play>, kind: string, p: int)
    requires Grouped(m, plays, kind)
    ensures p in m <==> PlaysOf(plays, kind, p) != []
    ensures (if p in m then m[p] else []) == PlaysOf(plays, kind, p)
  {
  }

  /** Every goal (penalty) play is in its period's group exactly as often as it is in the plays. */
  lemma GroupedExactlyOnce(plays: seq<Play>, kind: string, p: int, x: Play)
    ensures multiset(PlaysOf(plays, kind, p))[x] == if IsKindIn(kind, p, x) then multiset(plays)[x] else 0
  {
    Seqs.FilterMultiset(plays, y => IsKindIn(kind, p, y), x);
  }

  // ---------------------------------------------------------------------------------------
  // Teams and players

  /** `getTeamById(game, teamId)`: the home team is checked first. */
  function GetTeamById(game: Game, teamId: Option<int>): (r: string)
    ensures teamId == Some(game.homeTeam.id) ==> r == game.homeTeam.abbrev
    ensures teamId != Some(game.homeTeam.id) && teamId == Some(game.awayTeam.id) ==> r == game.awayTeam.abbrev
    ensures teamId != Some(game.homeTeam.id) && teamId != Some(game.awayTeam.id) ==> r == "UNK"
  {
    if teamId == Some(game.homeTeam.id) then game.homeTeam.abbrev
    else if teamId == Some(game.awayTeam.id) then game.awayTeam.abbrev
    else "UNK"
  }

  datatype PlayerInfo = PlayerInfo(number: string, name: string)

  predicate IsPlayer(id: int, r: RosterSpot) { r.playerId == id }

  predicate OnRoster(game: Game, id: int)
  {
    game.rosterSpots.Some? && exists i :: 0 <= i < |game.rosterSpots.value| && game.rosterSpots.value[i].playerId == id
  }

  /**
   * `getPlayerInfo(game, playerId)`: no player for an absent or zero id; a placeholder for an
   * id not on the roster; otherwise the first roster entry's number ("00" when it has none)
   * and full name.
   */
  function GetPlayerInfo(game: Game, playerId: Option<int>): (r: Option<PlayerInfo>)
    ensures r.None? <==> playerId.None? || playerId.value == 0
    ensures r.Some? && !OnRoster(game, playerId.value) ==> r.value == PlayerInfo("00", "Unknown Player")
    ensures r.Some? && OnRoster(game, playerId.value) ==>
      var spots := game.rosterSpots.value;
      exists i :: 0 <= i < |spots| && spots[i].playerId == playerId.value &&
        (forall j :: 0 <= j < i ==> spots[j].playerId != playerId.value) &&
        r.value == PlayerInfo(SweaterText(spots[i].sweaterNumber), spots[i].firstName + " " + spots[i].lastName)
  {
    if playerId.None? || playerId.value == 0 then None
    else
      var spot := if game.rosterSpots.None? then None
                  else Seqs.Find(game.rosterSpots.value, s => IsPlayer(playerId.value, s));
      match spot
      case None => Some(PlayerInfo("00", "Unknown Player"))
      case Some(s) =>
        Some(PlayerInfo(SweaterText(s.sweaterNumber), s.firstName + " " + s.lastName))
  }

  /** `String(sweaterNumber ?? "00")`: the number in decimal, "00" when the entry has none. */
  function SweaterText(n: Option<int>): string
  {
    match n
    case Some(v) => IntToString(v)
    case None => "00"
  }

  // ---------------------------------------------------------------------------------------
  // getStrength

  /** Whether `code` matches `^\d{4}$`. */
  predicate IsSituationCode(code: string) { |code| == 4 && AllDigits(code) }

  /**
   * `getStrength(situationCode, scoringTeam)`; the code's digits are away goalie, away
   * skaters, home skaters, home goalie.
   */
  function GetStrength(code: string, home: bool): (r: string)
    ensures r in {"", "ENG", "EA", "PP", "SHG"}
    ensures !IsSituationCode(code) || code == "0101" || code == "1010" ==> r == ""
    ensures IsSituationCode(code) && code != "0101" && code != "1010" ==>
      var team := if home then code[2] else code[1];
      var opp := if home then code[1] else code[2];
      var ownGoalie := if home then code[3] else code[0];
      var oppGoalie := if home then code[0] else code[3];
      (oppGoalie == '0' ==> r == "ENG") &&
      (oppGoalie != '0' && team > opp ==> r == (if ownGoalie == '0' then "EA" else "PP")) &&
      (oppGoalie != '0' && team < opp ==> r == "SHG") &&
      (oppGoalie != '0' && team == opp ==> r == "")
  {
    if !IsSituationCode(code) then ""
    else if code == "0101" || code == "1010" then ""
    else
      var awayGoalie := DigitValue(code[0]);
      var awaySkaters := DigitValue(code[1]);
      var homeSkaters := DigitValue(code[2]);
      var homeGoalie := DigitValue(code[3]);
      var teamSkaters := if home then homeSkaters else awaySkaters;
      var oppSkaters := if home then awaySkaters else homeSkaters;
      var teamGoalieInNet := if home then homeGoalie else awayGoalie;
      var oppGoalieInNet := if home then awayGoalie else homeGoalie;
      if oppGoalieInNet == 0 then "ENG"
      else if teamSkaters > oppSkaters && teamGoalieInNet == 0 then "EA"
      else if teamSkaters > oppSkaters then "PP"
      else if teamSkaters < oppSkaters then "SHG"
      else ""
  }

  function Reverse(s: string): (r: string)
    ensures |r| == |s| && forall i :: 0 <= i < |s| ==> r[i] == s[|s| - 1 - i]
  {
    if s == [] then [] else Reverse(s[1..]) + [s[0]]
  }

  /** Reading the code from the other end swaps the teams: the home side of a code is the away side of its reverse. */
  lemma StrengthSymmetric(code: string)
    ensures GetStrength(code, true) == GetStrength(Reverse(code), false)
  {
    var rc := Reverse(code);
    if IsSituationCode(code) {
      assert IsSituationCode(rc);
      assert rc[0] == code[3] && rc[1] == code[2] && rc[2] == code[1] && rc[3] == code[0];
      if code == "0101" {
        assert rc == "1010";
      } else if code == "1010" {
        assert rc == "0101";
      }
    } else if |code| == 4 {
      var i :| 0 <= i < 4 && !IsDigit(code[i]);
      assert !IsDigit(rc[3 - i]);
    }
  }

  // ---------------------------------------------------------------------------------------
  // Period labels

  /** The OT label of period `p`: "OT" for the first overtime, "2OT", "3OT", ... after it. */
  function OtLabel(p: int): string
  {
    if p == 4 then "OT" else IntToString(p - 3) + "OT"
  }

  /** The `periodType` of the first of `plays`, if it has one. */
  function FirstPeriodType(plays: seq<Play>): Option<string>
    requires |plays| > 0
  {
    match plays[0].periodDescriptor
    case Some(d) => Some(d.periodType)
    case None => None
  }

  function HasPlays(plays: Option<seq<Play>>): bool { plays.Some? && |plays.value| > 0 }

  /**
   * `getPeriodLabel(period, game, plays)`: decided by the first play's period type when there
   * are plays, and by the game's shootout and overtime flags otherwise.
   */
  function GetPeriodLabel(period: int, game: Game, plays: Option<seq<Play>>): (r: string)
    ensures HasPlays(plays) && FirstPeriodType(plays.value) == Some("SO") ==> r == "SO"
    ensures HasPlays(plays) && FirstPeriodType(plays.value) == Some("OT") ==> r == OtLabel(period)
    ensures !HasPlays(plays) && game.shootoutInUse == Some(true) && period == 5 ==> r == "SO"
    ensures (!HasPlays(plays) && !(game.shootoutInUse == Some(true) && period == 5) &&
             game.otInUse == Some(true) && period >= 4) ==> r == OtLabel(period)
  {
    if HasPlays(plays) then
      var t := FirstPeriodType(plays.value);
      if t == Some("SO") then "SO"
      else if t == Some("OT") then OtLabel(period)
      else IntToString(period)
    else if game.shootoutInUse == Some(true) && period == 5 then "SO"
    else if game.otInUse == Some(true) && period >= 4 then OtLabel(period)
    else IntToString(period)
  }

  /**
   * Every other period is labelled by its number: one whose first play is neither a shootout
   * nor an overtime play, or, without plays, one that the game's flags do not make a shootout
   * or an overtime.
   */
  lemma PeriodLabelFallback(period: int, game: Game, plays: Option<seq<Play>>)
    ensures HasPlays(plays) && FirstPeriodType(plays.value) != Some("SO") && FirstPeriodType(plays.value) != Some("OT") ==>
      GetPeriodLabel(period, game, plays) == IntToString(period)
    ensures (!HasPlays(plays) && !(game.shootoutInUse == Some(true) && period == 5) &&
             !(game.otInUse == Some(true) && period >= 4)) ==> GetPeriodLabel(period, game, plays) == IntToString(period)
  {
  }

  /** `isShootoutPeriod(period, game, plays)`. */
  function IsShootoutPeriod(period: int, game: Game, plays: Option<seq<Play>>): bool
  {
    if HasPlays(plays) then FirstPeriodType(plays.value) == Some("SO")
    else game.shootoutInUse == Some(true) && period == 5
  }

  /** The shootout test and the period label agree: a period is a shootout exactly when it is labelled "SO". */
  lemma ShootoutIffLabelSO(period: int, game: Game, plays: Option<seq<Play>>)
    ensures IsShootoutPeriod(period, game, plays) <==> GetPeriodLabel(period, game, plays) == "SO"
  {
    var s := IntToString(period);
    assert s[0] != 'S';
    var o := OtLabel(period);
    assert o != "SO" by {
      if period != 4 {
        assert o[|o| - 1] == 'T';
      }
    }
  }

  // ---------------------------------------------------------------------------------------
  // formatInfraction

  /** The penalty keys `formatInfraction` renames, with their replacements. */
  function InfractionOverride(s: string): Option<string>
  {
    if s == "too-many-men-on-the-ice" then Some("Too&nbsp;Many&nbsp;Men")
    else if s == "delaying-game-puck-over-glass" then Some("DoG Puck Over Glass")
    else if s == "delaying-game-unsuccessful-challenge" then Some("DoG Unsuccessful Challenge")
    else if s == "abuse-of-officials" then Some("Abuse&nbsp;of&nbsp;Officials")
    else if s == "unsportsmanlike-conduct" then Some("Unsportsmanlike Conduct")
    else if s == "holding-the-stick" then Some("Holding&nbsp;the&nbsp;Stick")
    else if s == "roughing-removing-opponents-helmet" then Some("Roughing (Remove opp. helmet)")
    else if s == "high-sticking-double-minor" then Some("High-sticking")
    else if s == "interference-goalkeeper" then Some("Goalkeeper&nbsp;Interference")
    else if s == "goalie-leave-crease" then Some("Leaving&nbsp;the&nbsp;Crease")
    else if s == "illegal-check-to-head" then Some("Illegal&nbsp;Check&nbsp;to&nbsp;Head")
    else None
  }

  /**
   * `formatInfraction(descKey)`: "Penalty" for a missing key, the fixed replacement for a
   * listed key, and otherwise the key with its first character upper-cased.
   */
  function FormatInfraction(descKey: Option<string>): (r: string)
    ensures descKey.None? ==> r == "Penalty"
    ensures descKey.Some? && InfractionOverride(descKey.value).Some? ==> r == InfractionOverride(descKey.value).value
    ensures descKey.Some? && InfractionOverride(descKey.value).None? ==> r == CapitalizeFirst(descKey.value)
  {
    var s := descKey.GetOr("Penalty");
    match InfractionOverride(s)
    case Some(t) => t
    case None => CapitalizeFirst(s)
  }

  // ---------------------------------------------------------------------------------------
  // Sorting plays by time

  predicate TimeLe(a: Play, b: Play) { StrLe(a.timeInPeriod, b.timeInPeriod) }

  predicate SortedByTime(s: seq<Play>)
  {
    forall i, j :: 0 <= i < j < |s| ==> TimeLe(s[i], s[j])
  }

  /** A play that is no later than every play of a sorted sequence can go in front of it. */
  lemma ConsSorted(y: Play, s: seq<Play>)
    requires SortedByTime(s)
    requires forall z :: z in s ==> TimeLe(y, z)
    ensures SortedByTime([y] + s)
  {
    forall i, j | 0 <= i < j < |[y] + s| ensures TimeLe(([y] + s)[i], ([y] + s)[j]) {
      if i == 0 {
        assert ([y] + s)[j] == s[j - 1];
        assert s[j - 1] in s;
      }
    }
  }

  lemma FrontLeAll(x: Play, s: seq<Play>)
    requires SortedByTime(s) && s != [] && TimeLe(x, s[0])
    ensures forall z :: z in s ==> TimeLe(x, z)
  {
    forall z | z in s ensures TimeLe(x, z) {
      var k :| 0 <= k < |s| && s[k] == z;
      if k > 0 {
        StrLeTransitive(x.timeInPeriod, s[0].timeInPeriod, z.timeInPeriod);
      }
    }
  }

  /** Inserts `x` in front of the first play of `s` it is no later than. */
  function Insert(x: Play, s: seq<Play>): seq<Play>
  {
    if |s| == 0 then [x]
    else if TimeLe(x, s[0]) then [x] + s
    else [s[0]] + Insert(x, s[1..])
  }

  lemma {:induction false} InsertSorted(x: Play, s: seq<Play>)
    requires SortedByTime(s)
    ensures SortedByTime(Insert(x, s)) && multiset(Insert(x, s)) == multiset(s) + multiset{x}
  {
    if s == [] {
    } else if TimeLe(x, s[0]) {
      FrontLeAll(x, s);
      ConsSorted(x, s);
    } else {
      StrLeTotal(x.timeInPeriod, s[0].timeInPeriod);
      assert SortedByTime(s[1..]);
      InsertSorted(x, s[1..]);
      var rest := Insert(x, s[1..]);
      HeadLeRest(x, s, rest);
      ConsSorted(s[0], rest);
      assert s == [s[0]] + s[1..];
    }
  }

  lemma HeadLeRest(x: Play, s: seq<Play>, rest: seq<Play>)
    requires SortedByTime(s) && s != [] && TimeLe(s[0], x)
    requires multiset(rest) == multiset(s[1..]) + multiset{x}
    ensures forall y :: y in rest ==> TimeLe(s[0], y)
  {
    forall y | y in rest ensures TimeLe(s[0], y) {
      assert y in multiset(rest);
      if y != x {
        assert y in multiset(s[1..]);
        var k :| 0 <= k < |s[1..]| && s[1..][k] == y;
        assert s[k + 1] == y;
      }
    }
  }

  /**
   * `plays.sort((a, b) => a.timeInPeriod.localeCompare(b.timeInPeriod))`: an insertion sort
   * that keeps plays with equal times in their input order (`SortByTimeStable`).
   */
  function SortByTime(s: seq<Play>): seq<Play>
  {
    if |s| == 0 then [] else Insert(s[0], SortByTime(s[1..]))
  }

  /** Sorting orders the plays by time and keeps every play, as often as it occurs. */
  lemma {:induction false} SortByTimeSorts(s: seq<Play>)
    ensures SortedByTime(SortByTime(s)) && multiset(SortByTime(s)) == multiset(s)
  {
    if s != [] {
      SortByTimeSorts(s[1..]);
      InsertSorted(s[0], SortByTime(s[1..]));
      assert s == [s[0]] + s[1..];
    }
  }

  /** The plays at clock time `t`. */
  function AtTime(t: string): Play -> bool
  {
    (p: Play) => p.timeInPeriod == t
  }

  /** Inserting a play at another time than `t` leaves the plays at `t` as they were. */
  lemma {:induction false} InsertOtherTime(x: Play, s: seq<Play>, t: string)
    requires x.timeInPeriod != t
    ensures Seqs.Filter(Insert(x, s), AtTime(t)) == Seqs.Filter(s, AtTime(t))
  {
    if |s| > 0 {
      if TimeLe(x, s[0]) {
        assert Insert(x, s) == [x] + s;
        assert ([x] + s)[0] == x && ([x] + s)[1..] == s;
      } else {
        var rest := Insert(x, s[1..]);
        assert Insert(x, s) == [s[0]] + rest;
        assert ([s[0]] + rest)[0] == s[0] && ([s[0]] + rest)[1..] == rest;
        InsertOtherTime(x, s[1..], t);
      }
    }
  }

  /**
   * Inserting a play puts it ahead of every play at its own time: it passes only plays it is
   * not at or before, so plays at other times.
   */
  lemma {:induction false} InsertSameTime(x: Play, s: seq<Play>)
    ensures Seqs.Filter(Insert(x, s), AtTime(x.timeInPeriod)) == [x] + Seqs.Filter(s, AtTime(x.timeInPeriod))
  {
    if |s| > 0 {
      if TimeLe(x, s[0]) {
        assert Insert(x, s) == [x] + s;
        assert ([x] + s)[0] == x && ([x] + s)[1..] == s;
      } else {
        StrLeReflexive(x.timeInPeriod);
        assert s[0].timeInPeriod != x.timeInPeriod;
        var rest := Insert(x, s[1..]);
        assert Insert(x, s) == [s[0]] + rest;
        assert ([s[0]] + rest)[0] == s[0] && ([s[0]] + rest)[1..] == rest;
        InsertSameTime(x, s[1..]);
      }
    }
  }

  /** The sort is stable: the plays at any one time come out in their input order. */
  lemma {:induction false} SortByTimeStable(s: seq<Play>, t: string)
    ensures Seqs.Filter(SortByTime(s), AtTime(t)) == Seqs.Filter(s, AtTime(t))
  {
    if |s| > 0 {
      SortByTimeStable(s[1..], t);
      if s[0].timeInPeriod == t {
        InsertSameTime(s[0], SortByTime(s[1..]));
      } else {
        InsertOtherTime(s[0], SortByTime(s[1..]), t);
      }
    }
  }

  // ---------------------------------------------------------------------------------------
  // Shared by the table formatters

  /** `game.periodDescriptor?.number ?? 0`, the period the game is in (0 before it starts). */
  function CurrentPeriod(game: Game): int
  {
    match game.periodDescriptor
    case Some(d) => d.number
    case None => 0
  }

  /** `game.plays || []`. */
  function PlaysList(game: Game): seq<Play>
  {
    game.plays.GetOr([])
  }

  /** A player as the tables print them: `#<number> <name>`. */
  function PlayerText(info: PlayerInfo): (r: string)
    ensures |r| > 0 && r[0] == '#'
  {
    "#" + info.number + " " + info.name
  }
}
