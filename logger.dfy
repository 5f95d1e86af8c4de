/**
 * The `Logger` class of src/server/utils/Logger.ts: a label, a level threshold read from the
 * app's settings, a named trace span, and the lines it writes to the console.
 */
module Logging {
  import opened Wrappers
  import opened Strings

  /** `enum LogLevel`, in its numeric order: Error is 0, Trace is 4. */
  datatype LogLevel = Error | Warn | Info | Debug | Trace

  function Rank(l: LogLevel): nat
  {
    match l
    case Error => 0
    case Warn => 1
    case Info => 2
    case Debug => 3
    case Trace => 4
  }

  /** `LogLevel[l]`: the member's name. */
  function LevelName(l: LogLevel): string
  {
    match l
    case Error => "Error"
    case Warn => "Warn"
    case Info => "Info"
    case Debug => "Debug"
    case Trace => "Trace"
  }

  /** `LogLevel[key]` for a member name; `None` for any other key. */
  function LevelNamed(key: string): (r: Option<LogLevel>)
    ensures r.Some? ==> LevelName(r.value) == key
    ensures r.None? ==> forall l :: LevelName(l) != key
  {
    if key == "Error" then Some(Error)
    else if key == "Warn" then Some(Warn)
    else if key == "Info" then Some(Info)
    else if key == "Debug" then Some(Debug)
    else if key == "Trace" then Some(Trace)
    else None
  }

  /**
   * `GetLogLevelSetting()` given the saved value of the `logLevel` select setting (`None` when
   * it was never saved): the level named by its first entry, and Info when there is none or it
   * names no level.
   */
  function LevelSetting(saved: Option<seq<string>>): LogLevel
  {
    var key := if saved.Some? && |saved.value| > 0 then saved.value[0] else "";
    if key == "" then Info else LevelNamed(key).GetOr(Info)
  }

  /** The setting's default is Info; a saved level name reads back as that level. */
  lemma LevelSettingCases(saved: Option<seq<string>>)
    ensures saved.None? || saved.value == [] ==> LevelSetting(saved) == Info
    ensures saved.Some? && saved.value != [] ==>
      (forall l :: LevelName(l) != saved.value[0]) ==> LevelSetting(saved) == Info
    ensures forall l :: LevelSetting(Some([LevelName(l)])) == l
  {
    forall l ensures LevelSetting(Some([LevelName(l)])) == l {
      var r := LevelNamed(LevelName(l));
      assert r.Some?;
      LevelNameInjective(r.value, l);
    }
  }

  lemma LevelNameInjective(a: LogLevel, b: LogLevel)
    requires LevelName(a) == LevelName(b)
    ensures a == b
  {
    assert LevelName(a)[0] == LevelName(b)[0];
  }

  /** `level <= logLevel`: messages at `level` are written under the threshold `threshold`. */
  predicate Enabled(level: LogLevel, threshold: LogLevel)
  {
    Rank(level) <= Rank(threshold)
  }

  /**
   * The enabled levels are downward closed: errors are always written, every threshold writes
   * its own level, and trace messages only under Trace.
   */
  lemma EnabledLevels(level: LogLevel, lower: LogLevel, threshold: LogLevel)
    ensures Enabled(Error, threshold) && Enabled(threshold, threshold)
    ensures Enabled(Trace, threshold) <==> threshold == Trace
    ensures Enabled(level, threshold) && Rank(lower) <= Rank(level) ==> Enabled(lower, threshold)
    ensures Enabled(level, threshold) && Enabled(threshold, level) ==> level == threshold
  {
  }

  // ---------------------------------------------------------------------------------------
  // formatMessage

  /**
   * A message argument, as `formatMessage` tells them apart: `undefined`, `null`, an `Error`
   * (its `String(e)`, its stack and its cause's stack or value), an array or object (its
   * `JSON.stringify`) and anything else (its `String(o)`).
   */
  datatype Arg =
    | Undefined
    | Null
    | Thrown(shown: string, stack: Option<string>, cause: Option<string>)
    | Object(json: string)
    | Plain(text: string)

  predicate Truthy(s: Option<string>)
  {
    s.Some? && s.value != ""
  }

  /** The stack part of `formatError`'s text, empty without a stack. */
  function StackText(stack: Option<string>): (r: string)
    ensures Truthy(stack) <==> r != ""
  {
    if Truthy(stack) then "--- Stack Trace:\n" + stack.value + "\n" else ""
  }

  /** The cause part of `formatError`'s text, empty without a cause. */
  function CauseText(cause: Option<string>): (r: string)
    ensures Truthy(cause) <==> r != ""
  {
    if Truthy(cause) then "--- Cause:\n" + cause.value + "\n" else ""
  }

  const Rule := "\n----------\n"

  /** What follows the error's text in a framed error: its stack, its cause and the closing rule. */
  function ErrorTail(stack: Option<string>, cause: Option<string>): string
  {
    "\n" + StackText(stack) + CauseText(cause) + "----------"
  }

  /** `formatError(e)`: the error alone, or framed by rules with its stack and cause when it has either. */
  function FormatError(shown: string, stack: Option<string>, cause: Option<string>): (r: string)
    ensures !Truthy(stack) && !Truthy(cause) ==> r == shown
  {
    if Truthy(stack) || Truthy(cause) then Rule + shown + ErrorTail(stack, cause) else shown
  }

  /** An error with a stack or a cause is written framed by rules, with the error's text inside. */
  lemma ErrorFramed(shown: string, stack: Option<string>, cause: Option<string>)
    requires Truthy(stack) || Truthy(cause)
    ensures var r := FormatError(shown, stack, cause); |Rule| <= |r| && r[..|Rule|] == Rule
    ensures Within(shown, FormatError(shown, stack, cause))
  {
    var tail := ErrorTail(stack, cause);
    SliceLeft(Rule + shown, tail, 0, |Rule|);
    SliceLeft(Rule, shown, 0, |Rule|);
    assert Rule[0..|Rule|] == Rule;
    InMiddle(Rule, shown, tail);
  }

  /** The stack and the cause of an error are written inside its text. */
  lemma ErrorShowsParts(shown: string, stack: Option<string>, cause: Option<string>)
    ensures Truthy(stack) ==> Within(stack.value, FormatError(shown, stack, cause))
    ensures Truthy(cause) ==> Within(cause.value, FormatError(shown, stack, cause))
  {
    var st := StackText(stack);
    var ca := CauseText(cause);
    var head := Rule + shown;
    if Truthy(stack) {
      InMiddle("--- Stack Trace:\n", stack.value, "\n");
      WithinExtend(stack.value, "\n", st, ca);
      WithinExtend(stack.value, [], "\n" + st, ca);
      WithinExtend(stack.value, [], "\n" + st + ca, "----------");
      WithinExtend(stack.value, head, ErrorTail(stack, cause), "");
    }
    if Truthy(cause) {
      InMiddle("--- Cause:\n", cause.value, "\n");
      WithinExtend(cause.value, "\n" + st, ca, "----------");
      WithinExtend(cause.value, head, ErrorTail(stack, cause), "");
    }
  }

  /** How one argument is written. */
  function ArgText(o: Arg): string
  {
    match o
    case Undefined => "<undefined>"
    case Null => "<null>"
    case Thrown(shown, stack, cause) => FormatError(shown, stack, cause)
    case Object(json) => json
    case Plain(text) => text
  }

  /** `msg.map(...)`. */
  function ArgTexts(args: seq<Arg>): (r: seq<string>)
    ensures |r| == |args| && forall i :: 0 <= i < |args| ==> r[i] == ArgText(args[i])
  {
    if args == [] then [] else [ArgText(args[0])] + ArgTexts(args[1..])
  }

  /** The bracketed label of a line, with the spaces around it. */
  function Bracketed(labelText: string): string
  {
    " [" + labelText + "] "
  }

  /** The capitalised level name of a line and the dash after it. */
  function LevelPart(level: LogLevel): string
  {
    Upper(LevelName(level)) + " - "
  }

  /**
   * `formatMessage(level, ...msg)` given the time stamp: the stamp, the label in brackets, the
   * upper-cased level name, and the arguments separated by spaces.
   */
  function FormatMessage(stamp: string, labelText: string, level: LogLevel, args: seq<Arg>): string
  {
    stamp + Bracketed(labelText) + LevelPart(level) + Join(ArgTexts(args), " ")
  }

  /**
   * A written line starts with its stamp, carries the bracketed label, names its level in
   * capitals and carries every argument's text: `undefined` and `null` as `<undefined>` and
   * `<null>`.
   */
  lemma MessageShows(stamp: string, labelText: string, level: LogLevel, args: seq<Arg>, i: nat)
    requires i < |args|
    ensures var m := FormatMessage(stamp, labelText, level, args); |stamp| <= |m| && m[..|stamp|] == stamp
    ensures OccursAt(Bracketed(labelText), FormatMessage(stamp, labelText, level, args), |stamp|)
    ensures Within(LevelPart(level), FormatMessage(stamp, labelText, level, args))
    ensures Within(ArgText(args[i]), FormatMessage(stamp, labelText, level, args))
    ensures args[i] == Undefined ==> Within("<undefined>", FormatMessage(stamp, labelText, level, args))
    ensures args[i] == Null ==> Within("<null>", FormatMessage(stamp, labelText, level, args))
  {
    var joined := Join(ArgTexts(args), " ");
    WithinJoin(ArgTexts(args), " ", i);
    Pieces(stamp, Bracketed(labelText), LevelPart(level), joined, ArgText(args[i]));
  }

  /** The capitalised names the lines carry. */
  lemma LevelTags()
    ensures Upper(LevelName(Error)) == "ERROR" && Upper(LevelName(Warn)) == "WARN"
    ensures Upper(LevelName(Info)) == "INFO" && Upper(LevelName(Debug)) == "DEBUG"
    ensures Upper(LevelName(Trace)) == "TRACE"
  {
    assert Upper("Error") == "ERROR";
    assert Upper("Warn") == "WARN";
    assert Upper("Info") == "INFO";
    assert Upper("Debug") == "DEBUG";
    assert Upper("Trace") == "TRACE";
  }

  // ---------------------------------------------------------------------------------------
  // getLogDateFormat

  /** The UTC parts of `new Date()`, the month counted from 0 as `getUTCMonth` does. */
  datatype DateTime = DateTime(year: nat, month: nat, day: nat, hours: nat, minutes: nat, seconds: nat)

  /** `pad(n)`: `n.toString().padStart(2, '0')`. */
  function Pad(n: nat): string
  {
    PadStart2(NatToString(n))
  }

  /** A part below 100 is padded to exactly two digits that read back as the part. */
  lemma PadTwoDigits(n: nat)
    requires n < 100
    ensures |Pad(n)| == 2 && AllDigits(Pad(n)) && NumberOf(Pad(n)) == Some(n)
    ensures n < 10 ==> Pad(n)[0] == '0'
  {
    PadStart2Digits(n);
  }

  /** `getLogDateFormat()`: `YYYY-MM-DD HH:MM:SS` in UTC. */
  function Stamp(d: DateTime): string
  {
    NatToString(d.year) + "-" + Pad(d.month + 1) + "-" + Pad(d.day) + " " +
      Pad(d.hours) + ":" + Pad(d.minutes) + ":" + Pad(d.seconds)
  }

  predicate ValidDate(d: DateTime)
  {
    1000 <= d.year <= 9999 && d.month < 12 && 1 <= d.day <= 31 && d.hours < 24 && d.minutes < 60 && d.seconds < 60
  }

  lemma FourDigits(n: nat)
    requires 1000 <= n <= 9999
    ensures |NatToString(n)| == 4
  {
    assert |NatToString(n / 1000)| == 1;
    assert |NatToString(n / 100)| == 2;
    assert |NatToString(n / 10)| == 3;
  }

  /** Where the pieces of `a-b`, `a:b` and `a b` sit for two-character pieces. */
  lemma Pair(x: string, sep: char, y: string)
    requires |x| == 2 && |y| == 2
    ensures var s := x + [sep] + y; |s| == 5 && s[..2] == x && s[2] == sep && s[3..] == y
  {
  }

  /** Where the fields of `YYYY-MM-DD HH:MM:SS` sit, for any four-character year and two-character fields. */
  lemma Layout(y: string, mo: string, d: string, h: string, mi: string, se: string)
    requires |y| == 4 && |mo| == 2 && |d| == 2 && |h| == 2 && |mi| == 2 && |se| == 2
    ensures var s := y + "-" + mo + "-" + d + " " + h + ":" + mi + ":" + se;
      |s| == 19 && s[4] == '-' && s[7] == '-' && s[10] == ' ' && s[13] == ':' && s[16] == ':' &&
      s[..4] == y && s[5..7] == mo && s[8..10] == d && s[11..13] == h && s[14..16] == mi && s[17..19] == se
  {
    var date := mo + "-" + d;
    var clock := h + ":" + mi;
    var left := y + "-" + date;
    var right := clock + ":" + se;
    var s := y + "-" + mo + "-" + d + " " + h + ":" + mi + ":" + se;
    assert s == left + " " + right;
    Pair(mo, '-', d);
    Pair(h, ':', mi);
    assert |left| == 10 && |right| == 8;
    SliceLeft(left + " ", right, 0, 4);
    SliceLeft(left, " ", 0, 4);
    SliceLeft(y + "-", date, 0, 4);
    SliceRight(y + "-", date, 5, 7);
    SliceRight(y + "-", date, 8, 10);
    SliceLeft(left + " ", right, 5, 7);
    SliceLeft(left, " ", 5, 7);
    SliceLeft(left + " ", right, 8, 10);
    SliceLeft(left, " ", 8, 10);
    SliceLeft(clock + ":", se, 0, 2);
    SliceLeft(clock, ":", 0, 2);
    SliceLeft(clock + ":", se, 3, 5);
    SliceLeft(clock, ":", 3, 5);
    SliceRight(clock + ":", se, 6, 8);
    SliceRight(left + " ", right, 11, 13);
    SliceRight(left + " ", right, 14, 16);
    SliceRight(left + " ", right, 17, 19);
  }

  /**
   * The stamp of a date of a four-digit year is 19 characters with its separators in fixed
   * places, and each field reads back as the year, the month (counted from 1), the day, the
   * hour, the minute and the second.
   */
  lemma StampShape(dt: DateTime)
    requires ValidDate(dt)
    ensures var s := Stamp(dt);
      |s| == 19 && s[4] == '-' && s[7] == '-' && s[10] == ' ' && s[13] == ':' && s[16] == ':'
    ensures var s := Stamp(dt);
      |s| == 19 && NumberOf(s[..4]) == Some(dt.year) && NumberOf(s[5..7]) == Some(dt.month + 1) &&
      NumberOf(s[8..10]) == Some(dt.day) && NumberOf(s[11..13]) == Some(dt.hours) &&
      NumberOf(s[14..16]) == Some(dt.minutes) && NumberOf(s[17..19]) == Some(dt.seconds)
  {
    FourDigits(dt.year);
    NumberOfNatToString(dt.year);
    PadTwoDigits(dt.month + 1);
    PadTwoDigits(dt.day);
    PadTwoDigits(dt.hours);
    PadTwoDigits(dt.minutes);
    PadTwoDigits(dt.seconds);
    Layout(NatToString(dt.year), Pad(dt.month + 1), Pad(dt.day), Pad(dt.hours), Pad(dt.minutes), Pad(dt.seconds));
  }

  // ---------------------------------------------------------------------------------------
  // The Logger class

  /** `!this.#traceName`: a trace span is open only under a non-empty name. */
  predicate TraceOpen(name: Option<string>)
  {
    name.Some? && name.value != ""
  }

  const TraceEndError := "traceEnd was called before traceStart"

  /** The traced lines that open and close a span. */
  function StartLine(name: string): seq<Arg>
  {
    [Plain("===== Start - " + name + " =====")]
  }

  function EndLine(name: string): seq<Arg>
  {
    [Plain("===== End - " + name + " =====")]
  }

  class Logger {
    var labelText: string
    var logLevel: LogLevel
    var traceName: Option<string>
    /** The lines this logger has written to the console, oldest first. */
    var console: seq<string>

    /** `new Logger(label, logLevel)`: Warn when no level is given, no trace span open. */
    constructor (labelText: string, logLevel: Option<LogLevel>)
      ensures this.labelText == labelText && this.logLevel == logLevel.GetOr(Warn)
      ensures traceName.None? && console == []
    {
      this.labelText := labelText;
      this.logLevel := logLevel.GetOr(Warn);
      traceName := None;
      console := [];
    }

    /** `Logger.Create(label)`: a logger at the level the settings give. */
    constructor Create(labelText: string, saved: Option<seq<string>>)
      ensures this.labelText == labelText && logLevel == LevelSetting(saved)
      ensures traceName.None? && console == []
    {
      this.labelText := labelText;
      logLevel := LevelSetting(saved);
      traceName := None;
      console := [];
    }

    /** `isLogEnabled(level)`. */
    predicate IsLogEnabled(level: LogLevel)
      reads this
    {
      Enabled(level, logLevel)
    }

    /** The `label` setter: nothing but the label changes. */
    method SetLabel(val: string)
      modifies this
      ensures labelText == val
      ensures logLevel == old(logLevel) && traceName == old(traceName) && console == old(console)
    {
      labelText := val;
    }

    /** The `logLevel` setter: nothing but the threshold changes. */
    method SetLogLevel(val: LogLevel)
      modifies this
      ensures logLevel == val
      ensures labelText == old(labelText) && traceName == old(traceName) && console == old(console)
    {
      logLevel := val;
    }

    /**
     * `trace`, `debug`, `info`, `warn` and `error`: the formatted line is written exactly when
     * its level is enabled, and nothing else changes.
     */
    method Log(level: LogLevel, now: DateTime, msg: seq<Arg>)
      modifies this
      ensures console == old(console) + (if Enabled(level, logLevel) then [FormatMessage(Stamp(now), labelText, level, msg)] else [])
      ensures labelText == old(labelText) && logLevel == old(logLevel) && traceName == old(traceName)
    {
      if IsLogEnabled(level) {
        console := console + [FormatMessage(Stamp(now), labelText, level, msg)];
      }
    }

    /** `traceStart(name)`: the span is named `name` and its start is traced. */
    method TraceStart(name: string, now: DateTime)
      modifies this
      ensures traceName == Some(name) && labelText == old(labelText) && logLevel == old(logLevel)
      ensures console == old(console) + (if Enabled(Trace, logLevel) then [FormatMessage(Stamp(now), labelText, Trace, StartLine(name))] else [])
    {
      traceName := Some(name);
      Log(Trace, now, StartLine(name));
    }

    /**
     * `traceEnd()`: without an open span it throws and changes nothing; otherwise the end of
     * the span is traced under its name and the span is closed.
     */
    method TraceEnd(now: DateTime) returns (r: Result<()>)
      modifies this
      ensures labelText == old(labelText) && logLevel == old(logLevel)
      ensures !TraceOpen(old(traceName)) ==>
        r == Failure(TraceEndError) && traceName == old(traceName) && console == old(console)
      ensures TraceOpen(old(traceName)) ==>
        r.Success? && traceName.None? &&
        console == old(console) +
          (if Enabled(Trace, logLevel) then [FormatMessage(Stamp(now), labelText, Trace, EndLine(old(traceName).value))] else [])
    {
      if !TraceOpen(traceName) {
        return Failure(TraceEndError);
      }
      Log(Trace, now, EndLine(traceName.value));
      traceName := None;
      return Success(());
    }
  }
}
