/**
 * The daemon's logger (src/log/logger.rs): the configured level parsed from text, the
 * level filter, and the shape of each written line.
 */
module Logger {
  import opened Wrappers
  import opened Strings

  /** `log::Level`, most severe first. */
  datatype Level = Error | Warn | Info | Debug | Trace

  /** `log::Level as usize`: Error is 1 and Trace is 5, so smaller means more severe. */
  function Rank(l: Level): nat {
    match l
    case Error => 1
    case Warn => 2
    case Info => 3
    case Debug => 4
    case Trace => 5
  }

  /** The spellings `Logger::new` accepts, after ASCII lower-casing. */
  predicate KnownSpelling(lower: string) {
    lower == "" || lower == "error" || lower == "warn" || lower == "warning"
    || lower == "info" || lower == "debug" || lower == "trace"
  }

  /** `Logger::new`'s level parsing: case-insensitive, empty means Warn, the error quotes the input. */
  function ParseLevel(level: string): (r: Result<Level, string>)
    ensures r.Success? <==> KnownSpelling(ToAsciiLowercase(level))
    ensures r.Failure? ==> r.error == "invalid log level: " + level
  {
    var lower := ToAsciiLowercase(level);
    if lower == "" then Success(Warn)
    else if lower == "error" then Success(Error)
    else if lower == "warn" || lower == "warning" then Success(Warn)
    else if lower == "info" then Success(Info)
    else if lower == "debug" then Success(Debug)
    else if lower == "trace" then Success(Trace)
    else Failure("invalid log level: " + level)
  }

  /** `level_to_string`. */
  function LevelToString(l: Level): string {
    match l
    case Error => "error"
    case Warn => "warn"
    case Info => "info"
    case Debug => "debug"
    case Trace => "trace"
  }

  /** `Log::enabled`: a record passes when it is at least as severe as the configured level. */
  predicate Enabled(record: Level, configured: Level) {
    Rank(record) <= Rank(configured)
  }

  /** `Log::log`: "[<time>] [<level>] <message without trailing whitespace>\n". */
  function FormatLine(time: string, level: Level, message: string): string {
    "[" + time + "] [" + LevelToString(level) + "] " + TrimEnd(message) + "\n"
  }

  predicate NoUpper(s: string) {
    forall i :: 0 <= i < |s| ==> !('A' <= s[i] <= 'Z')
  }

  lemma LowercaseFixes(s: string)
    requires NoUpper(s)
    ensures ToAsciiLowercase(s) == s
  {
  }

  lemma {:induction false} LowercaseIdempotent(s: string)
    ensures ToAsciiLowercase(ToAsciiLowercase(s)) == ToAsciiLowercase(s)
  {
    var l := ToAsciiLowercase(s);
    assert NoUpper(l) by {
      forall i | 0 <= i < |l| ensures !('A' <= l[i] <= 'Z') {
        assert l[i] == AsciiLower(s[i]);
      }
    }
    LowercaseFixes(l);
  }

  /** Every level's own name parses back to that level. */
  lemma LevelRoundTrip(l: Level)
    ensures ParseLevel(LevelToString(l)) == Success(l)
  {
    var name := LevelToString(l);
    LowercaseFixes(name);
    match l {
      case Error => assert name[0] == 'e';
      case Warn => assert |name| == 4 && name[0] == 'w';
      case Info => assert |name| == 4 && name[0] == 'i';
      case Debug => assert name[0] == 'd';
      case Trace => assert name[0] == 't';
    }
  }

  /** Parsing ignores ASCII case: a string and its lower-cased form parse alike. */
  lemma ParseCaseInsensitive(s: string)
    ensures ParseLevel(s).Success? <==> ParseLevel(ToAsciiLowercase(s)).Success?
    ensures ParseLevel(s).Success? ==> ParseLevel(s) == ParseLevel(ToAsciiLowercase(s))
  {
    LowercaseIdempotent(s);
  }

  /**
   * Any spelling that lower-cases to a level's name parses to that level, whatever its
   * case, and so does any spelling of "warning".
   */
  lemma AnyCaseParses(s: string, l: Level)
    requires ToAsciiLowercase(s) == LevelToString(l) || (l == Warn && ToAsciiLowercase(s) == "warning")
    ensures ParseLevel(s) == Success(l)
  {
    var lower := ToAsciiLowercase(s);
    match l {
      case Error => assert lower[0] == 'e';
      case Warn => assert lower[0] == 'w';
      case Info => assert |lower| == 4 && lower[0] == 'i';
      case Debug => assert lower[0] == 'd';
      case Trace => assert lower[0] == 't';
    }
  }

  /** The filter is monotone: anything more severe than an enabled record is enabled too. */
  lemma EnabledMonotone(record: Level, moreSevere: Level, configured: Level, wider: Level)
    requires Enabled(record, configured)
    requires Rank(moreSevere) <= Rank(record) && Rank(configured) <= Rank(wider)
    ensures Enabled(moreSevere, configured) && Enabled(record, wider)
  {
  }

  /** Error records always pass; Trace records pass only at the Trace level. */
  lemma EnabledExtremes(configured: Level)
    ensures Enabled(Error, configured)
    ensures Enabled(Trace, configured) <==> configured == Trace
  {
  }

  /** A written line carries the time and the level in brackets and ends in one newline after trimmed text. */
  lemma FormatLineShape(time: string, level: Level, message: string)
    ensures var line := FormatLine(time, level, message);
      && StartsWith(line, "[" + time + "] [" + LevelToString(level) + "] ")
      && EndsWith(line, "\n")
      && (TrimEnd(message) != [] ==> !IsWhitespace(line[|line| - 2]))
  {
    var head := "[" + time + "] [" + LevelToString(level) + "] ";
    var line := FormatLine(time, level, message);
    TrimEndFacts(message);
    assert line == head + (TrimEnd(message) + "\n");
    assert line[..|head|] == head;
    if TrimEnd(message) != [] {
      assert line[|line| - 2] == TrimEnd(message)[|TrimEnd(message)| - 1];
    }
  }
}
