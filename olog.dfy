/**
 * The logging session: level labels, the composition of one log line and the
 * process-wide session state (open file, flags, exit code) with its four
 * operations. The file system is a map from path to the lines written to it,
 * the console is the sequence of lines written to standard output, and a
 * process exit is recorded as the `terminated` outcome.
 */
module OLog {
  import opened Wrappers
  import opened Decimal
  import opened OLogHeader

  /** The line written whenever a log file is opened. */
  const SessionHeader: string := "====NEW SESSION STARTED===="

  /** The separator between the label and the message. */
  const Separator: string := " - "

  /** The outcome of an operation; the three errors stand for the exceptions
      std::logic_error, std::ios_base::failure and std::runtime_error. */
  datatype Status = Ok | AlreadyOpen | IOFailure | NotOpen

  // ---------------------------------------------------------------------
  // Level labels

  /** The display text of each severity; the five labels begin with five different letters. */
  function LevelLabel(level: LogLevel): (text: string)
    ensures |text| > 0 && LevelOfInitial(text[0]) == Some(level)
  {
    match level
    case DEBUG => "DEBUG"
    case INFO => "INFO"
    case WARNING => "WARNING"
    case ERROR => "ERROR"
    case CRITICAL => "CRITICAL ERROR"
  }

  /** The severity whose label is s, if any. */
  function LevelOfLabel(s: string): Option<LogLevel> {
    if s == "DEBUG" then Some(DEBUG)
    else if s == "INFO" then Some(INFO)
    else if s == "WARNING" then Some(WARNING)
    else if s == "ERROR" then Some(ERROR)
    else if s == "CRITICAL ERROR" then Some(CRITICAL)
    else None
  }

  /** Every label names its level and no other: the mapping is injective. */
  lemma LabelRoundTrip(level: LogLevel)
    ensures LevelOfLabel(LevelLabel(level)) == Some(level)
  {
  }

  /** Only the five labels name a level. */
  lemma LabelOnlyForLevels(s: string)
    requires LevelOfLabel(s).Some?
    ensures LevelLabel(LevelOfLabel(s).value) == s
  {
  }

  // ---------------------------------------------------------------------
  // Line composition

  /** The line `log` writes (without its end of line): an optional
      `[time] ` prefix unless time is -1, the label, " - ", the message.
      The message ends the line, and the line opens with a bracket exactly
      when it carries a timestamp. */
  function FormatLine(level: LogLevel, message: string, time: Int32): (line: string)
    ensures |message| < |line| && line[|line| - |message|..] == message
    ensures line[0] == '[' <==> time != NoTime
  {
    var body := LevelLabel(level) + Separator + message;
    if time == NoTime then body else "[" + IntToDecimal(time as int) + "] " + body
  }

  /** A timestamp changes nothing but the `[time] ` prefix in front of the line. */
  lemma StampPrefix(level: LogLevel, message: string, time: Int32)
    requires time != NoTime
    ensures FormatLine(level, message, time)
      == "[" + IntToDecimal(time as int) + "] " + FormatLine(level, message, NoTime)
  {
  }

  /** What a written log line carries. */
  datatype Entry = Entry(level: LogLevel, message: string, time: Int32)

  /** The index of the first occurrence of c in s. */
  function FindChar(s: string, c: char): (r: Option<nat>)
    ensures r.Some? ==> r.value < |s| && s[r.value] == c && c !in s[..r.value]
    ensures r.None? ==> c !in s
  {
    if s == [] then None
    else if s[0] == c then Some(0)
    else match FindChar(s[1..], c)
      case None => None
      case Some(k) => Some(k + 1)
  }

  predicate StartsWith(s: string, prefix: string) {
    |prefix| <= |s| && s[..|prefix|] == prefix
  }

  /** The five labels begin with five different letters; this finds the level a letter can begin. */
  function LevelOfInitial(c: char): Option<LogLevel> {
    if c == 'D' then Some(DEBUG)
    else if c == 'I' then Some(INFO)
    else if c == 'W' then Some(WARNING)
    else if c == 'E' then Some(ERROR)
    else if c == 'C' then Some(CRITICAL)
    else None
  }

  /** The level whose label and separator begin s. */
  function LeadingLevel(s: string): Option<LogLevel> {
    if |s| == 0 then None
    else match LevelOfInitial(s[0])
      case None => None
      case Some(level) => if StartsWith(s, LevelLabel(level) + Separator) then Some(level) else None
  }

  /** Reads `<LABEL> - <message>`. */
  function ParseBody(s: string, time: Int32): Option<Entry> {
    match LeadingLevel(s)
    case None => None
    case Some(level) => Some(Entry(level, s[|LevelLabel(level) + Separator|..], time))
  }

  /** Reads `<time>] <LABEL> - <message>`, what follows the opening bracket. */
  function ParseStamped(s: string): Option<Entry> {
    match FindChar(s, ']')
    case None => None
    case Some(k) =>
      if k + 1 < |s| && s[k + 1] == ' ' then
        match ParseDecimal(s[..k])
        case None => None
        case Some(t) =>
          if -0x8000_0000 <= t < 0x8000_0000 && t != -1 then ParseBody(s[k + 2..], t as Int32) else None
      else None
  }

  /** Reads a line back into the entry that FormatLine wrote it from. */
  function ParseLine(line: string): Option<Entry> {
    if |line| > 0 && line[0] == '[' then ParseStamped(line[1..]) else ParseBody(line, NoTime)
  }

  lemma LeadingLevelOfBody(level: LogLevel, message: string)
    ensures LeadingLevel(LevelLabel(level) + Separator + message) == Some(level)
  {
  }

  lemma FindCharAfter(a: string, c: char, b: string)
    requires c !in a
    ensures FindChar(a + [c] + b, c) == Some(|a|)
  {
    assert (a + [c] + b)[|a|] == c;
    assert (a + [c] + b)[..|a|] == a;
  }

  lemma ParseBodyOf(level: LogLevel, message: string, time: Int32)
    ensures ParseBody(LevelLabel(level) + Separator + message, time) == Some(Entry(level, message, time))
  {
  }

  lemma ParseStampedOf(time: Int32, body: string)
    requires time != NoTime
    ensures ParseStamped(IntToDecimal(time as int) + "] " + body) == ParseBody(body, time)
  {
    var d := IntToDecimal(time as int);
    var s := d + "] " + body;
    DecimalRoundTrip(time as int);
    assert s == d + [']'] + (" " + body);
    FindCharAfter(d, ']', " " + body);
    assert s[..|d|] == d && s[|d| + 2..] == body;
  }

  lemma ParseBracketed(rest: string)
    ensures ParseLine("[" + rest) == ParseStamped(rest)
  {
  }

  lemma ParseUnstampedLine(level: LogLevel, message: string)
    ensures ParseLine(FormatLine(level, message, NoTime)) == Some(Entry(level, message, NoTime))
  {
  }

  lemma ParseStampedLine(level: LogLevel, message: string, time: Int32)
    requires time != NoTime
    ensures ParseLine(FormatLine(level, message, time)) == Some(Entry(level, message, time))
  {
    var body := LevelLabel(level) + Separator + message;
    var rest := IntToDecimal(time as int) + "] " + body;
    ParseBodyOf(level, message, time);
    ParseStampedOf(time, body);
    ParseBracketed(rest);
    assert FormatLine(level, message, time) == "[" + rest;
  }

  /** Every line FormatLine writes is read back into its level, message and time:
      no two different log calls write the same line. */
  lemma ParseFormatLine(level: LogLevel, message: string, time: Int32)
    ensures ParseLine(FormatLine(level, message, time)) == Some(Entry(level, message, time))
  {
    if time == NoTime {
      ParseUnstampedLine(level, message);
    } else {
      ParseStampedLine(level, message, time);
    }
  }

  lemma ParseBodyFormat(s: string, time: Int32)
    requires ParseBody(s, time).Some?
    ensures var e := ParseBody(s, time).value;
      e.time == time && LevelLabel(e.level) + Separator + e.message == s
  {
  }

  lemma SplitAtBracket(s: string, k: nat)
    requires k + 1 < |s| && s[k] == ']' && s[k + 1] == ' '
    ensures s == s[..k] + "] " + s[k + 2..]
  {
  }

  lemma FormatParseStamped(s: string)
    requires ParseStamped(s).Some?
    ensures var e := ParseStamped(s).value; FormatLine(e.level, e.message, e.time) == "[" + s
  {
    var k := FindChar(s, ']').value;
    var d := s[..k];
    var rest := s[k + 2..];
    var t := ParseDecimal(d).value;
    var e := ParseStamped(s).value;
    assert e == ParseBody(rest, t as Int32).value;
    ParseBodyFormat(rest, t as Int32);
    DecimalCanonical(d);
    SplitAtBracket(s, k);
    assert FormatLine(e.level, e.message, e.time) == "[" + d + "] " + rest;
  }

  /** Whatever ParseLine accepts is exactly the line FormatLine writes for that entry. */
  lemma FormatParseLine(line: string)
    requires ParseLine(line).Some?
    ensures var e := ParseLine(line).value; FormatLine(e.level, e.message, e.time) == line
  {
    if |line| > 0 && line[0] == '[' {
      FormatParseStamped(line[1..]);
      assert line == "[" + line[1..];
    } else {
      ParseBodyFormat(line, NoTime);
    }
  }

  /** The session header can never be mistaken for a log line. */
  lemma HeaderIsNoEntry()
    ensures ParseLine(SessionHeader) == None
  {
  }

  // ---------------------------------------------------------------------
  // The session

  /** The lines a path holds; a path that does not exist holds none. */
  function FileLines(files: map<string, seq<string>>, path: string): seq<string> {
    if path in files then files[path] else []
  }

  /** The file system after appending lines to path (creating it if absent). */
  function Append(files: map<string, seq<string>>, path: string, lines: seq<string>): (r: map<string, seq<string>>)
    ensures path in r && r[path] == FileLines(files, path) + lines
    ensures forall p :: p in files && p != path ==> p in r && r[p] == files[p]
    ensures r.Keys == files.Keys + {path}
  {
    files[path := FileLines(files, path) + lines]
  }

  /** Files only grow: every existing path keeps its earlier lines as a prefix. */
  ghost predicate Extends(before: map<string, seq<string>>, after: map<string, seq<string>>) {
    forall p :: p in before ==> p in after && before[p] <= after[p]
  }

  lemma AppendExtends(files: map<string, seq<string>>, path: string, lines: seq<string>)
    ensures Extends(files, Append(files, path, lines))
  {
  }

  /** The process-wide logging state: the static `log_file`, `flags` and
      `exit_code`, with the file system and console they write to. */
  class Session {
    var isOpen: bool
    var currentPath: string
    var flags: Flags
    var exitCode: Int32
    var files: map<string, seq<string>>
    var console: seq<string>
    /** Some(code) once `exit(code)` has been called; nothing runs after it. */
    var terminated: Option<Int32>

    ghost predicate Valid()
      reads this
    {
      (isOpen ==> currentPath in files) && (terminated.Some? ==> !isOpen)
    }

    /** The state at program start: no file open, flags zero, exit code 50. */
    constructor (initialFiles: map<string, seq<string>>)
      ensures Valid()
      ensures !isOpen && flags == DefaultFlags && exitCode == 50
      ensures files == initialFiles && console == [] && terminated == None
    {
      isOpen := false;
      currentPath := "";
      flags := DefaultFlags;
      exitCode := 50;
      files := initialFiles;
      console := [];
      terminated := None;
    }

    /** `setOLogExitCode`: replaces the exit code and nothing else. */
    method SetExitCode(code: Int32)
      requires Valid() && terminated.None?
      modifies this
      ensures Valid()
      ensures exitCode == code
      ensures isOpen == old(isOpen) && currentPath == old(currentPath) && flags == old(flags)
      ensures files == old(files) && console == old(console) && terminated == old(terminated)
    {
      exitCode := code;
    }

    /** `openLogFile`: canOpen says whether the file system lets path be opened for appending. */
    method OpenLogFile(path: string, canOpen: bool, newFlags: Flags := DefaultFlags) returns (r: Status)
      requires Valid() && terminated.None?
      modifies this
      ensures Valid() && terminated == None
      ensures r == Ok <==> !old(isOpen) && canOpen
      ensures old(isOpen) ==> r == AlreadyOpen
      ensures !old(isOpen) && !canOpen ==> r == IOFailure
      ensures r != Ok ==> (isOpen == old(isOpen) && currentPath == old(currentPath)
                           && flags == old(flags) && files == old(files))
      ensures r == Ok ==> (isOpen && currentPath == path && flags == newFlags
                           && files == Append(old(files), path, [SessionHeader]))
      ensures exitCode == old(exitCode) && console == old(console)
    {
      if !isOpen {
        if !canOpen {
          return IOFailure;
        }
        isOpen := true;
        currentPath := path;
        files := Append(files, path, [SessionHeader]);
        flags := newFlags;
        r := Ok;
      } else {
        r := AlreadyOpen;
      }
    }

    /** `closeLogFile`: always leaves the session closed; closing a closed session changes nothing. */
    method CloseLogFile()
      requires Valid() && terminated.None?
      modifies this
      ensures Valid() && !isOpen
      ensures currentPath == old(currentPath) && flags == old(flags) && exitCode == old(exitCode)
      ensures files == old(files) && console == old(console) && terminated == old(terminated)
    {
      isOpen := false;
    }

    /** `log`: writes one line to the open file, mirrors it to the console when
        bit 0 is set, and when bit 1 is set closes the file and exits with the
        current exit code, whatever the level. */
    method Log(level: LogLevel, message: string, time: Int32 := NoTime) returns (r: Status)
      requires Valid() && terminated.None?
      modifies this
      ensures Valid()
      ensures r == Ok <==> old(isOpen)
      ensures !old(isOpen) ==> (r == NotOpen && !isOpen && files == old(files)
                                && console == old(console) && terminated == None)
      ensures old(isOpen) ==>
        currentPath in files
        && files == old(files)[currentPath := old(files[currentPath]) + [FormatLine(level, message, time)]]
        && console == old(console) + (if MirrorsToStdout(old(flags)) then [FormatLine(level, message, time)] else [])
        && (QuitsAfterLog(old(flags)) ==> !isOpen && terminated == Some(old(exitCode)))
        && (!QuitsAfterLog(old(flags)) ==> isOpen && terminated == None)
      ensures currentPath == old(currentPath) && flags == old(flags) && exitCode == old(exitCode)
    {
      if !isOpen {
        return NotOpen;
      }
      var line := FormatLine(level, message, time);
      files := files[currentPath := files[currentPath] + [line]];
      if MirrorsToStdout(flags) {
        console := console + [line];
      }
      r := Ok;
      if QuitsAfterLog(flags) {
        CloseLogFile();
        terminated := Some(exitCode);
      }
    }
  }
}
