/**
 * Call sequences of the library's own test suite, replayed against the
 * session's contracts. Each method starts from a fresh session and returns
 * what the corresponding test inspects; the path, messages and times are
 * parameters, so each scenario holds for every choice of them. The lemmas at
 * the end pin down the exact text the tests look for.
 */
module OLogScenarios {
  import opened Wrappers
  import opened OLogHeader
  import opened OLog

  /** One message at each level, without a timestamp, lands in the file in call order after the header. */
  method BasicLogging(path: string, message: string) returns (lines: seq<string>)
    ensures lines == [SessionHeader, FormatLine(DEBUG, message, NoTime), FormatLine(INFO, message, NoTime),
                      FormatLine(WARNING, message, NoTime), FormatLine(ERROR, message, NoTime),
                      FormatLine(CRITICAL, message, NoTime)]
  {
    var s := new Session(map[]);
    DefaultFlagsDisableBoth();
    var r := s.OpenLogFile(path, true);
    r := s.Log(DEBUG, message);
    r := s.Log(INFO, message);
    r := s.Log(WARNING, message);
    r := s.Log(ERROR, message);
    r := s.Log(CRITICAL, message);
    s.CloseLogFile();
    lines := s.files[path];
  }

  /** Timestamped messages, one per level, land in the file in call order with their times. */
  method LoggingWithTime(path: string, message: string, t1: Int32, t2: Int32, t3: Int32, t4: Int32, t5: Int32)
    returns (lines: seq<string>)
    ensures lines == [SessionHeader, FormatLine(DEBUG, message, t1), FormatLine(INFO, message, t2),
                      FormatLine(WARNING, message, t3), FormatLine(ERROR, message, t4),
                      FormatLine(CRITICAL, message, t5)]
  {
    var s := new Session(map[]);
    DefaultFlagsDisableBoth();
    var r := s.OpenLogFile(path, true);
    r := s.Log(DEBUG, message, t1);
    r := s.Log(INFO, message, t2);
    r := s.Log(WARNING, message, t3);
    r := s.Log(ERROR, message, t4);
    r := s.Log(CRITICAL, message, t5);
    s.CloseLogFile();
    lines := s.files[path];
  }

  /** Reopening appends a second header; the first session's lines stay in front. */
  method RepeatedLogging(path: string, first: string, second: string) returns (lines: seq<string>)
    ensures lines == [SessionHeader, FormatLine(DEBUG, first, NoTime), SessionHeader, FormatLine(DEBUG, second, NoTime)]
  {
    var s := new Session(map[]);
    DefaultFlagsDisableBoth();
    var r := s.OpenLogFile(path, true);
    r := s.Log(DEBUG, first);
    s.CloseLogFile();
    r := s.OpenLogFile(path, true);
    r := s.Log(DEBUG, second);
    s.CloseLogFile();
    lines := s.files[path];
  }

  /** With LogToStdout the console receives the very line the file receives. */
  method LogToStdoutMirrors(path: string, message: string) returns (fileLines: seq<string>, consoleLines: seq<string>)
    ensures consoleLines == [FormatLine(INFO, message, NoTime)]
    ensures fileLines == [SessionHeader] + consoleLines
  {
    var s := new Session(map[]);
    SingleFlags();
    var r := s.OpenLogFile(path, true, LogToStdout);
    r := s.Log(INFO, message);
    s.CloseLogFile();
    fileLines, consoleLines := s.files[path], s.console;
  }

  /** Without LogToStdout nothing reaches the console. */
  method NoMirrorByDefault(path: string, message: string) returns (consoleLines: seq<string>)
    ensures consoleLines == []
  {
    var s := new Session(map[]);
    DefaultFlagsDisableBoth();
    var r := s.OpenLogFile(path, true);
    r := s.Log(INFO, message);
    consoleLines := s.console;
  }

  /** A second open without closing fails and leaves the file with its single header. */
  method OpenTwice(path: string) returns (second: Status, lines: seq<string>)
    ensures second == AlreadyOpen
    ensures lines == [SessionHeader]
  {
    var s := new Session(map[]);
    DefaultFlagsDisableBoth();
    var r := s.OpenLogFile(path, true);
    second := s.OpenLogFile(path, true);
    s.CloseLogFile();
    lines := s.files[path];
  }

  /** Logging with no open file fails and writes nowhere. */
  method LogWithoutOpen(message: string) returns (r: Status, files: map<string, seq<string>>, console: seq<string>)
    ensures r == NotOpen && files == map[] && console == []
  {
    var s := new Session(map[]);
    r := s.Log(INFO, message);
    files, console := s.files, s.console;
  }

  /** A file that cannot be opened yields IOFailure, after which logging still fails. */
  method OpenFailure(path: string, message: string) returns (openResult: Status, logResult: Status)
    ensures openResult == IOFailure && logResult == NotOpen
  {
    var s := new Session(map[]);
    openResult := s.OpenLogFile(path, false);
    logResult := s.Log(ERROR, message);
  }

  /** A critical message under QuitOnCritical is written, then the process exits with the default code 50. */
  method ExitOnCritical(path: string, message: string) returns (outcome: Option<Int32>, lines: seq<string>)
    ensures outcome == Some(50)
    ensures lines == [SessionHeader, FormatLine(CRITICAL, message, NoTime)]
  {
    var s := new Session(map[]);
    SingleFlags();
    var r := s.OpenLogFile(path, true, QuitOnCritical);
    r := s.Log(CRITICAL, message);
    outcome, lines := s.terminated, s.files[path];
  }

  /** The exit code set last is the one the process exits with. */
  method ExitWithConfiguredCode(path: string, message: string, code: Int32) returns (outcome: Option<Int32>)
    ensures outcome == Some(code)
  {
    var s := new Session(map[]);
    SingleFlags();
    var r := s.OpenLogFile(path, true, QuitOnCritical);
    s.SetExitCode(code);
    r := s.Log(CRITICAL, message);
    outcome := s.terminated;
  }

  /** As the code is written, QuitOnCritical also ends the process after a
      message of any other level, although the header documents termination
      for CRITICAL messages only. */
  method ExitOnAnyLevel(path: string, level: LogLevel, message: string) returns (outcome: Option<Int32>, stillOpen: bool)
    ensures outcome == Some(50) && !stillOpen
  {
    var s := new Session(map[]);
    SingleFlags();
    var r := s.OpenLogFile(path, true, QuitOnCritical);
    r := s.Log(level, message);
    outcome, stillOpen := s.terminated, s.isOpen;
  }

  /** Without QuitOnCritical even a critical message leaves the session open and the process running. */
  method NoExitWithoutFlag(path: string, message: string) returns (outcome: Option<Int32>, stillOpen: bool)
    ensures outcome == None && stillOpen
  {
    var s := new Session(map[]);
    SingleFlags();
    var r := s.OpenLogFile(path, true, LogToStdout);
    r := s.Log(CRITICAL, message);
    outcome, stillOpen := s.terminated, s.isOpen;
  }

  /** Opening in append mode keeps what a path already held. */
  method AppendKeepsEarlierContent(path: string, earlier: seq<string>, message: string, time: Int32)
    returns (lines: seq<string>)
    ensures lines == earlier + [SessionHeader, FormatLine(WARNING, message, time)]
  {
    var s := new Session(map[path := earlier]);
    DefaultFlagsDisableBoth();
    var r := s.OpenLogFile(path, true);
    r := s.Log(WARNING, message, time);
    lines := s.files[path];
  }

  /** The exact text the tests search for after a call without a timestamp. */
  lemma TestLineDebug()
    ensures FormatLine(DEBUG, "Hello world!", NoTime) == "DEBUG - Hello world!"
  {
  }

  /** The exact text the tests search for after a call without a timestamp. */
  lemma TestLineInfo()
    ensures FormatLine(INFO, "Hello world!", NoTime) == "INFO - Hello world!"
  {
  }

  /** The exact text the tests search for after a call without a timestamp. */
  lemma TestLineWarning()
    ensures FormatLine(WARNING, "Hello world!", NoTime) == "WARNING - Hello world!"
  {
  }

  /** The exact text the tests search for after a call without a timestamp. */
  lemma TestLineError()
    ensures FormatLine(ERROR, "Hello world!", NoTime) == "ERROR - Hello world!"
  {
  }

  /** The exact text the tests search for after a call without a timestamp. */
  lemma TestLineCritical()
    ensures FormatLine(CRITICAL, "Hello world!", NoTime) == "CRITICAL ERROR - Hello world!"
  {
  }

  /** The exact text the tests search for after a call with a timestamp. */
  lemma TestLineDebugAt1()
    ensures FormatLine(DEBUG, "Hello world!", 1) == "[1] " + "DEBUG - Hello world!"
  {
  }

  /** The exact text the tests search for after a call with a timestamp. */
  lemma TestLineInfoAt20()
    ensures FormatLine(INFO, "Hello world!", 20) == "[20] " + "INFO - Hello world!"
  {
  }

  /** The exact text the tests search for after a call with a timestamp. */
  lemma TestLineWarningAt100()
    ensures FormatLine(WARNING, "Hello world!", 100) == "[100] " + "WARNING - Hello world!"
  {
  }

  /** The exact text the tests search for after a call with a timestamp. */
  lemma TestLineErrorAt2000()
    ensures FormatLine(ERROR, "Hello world!", 2000) == "[2000] " + "ERROR - Hello world!"
  {
  }

  /** The exact text the tests search for after a call with a timestamp. */
  lemma TestLineCriticalAt10000()
    ensures FormatLine(CRITICAL, "Hello world!", 10000) == "[10000] " + "CRITICAL ERROR - Hello world!"
  {
  }

  /** The exact text the console and file checks of the mirroring test search for. */
  lemma TestLineStdout()
    ensures FormatLine(INFO, "This is a test log message", NoTime) == "INFO - This is a test log message"
  {
  }

  /** A negative time other than -1 is written like any other. */
  lemma NegativeTimeIsWritten()
    ensures FormatLine(WARNING, "w", -5) == "[-5] WARNING - w"
  {
  }
}
