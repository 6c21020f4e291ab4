# OLog in Dafny

OLog is a small process-wide logging library. One session writes lines to a single log file. It can mirror each line to standard output. It can also terminate the process after a log call. The session lives in three static variables in `src/olog.cpp`: the open file stream, the option flags and the exit code (default 50). Four operations act on them:

- `openLogFile(path, flags = 0)` opens the file in append mode, writes the line `====NEW SESSION STARTED====` and stores the flags.
- `closeLogFile()` closes the file.
- `log(level, message, time = -1)` writes `[time] LABEL - message`, leaving out the `[time] ` part when `time` is -1. It mirrors the line to standard output when bit 0 (`OL_LOG_TO_STDOUT`) is set. When bit 1 (`OL_QUIT_ON_CRITICAL`) is set, it then closes the file and calls `exit(exit_code)`.
- `setOLogExitCode(code)` sets the exit code.

The model has five modules:

- `OLogHeader` (`olog_header.dfy`) covers `include/olog.h`: the closed `LogLevel` enumeration with its C++ values, the two flag bits, the defaults of the optional parameters, and `Int32` for the C++ `int`.
- `Decimal` (`decimal.dfy`) renders an `int` the way a C++ output stream does, and also parses that text back.
- `OLog` (`olog.dfy`) covers `src/olog.cpp`:
  - the label switch, as `LevelLabel`;
  - the line composition, as `FormatLine`, with a parser `ParseLine` proved to be its exact inverse;
  - the class `Session`. Its fields replace the static variables: `isOpen`, `currentPath`, `flags`, `exitCode`. It adds the file system as a map from path to the lines written there, the console as a sequence of lines, and `terminated`, which holds `Some(code)` once `exit(code)` has run.
- `OLogScenarios` (`scenarios.dfy`) replays the call sequences of `tests/test_olog.cpp` against the session's contracts. One lemma per line the tests search for fixes that line's exact text.
- `Wrappers` (`wrappers.dfy`) holds the `Option` datatype.

The exceptions `std::logic_error`, `std::ios_base::failure` and `std::runtime_error` become the results `AlreadyOpen`, `IOFailure` and `NotOpen` of the datatype `Status`. Whether the file system lets a path be opened is the input `canOpen`. Every session method requires that the process has not terminated, because nothing runs after `exit`.

**Code versus documentation.** The header (include/olog.h:54-56) says the process ends when a `CRITICAL` message is logged under `OL_QUIT_ON_CRITICAL`. The code (src/olog.cpp:69) tests only the flag, so a message of any level ends the process. The model follows the code: `Session.Log` terminates whenever `QuitsAfterLog(flags)` holds. `OLogScenarios.ExitOnAnyLevel` shows the consequence for every level. Likewise, the code writes a timestamp for every `time` other than -1, negative values included (`OLogScenarios.NegativeTimeIsWritten`).

## Model

| member | source | states |
|---|---|---|
| OLogHeader.Ordinal | include/olog.h:18-24 | each level has its C++ enumerator value, below 5 |
| OLogHeader.LevelOfOrdinal | include/olog.h:18-24 | every value 0..4 names a level whose value it is |
| OLogHeader.OrdinalBijective | include/olog.h:18-24 | the enumeration is closed: value and level determine each other |
| OLogHeader.FlagBits | include/olog.h:5-11 | `OL_LOG_TO_STDOUT` is 1 and `OL_QUIT_ON_CRITICAL` is 2, two disjoint bits |
| OLogHeader.FlagsIndependent | include/olog.h:5-11 | for every choice of the two options, the combined flags read back exactly those options |
| OLogHeader.SingleFlags | include/olog.h:5-11 | each flag alone enables its own behaviour and not the other |
| OLogHeader.DefaultFlagsDisableBoth | include/olog.h:41 | the default flags 0 neither mirror nor quit |
| Decimal.NatToDecimal | src/olog.cpp:60 | the digits of a number are non-empty and canonical, with a leading 0 only for zero |
| Decimal.IntToDecimal | src/olog.cpp:60 | the rendering starts with '-' exactly for negative numbers; every other character is a digit |
| Decimal.NatToDecimalValue | src/olog.cpp:60 | reading back the digits of n gives n |
| Decimal.DecimalRoundTrip | src/olog.cpp:60 | parsing the rendering of any integer gives that integer |
| Decimal.DecimalCanonical | src/olog.cpp:60 | any text the parser accepts is exactly the rendering of its value |
| OLog.LabelRoundTrip | src/olog.cpp:36-53 | each label names its own level, so distinct levels get distinct labels |
| OLog.LabelOnlyForLevels | src/olog.cpp:36-53 | only the five labels name a level |
| OLog.LevelLabel | src/olog.cpp:36-53 | every level's label is non-empty, and its first letter already names that level |
| OLogHeader.MirrorsToStdout | src/olog.cpp:65 | the console copy is made exactly when bit 0 is set; no contract of its own, its facts are stated by `FlagBits`, `SingleFlags`, `FlagsIndependent` and `DefaultFlagsDisableBoth` |
| OLogHeader.QuitsAfterLog | src/olog.cpp:69 | the process ends exactly when bit 1 is set, whatever the level; no contract of its own, its facts are stated by the same four lemmas |
| OLog.FormatLine | src/olog.cpp:55-60 | the message ends the line; the line starts with '[' exactly when time is not -1 |
| OLog.StampPrefix | src/olog.cpp:55-60 | a timestamp only puts `[time] ` in front of the line written without one |
| OLog.ParseFormatLine | src/olog.cpp:55-60 | every written line parses back to its level, message and time, so two different calls never write the same line |
| OLog.FormatParseLine | src/olog.cpp:55-60 | every line the parser accepts is exactly the line written for the parsed entry |
| OLog.HeaderIsNoEntry | src/olog.cpp:21 | the session header never parses as a log line |
| OLog.Append | src/olog.cpp:16 | appending to a path adds the lines after its old contents, or creates the path; other paths are unchanged, and no path other than this one appears |
| OLog.AppendExtends | src/olog.cpp:16 | appending keeps every earlier line of every file as a prefix |
| OLog.Session.constructor | src/olog.cpp:8-10 | at start no file is open, the flags are 0, the exit code is 50, the console is empty, and the process is running |
| OLog.Session.SetExitCode | src/olog.cpp:12 | the exit code becomes the argument; open state, path, flags, files and console are unchanged |
| OLog.Session.OpenLogFile | src/olog.cpp:14-27 | the result is Ok iff the session was closed and the file can be opened; then exactly the header is appended to the old contents, the flags are stored and the session is open; if already open the result is AlreadyOpen, if the file cannot be opened the result is IOFailure, and in both cases state, flags and files are unchanged |
| OLog.Session.CloseLogFile | src/olog.cpp:29 | the session is closed afterwards, whether or not it was open; files, flags, exit code and console are unchanged |
| OLog.Session.Log | src/olog.cpp:31-73 | on a closed session the result is NotOpen and nothing is written; on an open one exactly the formatted line is appended to the current file, the same line goes to the console iff bit 0 is set, and the process terminates with the current exit code after closing iff bit 1 is set, whatever the level |
| OLogScenarios.BasicLogging | tests/test_olog.cpp:5-32 | five calls, one per level, write the header and the five lines in order |
| OLogScenarios.LoggingWithTime | tests/test_olog.cpp:34-41 | five timestamped calls, one per level, write the header and the five lines in order, each with its own time |
| OLogScenarios.RepeatedLogging | tests/test_olog.cpp:63-82 | reopening writes a second header after the first session's lines |
| OLogScenarios.LogToStdoutMirrors | tests/test_olog.cpp:84-111 | with `OL_LOG_TO_STDOUT` the console receives the same line as the file |
| OLogScenarios.NoMirrorByDefault | include/olog.h:41 | without flags the console receives nothing |
| OLogScenarios.OpenTwice | tests/test_olog.cpp:113-118 | a second open fails with AlreadyOpen and the file keeps its single header |
| OLogScenarios.LogWithoutOpen | tests/test_olog.cpp:120-122 | logging with no file open fails with NotOpen and writes to no file and not to the console |
| OLogScenarios.OpenFailure | src/olog.cpp:18-20 | an unopenable file gives IOFailure and the session stays closed |
| OLogScenarios.ExitOnCritical | tests/test_olog.cpp:124-130 | a critical message under `OL_QUIT_ON_CRITICAL` is written and the process exits with 50 |
| OLogScenarios.ExitWithConfiguredCode | tests/test_olog.cpp:132-139 | the process exits with the code set last |
| OLogScenarios.ExitOnAnyLevel | src/olog.cpp:69-72 | under `OL_QUIT_ON_CRITICAL` a message of any level ends the process with 50 and leaves the file closed |
| OLogScenarios.NoExitWithoutFlag | src/olog.cpp:69-72 | without bit 1 even a critical message leaves the session open and the process running |
| OLogScenarios.AppendKeepsEarlierContent | src/olog.cpp:16-21 | opening a file that has lines appends after them |
| OLogScenarios.TestLineDebug | tests/test_olog.cpp:25 | a call without a time writes exactly `DEBUG - Hello world!` |
| OLogScenarios.TestLineInfo | tests/test_olog.cpp:26 | a call without a time writes exactly `INFO - Hello world!` |
| OLogScenarios.TestLineWarning | tests/test_olog.cpp:27 | a call without a time writes exactly `WARNING - Hello world!` |
| OLogScenarios.TestLineError | tests/test_olog.cpp:28 | a call without a time writes exactly `ERROR - Hello world!` |
| OLogScenarios.TestLineCritical | tests/test_olog.cpp:29 | a call without a time writes exactly `CRITICAL ERROR - Hello world!` |
| OLogScenarios.TestLineDebugAt1 | tests/test_olog.cpp:54 | a call with time 1 writes exactly `[1] DEBUG - Hello world!` |
| OLogScenarios.TestLineInfoAt20 | tests/test_olog.cpp:55 | a call with time 20 writes exactly `[20] INFO - Hello world!` |
| OLogScenarios.TestLineWarningAt100 | tests/test_olog.cpp:56 | a call with time 100 writes exactly `[100] WARNING - Hello world!` |
| OLogScenarios.TestLineErrorAt2000 | tests/test_olog.cpp:57 | a call with time 2000 writes exactly `[2000] ERROR - Hello world!` |
| OLogScenarios.TestLineCriticalAt10000 | tests/test_olog.cpp:58 | a call with time 10000 writes exactly `[10000] CRITICAL ERROR - Hello world!` |
| OLogScenarios.TestLineStdout | tests/test_olog.cpp:92-94 | the untimed INFO call of the mirroring test writes exactly `INFO - This is a test log message`, the text searched on the console and, at line 109, in the file |
| OLogScenarios.NegativeTimeIsWritten | src/olog.cpp:57-60 | a negative time other than -1 still gets a bracketed prefix |

## Left out

- Real streams: `std::ofstream`, `std::cout`, `std::endl` and `flush`. In the model each write adds one element to a sequence of lines, and flushing has no observable effect. A message that contains a newline stays one element here, while the real file would show it as several lines.
- Whether `open` succeeds comes in as the parameter `canOpen`. The model does not describe permissions or invalid paths.
- Stream state flags. This covers the failbit that closing an unopened `ofstream` sets, and any effect of a failed write.
- `exit()` is modelled as the outcome `terminated := Some(code)`. The model does not reduce the code to the 8 bits a POSIX process exit status keeps.
- LevelLabel: a C++ `LogLevel` can also hold an integer outside the five enumerators, and the switch then leaves the label empty. The model's `LogLevel` holds only the five levels.
- OLog.Session.SetExitCode and OLog.Session.CloseLogFile return no `Status`, because neither operation can throw.
- Concurrency. The library is not thread-safe, and the model is a single-threaded sequence of calls.
- The gtest harness and its death tests are replayed as scenarios. They are not modelled as code.
