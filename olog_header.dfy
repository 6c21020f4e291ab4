/**
 * The public surface of the logging library: the five severity levels, the
 * two option bits accepted when a log file is opened, and the defaults of the
 * optional parameters.
 */
module OLogHeader {
  /** The C++ `int` used for timestamps and exit codes. */
  newtype Int32 = x: int | -0x8000_0000 <= x < 0x8000_0000

  /** Severity levels, in increasing order of importance. */
  datatype LogLevel = DEBUG | INFO | WARNING | ERROR | CRITICAL

  /** The value the C++ enumerator has (its position in the declaration). */
  function Ordinal(level: LogLevel): (n: nat)
    ensures n < 5
  {
    match level
    case DEBUG => 0
    case INFO => 1
    case WARNING => 2
    case ERROR => 3
    case CRITICAL => 4
  }

  /** The enumerator with a given value. */
  function LevelOfOrdinal(n: nat): (level: LogLevel)
    requires n < 5
    ensures Ordinal(level) == n
  {
    if n == 0 then DEBUG else if n == 1 then INFO else if n == 2 then WARNING
    else if n == 3 then ERROR else CRITICAL
  }

  /** The enumeration is closed: every level is one of the five values 0..4, each exactly once. */
  lemma OrdinalBijective(level: LogLevel)
    ensures LevelOfOrdinal(Ordinal(level)) == level
  {
  }

  /** The option flags, a C++ `int` seen as a bit set. */
  type Flags = bv32

  /** `OL_LOG_TO_STDOUT`: mirror every log line to standard output. */
  const LogToStdout: Flags := 1 << 0

  /** `OL_QUIT_ON_CRITICAL`: close the log and exit the process after a log call. */
  const QuitOnCritical: Flags := 1 << 1

  /** The default of the flags parameter of `openLogFile`. */
  const DefaultFlags: Flags := 0

  /** The default of the time parameter of `log`: no timestamp. */
  const NoTime: Int32 := -1

  /** `flags & OL_LOG_TO_STDOUT`: the lowest bit of the flags is set. */
  predicate MirrorsToStdout(flags: Flags) {
    flags & LogToStdout != 0
  }

  /** `flags & OL_QUIT_ON_CRITICAL`: the second lowest bit of the flags is set. */
  predicate QuitsAfterLog(flags: Flags) {
    flags & QuitOnCritical != 0
  }

  /** The two options are the distinct single bits 1 and 2. */
  lemma FlagBits()
    ensures LogToStdout == 1 && QuitOnCritical == 2
    ensures LogToStdout & QuitOnCritical == 0
  {
  }

  /** Any combination of the two options can be expressed, and each is read back independently. */
  lemma FlagsIndependent(mirror: bool, quit: bool)
    ensures var flags := (if mirror then LogToStdout else 0) | (if quit then QuitOnCritical else 0);
      MirrorsToStdout(flags) == mirror && QuitsAfterLog(flags) == quit
  {
  }

  /** What each option bit on its own enables. */
  lemma SingleFlags()
    ensures MirrorsToStdout(LogToStdout) && !QuitsAfterLog(LogToStdout)
    ensures QuitsAfterLog(QuitOnCritical) && !MirrorsToStdout(QuitOnCritical)
  {
  }

  /** Without explicit flags, a session neither mirrors nor quits. */
  lemma DefaultFlagsDisableBoth()
    ensures !MirrorsToStdout(DefaultFlags) && !QuitsAfterLog(DefaultFlags)
  {
  }
}
