/**
  The log level the command line selects: `-v` and `-q` are counted, the verbosity is
  `1 - quiet + verbose` in `i8`, and ranges of verbosity map to levels.

  The casts `as i8` wrap around in every build. The `i8` subtraction and addition wrap
  around in a release build, which is what `VerbosityOf` computes; a debug build stops
  with a panic where one of them overflows, which `DebugOverflows` states.
*/
module Cli {

  type u8 = x: int | 0 <= x < 0x100
  type i8 = x: int | -0x80 <= x < 0x80

  /** Two's-complement wrap-around of an integer into `i8`. */
  function WrapI8(x: int): (r: i8)
    ensures -0x80 <= x < 0x80 ==> r == x
    ensures (x - r) % 0x100 == 0
  {
    (x + 0x80) % 0x100 - 0x80
  }

  /** `Verbosity`: the number of `-v` and of `-q` flags. */
  datatype Verbosity = Verbosity(verbose: u8, quiet: u8)

  /** `log::LevelFilter`, from quietest to most verbose. */
  datatype LevelFilter = Off | Error | Warn | Info | Debug | Trace

  /** The position of a level, quietest first. */
  function Rank(level: LevelFilter): nat
  {
    match level
    case Off => 0
    case Error => 1
    case Warn => 2
    case Info => 3
    case Debug => 4
    case Trace => 5
  }

  /** `Verbosity::verbosity`: `1 - (quiet as i8) + (verbose as i8)`, each step wrapping. */
  function VerbosityOf(v: Verbosity): (r: i8)
    ensures v.verbose <= 126 && v.quiet <= 127 ==> r == 1 - v.quiet + v.verbose
  {
    WrapI8(WrapI8(1 - WrapI8(v.quiet)) + WrapI8(v.verbose))
  }

  /**
    A debug build panics: `1 - (quiet as i8)` overflows, or adding `verbose as i8` to it
    does.
  */
  predicate DebugOverflows(v: Verbosity)
  {
    var d := 1 - WrapI8(v.quiet);
    !(-0x80 <= d < 0x80) || !(-0x80 <= d + WrapI8(v.verbose) < 0x80)
  }

  /**
    With one count zero, as the flags' conflict ensures, a debug build panics for exactly
    127 `-v`, or 128 or 129 `-q`.
  */
  lemma DebugOverflowCases(v: Verbosity)
    requires v.verbose == 0 || v.quiet == 0
    ensures v.quiet == 0 ==> (DebugOverflows(v) <==> v.verbose == 127)
    ensures v.verbose == 0 ==> (DebugOverflows(v) <==> v.quiet == 128 || v.quiet == 129)
  {
  }

  /** The range match of `log_level`: total over `i8`. */
  function LevelOf(n: i8): (level: LevelFilter)
    ensures Rank(level) == if n < 0 then 0 else if n >= 4 then 5 else n + 1
  {
    if n <= -1 then Off
    else if n == 0 then Error
    else if n == 1 then Warn
    else if n == 2 then Info
    else if n == 3 then Debug
    else Trace
  }

  /** `Verbosity::log_level`. */
  function LogLevel(v: Verbosity): LevelFilter
  {
    LevelOf(VerbosityOf(v))
  }

  /** A higher verbosity never gives a quieter level. */
  lemma LevelOfMonotone(m: i8, n: i8)
    requires m <= n
    ensures Rank(LevelOf(m)) <= Rank(LevelOf(n))
  {
  }

  /** No flags gives verbosity 1, which is `Warn`. */
  lemma DefaultIsWarn(v: Verbosity)
    requires v.verbose == 0 && v.quiet == 0
    ensures VerbosityOf(v) == 1 && LogLevel(v) == Warn
  {
  }

  /**
    `-v` and `-q` conflict, so one count is zero; then, short of wrap-around, the verbosity
    is `1 + verbose` or `1 - quiet`.
  */
  lemma ConflictFreeVerbosity(v: Verbosity)
    requires v.verbose == 0 || v.quiet == 0
    requires v.verbose <= 126 && v.quiet <= 127
    ensures v.quiet == 0 ==> VerbosityOf(v) == 1 + v.verbose
    ensures v.verbose == 0 ==> VerbosityOf(v) == 1 - v.quiet
  {
  }

  /** Short of wrap-around, more `-v` never lowers the level and more `-q` never raises it. */
  lemma LogLevelMonotone(a: Verbosity, b: Verbosity)
    requires a.verbose <= b.verbose <= 126 && b.quiet <= a.quiet <= 127
    ensures Rank(LogLevel(a)) <= Rank(LogLevel(b))
  {
    LevelOfMonotone(VerbosityOf(a), VerbosityOf(b));
  }

  /** A single `-q` turns logging down to errors, and two or more turn it off. */
  lemma QuietLevels(v: Verbosity)
    requires v.verbose == 0 && 1 <= v.quiet <= 127
    ensures LogLevel(v) == if v.quiet == 1 then Error else Off
  {
  }

  /** 127 times `-v` wraps the verbosity around to -128 in a release build, switching logging off; a debug build overflows. */
  lemma ManyVerboseFlagsSilence()
    ensures VerbosityOf(Verbosity(127, 0)) == -128
    ensures LogLevel(Verbosity(127, 0)) == Off
    ensures DebugOverflows(Verbosity(127, 0))
  {
  }

  /**
    255 `-q` casts to -1, so the verbosity is 2 and the level `Info`, in a debug build as
    well, since neither step overflows.
  */
  lemma ManyQuietFlagsWrap()
    ensures VerbosityOf(Verbosity(0, 255)) == 2
    ensures LogLevel(Verbosity(0, 255)) == Info
    ensures !DebugOverflows(Verbosity(0, 255))
  {
    assert WrapI8(255) == -1;
    assert WrapI8(0) == 0;
    assert WrapI8(2) == 2;
    assert VerbosityOf(Verbosity(0, 255)) == WrapI8(WrapI8(1 - -1) + 0);
  }

  /** The verbosity computed without wrap-around, clamped to the range of `i8`. */
  function SaturatingVerbosity(v: Verbosity): (r: i8)
    ensures v.verbose <= 126 && v.quiet <= 127 ==> r == VerbosityOf(v)
  {
    var exact := 1 - v.quiet + v.verbose;
    if exact < -0x80 then -0x80 else if exact >= 0x80 then 0x7F else exact
  }

  /** The level as evidently intended: from the clamped verbosity. */
  function IntendedLogLevel(v: Verbosity): LevelFilter
  {
    LevelOf(SaturatingVerbosity(v))
  }

  /** With clamping, one `-q` is `Error` and any number more is `Off`. */
  lemma IntendedQuietLevels(v: Verbosity)
    requires v.verbose == 0 && 1 <= v.quiet
    ensures IntendedLogLevel(v) == if v.quiet == 1 then Error else Off
  {
  }

  /** The intended level is monotone over every flag count, with no bound. */
  lemma IntendedLogLevelMonotone(a: Verbosity, b: Verbosity)
    requires a.verbose <= b.verbose && b.quiet <= a.quiet
    ensures Rank(IntendedLogLevel(a)) <= Rank(IntendedLogLevel(b))
    ensures b.quiet == 0 && b.verbose >= 3 ==> IntendedLogLevel(b) == Trace
  {
    LevelOfMonotone(SaturatingVerbosity(a), SaturatingVerbosity(b));
  }
}
