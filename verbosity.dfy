/** The logging level chosen by `main` in migrate.py from the counts of -v and -q flags. */
module Verbosity {

  /** The levels of Python's logging module. */
  datatype Level = NotSet | Debug | Info | Warning | Error | Critical {
    /** logging's numeric value of the level: a record is shown when its level is at least this. */
    function Value(): (n: nat)
      ensures n % 10 == 0 && n <= 50
    {
      match this
      case NotSet => 0
      case Debug => 10
      case Info => 20
      case Warning => 30
      case Error => 40
      case Critical => 50
    }
  }

  /** The if/elif chain of `main`.  The last test, `verbosity <= -2`, is reached only for
      verbosities below -2, and every integer is given a level.  The contract is an
      independent description: each -v lowers the threshold by one step of 10 from INFO,
      each -q raises it, clamped to NOTSET and CRITICAL. */
  function LevelFor(verbosity: int): (level: Level)
    ensures level.Value() == Clamp(20 - 10 * verbosity)
  {
    if verbosity == 0 then Info
    else if verbosity == 1 then Debug
    else if verbosity > 1 then NotSet
    else if verbosity == -1 then Warning
    else if verbosity == -2 then Error
    else Critical  // verbosity <= -2, and in fact < -2 here
  }

  function Clamp(n: int): (r: nat)
    ensures 0 <= r <= 50
  {
    if n < 0 then 0 else if n > 50 then 50 else n
  }

  /** `verbose - quiet`, where both are counts of repeated flags. */
  function LevelForFlags(verbose: nat, quiet: nat): (level: Level)
    ensures verbose == quiet ==> level == Info
    ensures quiet == 0 && verbose >= 2 ==> level == NotSet
  {
    LevelFor(verbose - quiet)
  }

  /** More verbosity never raises the threshold: the mapping is antitone. */
  lemma MoreVerboseShowsMore(v1: int, v2: int)
    requires v1 <= v2
    ensures LevelFor(v2).Value() <= LevelFor(v1).Value()
  {
  }

  /** The numeric value determines the level, so the contract of LevelFor pins it down. */
  lemma ValueIsInjective(a: Level, b: Level)
    requires a.Value() == b.Value()
    ensures a == b
  {
  }
}
