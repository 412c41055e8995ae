/** The verbosity count of `-v` flags and the logging level it selects. */
module LogLevels {

  /** `LOG_LEVELS`: CRITICAL, ERROR, WARNING, INFO and DEBUG, as the numbers
      Python's `logging` gives them. */
  const Levels: seq<nat> := [50, 40, 30, 20, 10]

  /** `min(len(LOG_LEVELS) - 1, verbosity)`: the count, capped at the last level. */
  function LevelIndex(verbosity: nat): (i: nat)
    ensures i < |Levels|
    ensures i <= verbosity
    ensures i == verbosity || i == |Levels| - 1
  {
    if verbosity < |Levels| - 1 then verbosity else |Levels| - 1
  }

  /** The level `configure_logging` sets for a verbosity count. */
  function Level(verbosity: nat): (level: nat)
    ensures level in Levels
  {
    Levels[LevelIndex(verbosity)]
  }

  /** More `-v` flags never raise the threshold: at least as much is logged. */
  lemma MoreVerboseLogsMore(v: nat, w: nat)
    requires v <= w
    ensures Level(w) <= Level(v)
  {
  }

  /** From four flags on, every further flag changes nothing: DEBUG. */
  lemma VerbosityCapped(v: nat)
    requires v >= 4
    ensures Level(v) == 10
  {
  }
}
