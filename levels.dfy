/** Severity levels of the logging subsystem and their display names. */
module Levels {

  /** The level enumeration; `Value` gives each constant its numeric value. */
  datatype Level = UNKNOW | DEBUG | INFO | WARN | ERROR | FATAL {

    /** The enumerator's integer value: UNKNOW = 0 up to FATAL = 5. */
    function Value(): (v: int)
      ensures 0 <= v <= 5
      ensures v == 0 <==> this == UNKNOW
    {
      match this
      case UNKNOW => 0
      case DEBUG => 1
      case INFO => 2
      case WARN => 3
      case ERROR => 4
      case FATAL => 5
    }
  }

  /** `level >= threshold` in the enumeration's numeric order: the test every
      logger, appender and call-site gate performs. */
  predicate Passes(level: Level, threshold: Level) {
    level.Value() >= threshold.Value()
  }

  /** The display name of a level; anything that is not one of the five named
      severities prints as "UNKNOW". */
  function ToString(level: Level): (r: string)
    ensures level == UNKNOW <==> r == "UNKNOW"
    ensures r in {"UNKNOW", "DEBUG", "INFO", "WARN", "ERROR", "FATAL"}
  {
    match level
    case DEBUG => "DEBUG"
    case INFO => "INFO"
    case WARN => "WARN"
    case ERROR => "ERROR"
    case FATAL => "FATAL"
    case _ => "UNKNOW"
  }

  /** Distinct levels have distinct numeric values, so `Passes` compares
      levels in a total order. */
  lemma ValueInjective(a: Level, b: Level)
    ensures a.Value() == b.Value() ==> a == b
  {
  }

  /** The order is total, transitive and antisymmetric. */
  lemma PassesTotalOrder(a: Level, b: Level, c: Level)
    ensures Passes(a, b) || Passes(b, a)
    ensures Passes(a, b) && Passes(b, c) ==> Passes(a, c)
    ensures Passes(a, b) && Passes(b, a) ==> a == b
  {
    ValueInjective(a, b);
  }

  /** A DEBUG threshold, the default of every logger and appender, lets every
      level through except UNKNOW. */
  lemma DebugThresholdAdmits(level: Level)
    ensures Passes(level, DEBUG) <==> level != UNKNOW
  {
  }

  /** Different levels print differently. */
  lemma ToStringInjective(a: Level, b: Level)
    ensures ToString(a) == ToString(b) ==> a == b
  {
  }
}
