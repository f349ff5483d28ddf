/** Log severities, their raw values and their short names (Logging/TMLogger.swift). */
module LogLevels {

  datatype LogLevel = Debug | Info | Warning | Error | Critical

  function RawValue(level: LogLevel): int {
    match level
    case Debug => 1
    case Info => 2
    case Warning => 3
    case Error => 4
    case Critical => 5
  }

  /** The levels in declaration order. */
  const Levels: seq<LogLevel> := [Debug, Info, Warning, Error, Critical]

  /** Raw values grow strictly in declaration order, and every level is declared. */
  lemma RawValuesIncreasing(level: LogLevel)
    ensures level in Levels
    ensures forall i, j :: 0 <= i < j < |Levels| ==> RawValue(Levels[i]) < RawValue(Levels[j])
  {
  }

  /** `level` is at least as severe as `minimum`: the logger's threshold test. */
  predicate AtLeast(level: LogLevel, minimum: LogLevel) {
    RawValue(level) >= RawValue(minimum)
  }

  /** Severity is a total order on the five levels. */
  lemma SeverityIsTotalOrder(a: LogLevel, b: LogLevel, c: LogLevel)
    ensures AtLeast(a, a)
    ensures AtLeast(a, b) && AtLeast(b, a) ==> a == b
    ensures AtLeast(a, b) && AtLeast(b, c) ==> AtLeast(a, c)
    ensures AtLeast(a, b) || AtLeast(b, a)
  {
  }

  /** The name printed in a log line. */
  function Description(level: LogLevel): string {
    match level
    case Debug => "DEBUG"
    case Info => "INFO"
    case Warning => "WARN"
    case Error => "ERROR"
    case Critical => "CRIT"
  }

  /** No two levels share a name; their first letters already differ. */
  lemma DescriptionsDistinct(a: LogLevel, b: LogLevel)
    ensures |Description(a)| > 0
    ensures Description(a)[0] == Description(b)[0] <==> a == b
    ensures Description(a) == Description(b) <==> a == b
  {
  }
}
