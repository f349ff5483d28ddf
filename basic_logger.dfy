/**
 * The threshold logger (Logging/TMOSLogger.swift): a minimum level that
 * `SetLogLevel` changes and `Log` consults before emitting a line. The lines a
 * logger emits are recorded in `lines` in place of the console or system log.
 */
module BasicLogging {
  import opened Text
  import opened LogLevels

  /** "TUN" inside a network extension bundle (a path ending in ".appex"), "APP" otherwise. */
  function TargetPrefix(bundlePath: string): (prefix: string)
    ensures prefix == "TUN" <==> HasSuffix(bundlePath, ".appex")
    ensures prefix == "APP" <==> !HasSuffix(bundlePath, ".appex")
  {
    if HasSuffix(bundlePath, ".appex") then "TUN" else "APP"
  }

  /** The default minimum level of a new logger. */
  const DefaultMinimumLevel: LogLevel := Info

  /** The emitted text: `[TM:<prefix>] <LEVEL>: <message>`. */
  function FormatLine(prefix: string, level: LogLevel, message: string): string {
    "[TM:" + prefix + "] " + Description(level) + ": " + message
  }

  /**
   * A line identifies its level and message: two lines of one logger are equal
   * only when they report the same level and the same message.
   */
  lemma {:induction false} FormatLineInjective(prefix: string, a: LogLevel, m: string, b: LogLevel, n: string)
    requires FormatLine(prefix, a, m) == FormatLine(prefix, b, n)
    ensures a == b && m == n
  {
    var head := "[TM:" + prefix + "] ";
    var k := |head|;
    var x, y := FormatLine(prefix, a, m), FormatLine(prefix, b, n);
    DescriptionsDistinct(a, b);
    assert x == head + (Description(a) + ": " + m);
    assert y == head + (Description(b) + ": " + n);
    assert x[k] == Description(a)[0];
    assert y[k] == Description(b)[0];
    assert a == b;
    var body := head + Description(a) + ": ";
    assert x == body + m && y == body + n;
    assert m == x[|body|..] == y[|body|..] == n;
  }

  class BasicLogger {
    const targetPrefix: string
    var minimumLogLevel: LogLevel
    /** The lines emitted so far, oldest first. */
    var lines: seq<string>

    constructor (bundlePath: string)
      ensures targetPrefix == TargetPrefix(bundlePath)
      ensures minimumLogLevel == DefaultMinimumLevel
      ensures lines == []
    {
      targetPrefix := TargetPrefix(bundlePath);
      minimumLogLevel := DefaultMinimumLevel;
      lines := [];
    }

    method SetLogLevel(level: LogLevel)
      modifies this`minimumLogLevel
      ensures minimumLogLevel == level
    {
      minimumLogLevel := level;
    }

    /**
     * Emits one formatted line when `level` is at least the minimum, and
     * nothing otherwise; the minimum is left as it is.
     */
    method Log(level: LogLevel, message: string)
      modifies this`lines
      ensures AtLeast(level, minimumLogLevel) ==>
        lines == old(lines) + [FormatLine(targetPrefix, level, message)]
      ensures !AtLeast(level, minimumLogLevel) ==> lines == old(lines)
    {
      if RawValue(level) >= RawValue(minimumLogLevel) {
        lines := lines + [FormatLine(targetPrefix, level, message)];
      }
    }
  }

  /** A new logger drops debug lines and keeps info lines; lowering the minimum lets debug through. */
  method DefaultThresholdScenario(bundlePath: string)
  {
    var logger := new BasicLogger(bundlePath);
    logger.Log(Debug, "hidden");
    assert logger.lines == [];
    logger.Log(Info, "shown");
    assert logger.lines == [FormatLine(logger.targetPrefix, Info, "shown")];
    logger.SetLogLevel(Debug);
    logger.Log(Debug, "now shown");
    assert |logger.lines| == 2;
  }
}
