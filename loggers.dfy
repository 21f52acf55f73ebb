/** Log levels and the captured log of emitted records.

    The logger's formatting, timestamps and stream handlers are not modelled:
    a log is the sequence of records it has emitted, each one a level and a
    message, as a test's log capture sees them. */
module Loggers {

  /** The standard levels plus the two custom ones cloud-init defines. */
  datatype Level = Trace | Debug | Info | Warning | Deprecated | Error | Critical

  /** The name a record reports as its level name. */
  function LevelName(l: Level): string
  {
    match l
    case Trace => "TRACE"
    case Debug => "DEBUG"
    case Info => "INFO"
    case Warning => "WARNING"
    case Deprecated => "DEPRECATED"
    case Error => "ERROR"
    case Critical => "CRITICAL"
  }

  datatype LogRecord = LogRecord(level: Level, message: string)

  /** The messages of a sequence of records, in emission order. */
  function Messages(rs: seq<LogRecord>): (ms: seq<string>)
    ensures |ms| == |rs|
    ensures forall i :: 0 <= i < |rs| ==> ms[i] == rs[i].message
  {
    if rs == [] then [] else [rs[0].message] + Messages(rs[1..])
  }

  lemma MessagesAppend(a: seq<LogRecord>, b: seq<LogRecord>)
    ensures Messages(a + b) == Messages(a) + Messages(b)
  {
    var joined, parts := Messages(a + b), Messages(a) + Messages(b);
    forall i | 0 <= i < |joined|
      ensures joined[i] == parts[i]
    {
      if i < |a| {
        assert joined[i] == a[i].message == parts[i];
      } else {
        assert joined[i] == b[i - |a|].message == parts[i];
      }
    }
  }

  /** A log capture: every record emitted while it is attached. */
  class CapturedLog {
    var records: seq<LogRecord>

    constructor ()
      ensures records == []
    {
      records := [];
    }

    /** The captured text, as the sequence of emitted messages. */
    function Text(): seq<string>
      reads this
    {
      Messages(records)
    }

    method Log(level: Level, message: string)
      modifies this
      ensures records == old(records) + [LogRecord(level, message)]
      ensures Text() == old(Text()) + [message]
    {
      MessagesAppend(records, [LogRecord(level, message)]);
      records := records + [LogRecord(level, message)];
    }

    /** `logger.deprecated(msg)`: one record at the level named "DEPRECATED". */
    method LogDeprecated(message: string)
      modifies this
      ensures records == old(records) + [LogRecord(Deprecated, message)]
      ensures LevelName(records[|records| - 1].level) == "DEPRECATED"
      ensures message in Text()
    {
      Log(Deprecated, message);
    }

    /** `logger.trace(msg)`: one record at the level named "TRACE". */
    method LogTrace(message: string)
      modifies this
      ensures records == old(records) + [LogRecord(Trace, message)]
      ensures LevelName(records[|records| - 1].level) == "TRACE"
      ensures message in Text()
    {
      Log(Trace, message);
    }
  }

  /** The two custom-level tests: on a fresh capture, the first record carries
      the custom level name and the message appears in the captured text. */
  method CustomLevelScenario(message: string) returns (deprecatedName: string, traceName: string, inText: bool)
    ensures deprecatedName == "DEPRECATED" && traceName == "TRACE" && inText
  {
    var c1 := new CapturedLog();
    c1.LogDeprecated(message);
    deprecatedName := LevelName(c1.records[0].level);
    var c2 := new CapturedLog();
    c2.LogTrace(message);
    traceName := LevelName(c2.records[0].level);
    inText := message in c1.Text() && message in c2.Text();
  }
}
