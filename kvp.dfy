/** Provisioning reports written to the Hyper-V KVP pool file.

    The pool file is modelled as the sequence of records it holds, in slot
    order; the byte layout of a slot is not modelled. A report reaches the host
    only if a KVP handler is registered under the name "telemetry"; otherwise
    the entry points log that they skipped the report and return false. */
module Kvp {
  import opened Wrappers
  import opened Loggers
  import opened Registry

  datatype Record = Record(key: string, value: string)

  /** The key under which every provisioning report is written. */
  const ProvisioningReportKey: string := "PROVISIONING_REPORT"

  /** The registry name of the KVP telemetry handler. */
  const TelemetryHandlerName: string := "telemetry"

  /** The one line logged when a report is skipped. */
  const SkipMessage: string := "KVP handler not enabled, skipping host report."

  /** The Hyper-V KVP reporting handler over one pool file. */
  class KvpStore {
    /** The records of the pool file, one per slot, in file order. */
    var records: seq<Record>

    /** A handler over an empty pool file. */
    constructor ()
      ensures records == []
    {
      records := [];
    }

    /** Writes one record in a new slot at the end of the file. Earlier
        records, including ones with the same key, stay where they are. */
    method Append(key: string, value: string)
      modifies this
      ensures records == old(records) + [Record(key, value)]
    {
      records := records + [Record(key, value)];
    }

    /** `_iterate_kvps(generation)`: reads the file slot by slot, starting
        after the first `generation` slots, up to its current end. */
    method IterateKvps(generation: nat) returns (kvps: seq<Record>)
      ensures generation <= |records| ==> |kvps| == |records| - generation
      ensures generation >= |records| ==> kvps == []
      ensures forall i :: 0 <= i < |kvps| ==> kvps[i] == records[generation + i]
      ensures generation == 0 ==> kvps == records
    {
      kvps := [];
      var slot := generation;
      while slot < |records|
        invariant generation <= slot
        invariant slot <= |records| || slot == generation
        invariant |kvps| == slot - generation
        invariant forall i :: 0 <= i < |kvps| ==> kvps[i] == records[generation + i]
      {
        kvps := kvps + [records[slot]];
        slot := slot + 1;
      }
    }
  }

  /** One `field=value` line of a report. */
  function FieldLine(field: string, value: string): string
  {
    field + "=" + value
  }

  /** The position of the first `c` in `s`, or `|s|` if there is none. */
  function FirstIndexOf(s: string, c: char): (i: nat)
    ensures i <= |s|
    ensures i < |s| ==> s[i] == c
    ensures forall j :: 0 <= j < i ==> s[j] != c
  {
    if s == [] then 0
    else if s[0] == c then 0
    else 1 + FirstIndexOf(s[1..], c)
  }

  /** How a reader splits a report line: the field name is everything before
      the first `=`, the value everything after it. */
  function SplitField(line: string): Option<(string, string)>
  {
    var i := FirstIndexOf(line, '=');
    if i == |line| then None else Some((line[..i], line[i + 1..]))
  }

  /** A line built from a field name without `=` splits back into that name
      and value, and a line that splits is exactly the line built from its
      parts. */
  lemma SplitFieldLine(field: string, value: string, line: string)
    ensures '=' !in field && line == FieldLine(field, value)
        <==> SplitField(line) == Some((field, value))
  {
    if '=' !in field && line == FieldLine(field, value) {
      var i := FirstIndexOf(line, '=');
      assert line[|field|] == '=';
      assert forall j :: 0 <= j < |field| ==> line[j] == field[j];
      assert i == |field|;
      assert line[..i] == field;
      assert line[i + 1..] == value;
    }
    if SplitField(line) == Some((field, value)) {
      var i := FirstIndexOf(line, '=');
      assert line == line[..i] + [line[i]] + line[i + 1..];
      assert forall j :: 0 <= j < |field| ==> field[j] == line[j];
    }
  }

  /** The lines of a success report, in the order the host reads them:
      result, agent, timestamp, vm id. */
  function SuccessReportLines(agentVersion: string, timestamp: string, vmId: string): (lines: seq<string>)
    ensures |lines| == 4
    ensures SplitField(lines[0]) == Some(("result", "success"))
    ensures SplitField(lines[1]) == Some(("agent", "Cloud-Init/" + agentVersion))
    ensures SplitField(lines[2]) == Some(("timestamp", timestamp))
    ensures SplitField(lines[3]) == Some(("vm_id", vmId))
  {
    var agent := "Cloud-Init/" + agentVersion;
    assert '=' !in "result" && '=' !in "agent" && '=' !in "timestamp" && '=' !in "vm_id";
    SplitFieldLine("result", "success", FieldLine("result", "success"));
    SplitFieldLine("agent", agent, FieldLine("agent", agent));
    SplitFieldLine("timestamp", timestamp, FieldLine("timestamp", timestamp));
    SplitFieldLine("vm_id", vmId, FieldLine("vm_id", vmId));
    [FieldLine("result", "success"), FieldLine("agent", agent), FieldLine("timestamp", timestamp), FieldLine("vm_id", vmId)]
  }

  /** `report_via_kvp(report)`: with a telemetry handler registered, writes
      the report under PROVISIONING_REPORT and reports true without logging;
      without one, logs the skip message and reports false. It never fails. */
  method ReportViaKvp(registry: DictRegistry<KvpStore>, log: CapturedLog, report: string) returns (reported: bool)
    modifies if TelemetryHandlerName in registry.items then {registry.items[TelemetryHandlerName]} else {}
    modifies log
    ensures reported == (TelemetryHandlerName in registry.items)
    ensures reported ==>
      registry.items[TelemetryHandlerName].records
        == old(registry.items[TelemetryHandlerName].records) + [Record(ProvisioningReportKey, report)]
    ensures reported ==> Record(ProvisioningReportKey, report) in registry.items[TelemetryHandlerName].records
    ensures reported ==> log.records == old(log.records)
    ensures !reported ==> |log.records| == |old(log.records)| + 1 && log.Text() == old(log.Text()) + [SkipMessage]
    ensures !reported ==> SkipMessage in log.Text()
  {
    if TelemetryHandlerName !in registry.items {
      log.Log(Debug, SkipMessage);
      return false;
    }
    var handler := registry.items[TelemetryHandlerName];
    handler.Append(ProvisioningReportKey, report);
    reported := true;
  }

  /** `report_success_to_host(vm_id)`: reports the success lines, encoded by
      `encodeReport`, through `ReportViaKvp`. The agent version and the
      timestamp are the caller's. */
  method ReportSuccessToHost(registry: DictRegistry<KvpStore>, log: CapturedLog,
                             encodeReport: seq<string> -> string,
                             agentVersion: string, timestamp: string, vmId: string)
    returns (reported: bool)
    modifies if TelemetryHandlerName in registry.items then {registry.items[TelemetryHandlerName]} else {}
    modifies log
    ensures reported == (TelemetryHandlerName in registry.items)
    ensures reported ==>
      registry.items[TelemetryHandlerName].records
        == old(registry.items[TelemetryHandlerName].records)
           + [Record(ProvisioningReportKey, encodeReport(SuccessReportLines(agentVersion, timestamp, vmId)))]
    ensures reported ==> log.records == old(log.records)
    ensures !reported ==> |log.records| == |old(log.records)| + 1 && log.Text() == old(log.Text()) + [SkipMessage]
  {
    var report := encodeReport(SuccessReportLines(agentVersion, timestamp, vmId));
    reported := ReportViaKvp(registry, log, report);
  }

  /** The failure-report tests: a handler over an empty pool file registered
      as "telemetry" accepts the report, which iteration from generation 0
      then yields, and nothing is logged; once unregistered, a report is
      skipped with the skip message. */
  method ReportViaKvpScenario(encodedReport: string)
    returns (reported: bool, kvps: seq<Record>, skipLoggedWhileRegistered: bool,
             reportedAfterTeardown: bool, skipLoggedAfterTeardown: bool)
    ensures reported && Record(ProvisioningReportKey, encodedReport) in kvps
    ensures !skipLoggedWhileRegistered
    ensures !reportedAfterTeardown && skipLoggedAfterTeardown
  {
    var registry := new DictRegistry<KvpStore>();
    var reporter := new KvpStore();
    var registered := registry.RegisterItem(TelemetryHandlerName, reporter);
    var log := new CapturedLog();
    reported := ReportViaKvp(registry, log, encodedReport);
    skipLoggedWhileRegistered := SkipMessage in log.Text();
    kvps := reporter.IterateKvps(0);
    registry.UnregisterItem(TelemetryHandlerName);
    var log2 := new CapturedLog();
    reportedAfterTeardown := ReportViaKvp(registry, log2, "test report");
    skipLoggedAfterTeardown := SkipMessage in log2.Text();
  }

  /** The success-report test with a handler: registered as "telemetry"
      over an empty pool file, the handler then holds exactly one record, the
      encoded success lines with the given vm id, and nothing is logged. */
  method ReportSuccessScenario(encodeReport: seq<string> -> string,
                               agentVersion: string, timestamp: string, vmId: string)
    returns (reported: bool, kvps: seq<Record>, skipLogged: bool)
    ensures reported && !skipLogged
    ensures kvps == [Record(ProvisioningReportKey, encodeReport(SuccessReportLines(agentVersion, timestamp, vmId)))]
  {
    var registry := new DictRegistry<KvpStore>();
    var reporter := new KvpStore();
    var registered := registry.RegisterItem(TelemetryHandlerName, reporter);
    assert registry.items[TelemetryHandlerName] == reporter && reporter.records == [];
    var log := new CapturedLog();
    reported := ReportSuccessToHost(registry, log, encodeReport, agentVersion, timestamp, vmId);
    assert reporter.records == [Record(ProvisioningReportKey, encodeReport(SuccessReportLines(agentVersion, timestamp, vmId)))];
    assert log.records == [];
    skipLogged := SkipMessage in log.Text();
    kvps := reporter.IterateKvps(0);
  }

  /** The success-report test without a handler: whatever the vm id, the
      report is skipped and the skip message logged. */
  method ReportSuccessSkippedScenario(encodeReport: seq<string> -> string,
                                      agentVersion: string, timestamp: string, vmId: string)
    returns (reported: bool, skipLogged: bool)
    ensures !reported && skipLogged
  {
    var empty := new DictRegistry<KvpStore>();
    var log := new CapturedLog();
    reported := ReportSuccessToHost(empty, log, encodeReport, agentVersion, timestamp, vmId);
    skipLogged := SkipMessage in log.Text();
  }

  /** The pool file's append order: two writes on an empty pool file are
      read back from generation 0 in the order they were made. */
  method AppendThenIterate(k1: string, v1: string, k2: string, v2: string) returns (kvps: seq<Record>)
    ensures kvps == [Record(k1, v1), Record(k2, v2)]
  {
    var store := new KvpStore();
    store.Append(k1, v1);
    store.Append(k2, v2);
    kvps := store.IterateKvps(0);
  }
}
