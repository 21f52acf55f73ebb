# cloud-init: KVP provisioning reports and deprecation bookkeeping

This project models two small parts of cloud-init as Dafny, as their unit
tests describe them.

**Provisioning reports over Hyper-V KVP.** cloud-init on Azure tells the host
whether provisioning succeeded by writing a `PROVISIONING_REPORT` record into
the Hyper-V KVP pool file. The model has three parts:

- a process-wide handler registry (`DictRegistry`, a map from names to
  handlers, updated by `register_item` and `unregister_item`);
- the KVP reporting handler (`KvpStore`), whose pool file is the sequence of
  records it holds, appended to and read back from a generation;
- the two entry points, `report_via_kvp` and `report_success_to_host`.

With a handler registered as `"telemetry"`, an entry point appends the report
and returns true. Without one, it logs "KVP handler not enabled, skipping host
report." and returns false. It never fails. A success report is
`encode_report` applied to four ordered `field=value` lines. The model proves
that these lines split back into the fields `result`, `agent`, `timestamp`
and `vm_id`, in that order.

**Deprecation logging (`lifecycle.deprecate`).** Versions are `major.minor`
releases plus the sentinel `devel`, which is above every release. A
deprecation is logged at level DEPRECATED when its version is at or below
the `DEPRECATION_INFO_BOUNDARY`, and at INFO otherwise. The removal version
is the deprecated version plus `schedule` major releases, with the minor
unchanged. A cache of messages already logged makes each distinct message
appear once. The model proves three things about this. First, a sequence
of `deprecate` calls on one cache (`DeprecateEach`) logs exactly the
deduplicated candidate records of those calls. Second, over any sequence of
candidate records, each message is logged exactly once if some record
carries it and it was not logged before, and never otherwise. Third, calls
that differ only in their schedule produce different messages.

Modules: `Wrappers` (Option), `Loggers` (levels, records, the captured log),
`Registry`, `Kvp`, `Lifecycle`. The `...Scenario` methods replay the unit
tests. Each one builds fresh objects, makes the calls the test makes, and
states the test's assertions in its `ensures`. `Kvp.AppendThenIterate` is
not a test: it states the pool file's append order, which the tests rely on
when they read a write back.

The implementations (`cloudinit/sources/azure/kvp.py`, the Hyper-V reporting
handler, `cloudinit/sources/azure/errors.py`, `cloudinit/lifecycle.py`,
`cloudinit/log/loggers.py`) are not part of this model. Only their tests are.
The model states what the tests assert. Where the tests leave a behaviour
open, the model makes a choice and lists it below.

## Model

| member | source | states |
|---|---|---|
| Registry.DictRegistry.constructor | tests/unittests/sources/azure/test_kvp.py:58-60 | a fresh registry has no handler, so reports made without registering are skipped |
| Registry.DictRegistry.RegisterItem | tests/unittests/sources/azure/test_kvp.py:37 | binds the name to the handler and leaves other bindings alone; a name already in use is refused and the registry is unchanged |
| Registry.DictRegistry.UnregisterItem | tests/unittests/sources/azure/test_kvp.py:39 | removes exactly the named binding and keeps every other one |
| Kvp.KvpStore.constructor | tests/unittests/sources/azure/test_kvp.py:29-35 | a handler over an empty pool file holds no records |
| Kvp.KvpStore.Append | tests/unittests/sources/azure/test_kvp.py:47 | a write adds one record at the end; earlier records, including ones with the same key, are kept in place |
| Kvp.KvpStore.IterateKvps | tests/unittests/sources/azure/test_kvp.py:56 | iteration from generation g yields the records after the first g slots, in file order; from generation 0 it yields every record |
| Kvp.SplitFieldLine | tests/unittests/sources/azure/test_kvp.py:72-79 | a `field=value` line splits back into its field and value exactly when the field contains no `=`, in both directions |
| Kvp.SuccessReportLines | tests/unittests/sources/azure/test_kvp.py:72-79 | the success report has four lines that split into result=success, agent=Cloud-Init/version, timestamp, vm_id, in that order |
| Kvp.ReportViaKvp | tests/unittests/sources/azure/test_kvp.py:43-60 | returns true exactly when "telemetry" is registered; then the handler gains a PROVISIONING_REPORT record holding the report and nothing is logged; otherwise only the skip message is logged |
| Kvp.ReportSuccessToHost | tests/unittests/sources/azure/test_kvp.py:64-92 | same outcome as ReportViaKvp, where the record value is encode_report of the four success lines for the given vm id |
| Kvp.ReportViaKvpScenario | tests/unittests/sources/azure/test_kvp.py:29-60 | with the handler registered, the report is accepted, iteration from 0 contains it and no skip message appears; once unregistered, a report is refused and the skip message is logged |
| Kvp.ReportSuccessScenario | tests/unittests/sources/azure/test_kvp.py:63-80 | with the handler registered, the pool file holds exactly the encoded success record and no skip message is logged |
| Kvp.ReportSuccessSkippedScenario | tests/unittests/sources/azure/test_kvp.py:82-92 | with no handler registered, a success report for any vm id is refused with the skip message |
| Kvp.AppendThenIterate | tests/unittests/sources/azure/test_kvp.py:47-56 | the pool file's append order, which the write-then-read of this test relies on: two writes on an empty pool file are read back from generation 0 in the order they were made |
| Loggers.CapturedLog.LogDeprecated | tests/unittests/test_log.py:87-91 | `logger.deprecated` emits one record whose level name is DEPRECATED and whose message is in the captured text |
| Loggers.CapturedLog.LogTrace | tests/unittests/test_log.py:93-98 | `logger.trace` emits one record whose level name is TRACE and whose message is in the captured text |
| Loggers.CustomLevelScenario | tests/unittests/test_log.py:87-98 | on fresh captures, the first record is level DEPRECATED or TRACE respectively, and the message is captured |
| Lifecycle.DeprecationLevel | tests/unittests/test_log.py:100-141 | the level is INFO exactly when the boundary is a release older than the deprecated version, and DEPRECATED otherwise, so in particular when the boundary equals the version or is devel |
| Lifecycle.RemovalVersion | tests/unittests/test_log.py:142-145 | the removal version keeps the minor, is `schedule` majors later, and is strictly later for a positive schedule |
| Lifecycle.MessageStartsWithRemovalSentence | tests/unittests/test_log.py:142-145 | the logged message starts with the sentence naming the item, its deprecation version and its removal version |
| Lifecycle.DefaultScheduleRemoval | tests/unittests/test_log.py:136-145 | "some key" deprecated in 19.2 with the default schedule is "scheduled to be removed in 24.2" |
| Lifecycle.ScheduleChangesMessage | tests/unittests/test_log.py:159-165 | two calls that differ only in schedule produce different messages |
| Lifecycle.DeduplicatedOncePerMessage | tests/unittests/test_log.py:147-165 | over any sequence of candidate records, each message is logged exactly once if some record carries it and it was not already logged, and never otherwise |
| Lifecycle.RepeatedRecordAdmitsNothing | tests/unittests/test_log.py:149-158 | offering the last candidate record again adds nothing to the log |
| Lifecycle.DeprecationCache.constructor | tests/unittests/test_log.py:121 | a cleared deprecation log has seen no message |
| Lifecycle.DeprecationCache.Deprecate | tests/unittests/test_log.py:136-165 | records the message as seen; logs it at the level the boundary selects, but only if it was not seen before |
| Lifecycle.DeprecateEach | tests/unittests/test_log.py:147-165 | any sequence of `deprecate` calls on one cache adds to the cache every message the calls carry and logs exactly the deduplicated candidate records of the calls, in call order |
| Lifecycle.DeprecateLevelScenario | tests/unittests/test_log.py:100-145 | an item deprecated in 19.2 is logged at DEPRECATED under boundary 19.2 and at INFO under 19.1, with the 24.2 removal sentence |
| Lifecycle.DeduplicationScenario | tests/unittests/test_log.py:147-165 | two identical calls and one with schedule 6 leave two records, exactly those `Deduplicated` predicts |

## Left out

- The pool file's on-disk layout (512-byte keys, 2048-byte values, null padding, empty slots) and value truncation: the tests do not show them. The pool file is a sequence of records, and iteration never meets an empty slot.
- `encode_report` and `ReportableError.as_encoded_report`: their separator and truncation are not visible. `encode_report` is a function parameter of `ReportSuccessToHost`, and the failure report is an opaque string.
- `version.version_string()`, `datetime.now(timezone.utc).isoformat()` and `identity.query_vm_id`: the agent version, the timestamp and the vm id are parameters.
- Kvp.KvpStore.Append: write and open failures of the pool file are not modelled; `Append` always succeeds. No test shows a pool file that cannot be written.
- Registry.DictRegistry.RegisterItem: a duplicate name is refused by returning false rather than by raising. No test exercises the duplicate case.
- Registry.DictRegistry.UnregisterItem: unregistering an absent name does nothing. A strict "not registered" error is not modelled, since no test exercises it.
- Kvp.ReportViaKvp: the skip message's log level is not visible in the tests. The model logs it at DEBUG, and no contract depends on that level.
- Lifecycle.Message: the tests show only the sentence up to the removal version. The model follows it with ". " and the extra message, and strips no whitespace.
- Lifecycle.DeprecationCache.Deprecate: deduplication is keyed on the full message string. The key the implementation uses is not visible. Versions are passed already parsed, so `Version.from_str` is not modelled. The WARNING fallback for loggers without a DEPRECATED level and a `skip_log` option, if they exist, are not modelled.
- Numeric level values and logger thresholds (`setLevel(NOTSET)`): a log record carries only its level.
- Log formatting, UTC `gmtime` timestamps and stderr output (tests/unittests/test_log.py:41-83, 168-172): these are I/O.
- Locking and concurrent writers to the pool file: the model is sequential.
