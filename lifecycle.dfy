/** Deprecation bookkeeping: the level a deprecation is logged at, the version
    it is scheduled to be removed in, and logging each distinct deprecation
    message once. */
module Lifecycle {
  import opened Loggers

  /** A release version `major.minor`, or the development sentinel "devel",
      which is above every release. */
  datatype Version = Release(major: nat, minor: nat) | Devel

  type ReleaseVersion = v: Version | v.Release? witness Release(0, 0)

  /** Releases compare by major, then by minor; "devel" is above all. */
  predicate VersionLe(a: Version, b: Version)
  {
    match (a, b)
    case (_, Devel) => true
    case (Devel, Release(_, _)) => false
    case (Release(am, an), Release(bm, bn)) => am < bm || (am == bm && an <= bn)
  }

  predicate VersionLt(a: Version, b: Version)
  {
    VersionLe(a, b) && a != b
  }

  /** The feature flag's default boundary. */
  const DefaultDeprecationInfoBoundary: Version := Devel

  /** The number of major releases until a deprecated item is removed, by
      default. */
  const DefaultSchedule: nat := 5

  /** The level a deprecation is logged at: DEPRECATED when the item was
      deprecated at or before the boundary, INFO when the boundary is a
      release older than the deprecation. */
  function DeprecationLevel(deprecatedVersion: ReleaseVersion, boundary: Version): (l: Level)
    ensures l == Deprecated || l == Info
    ensures l == Info <==> VersionLt(boundary, deprecatedVersion)
    ensures boundary == deprecatedVersion ==> l == Deprecated
    ensures boundary == Devel ==> l == Deprecated
  {
    if VersionLe(deprecatedVersion, boundary) then Deprecated else Info
  }

  /** The version an item deprecated in `deprecatedVersion` is removed in:
      `schedule` major releases later, same minor. */
  function RemovalVersion(deprecatedVersion: ReleaseVersion, schedule: nat): (r: ReleaseVersion)
    ensures VersionLe(deprecatedVersion, r)
    ensures schedule > 0 ==> VersionLt(deprecatedVersion, r)
    ensures r.minor == deprecatedVersion.minor && r.major - deprecatedVersion.major == schedule
  {
    Release(deprecatedVersion.major + schedule, deprecatedVersion.minor)
  }

  predicate IsDigit(c: char)
  {
    '0' <= c <= '9'
  }

  function DigitChar(d: nat): (c: char)
    requires d < 10
    ensures IsDigit(c)
  {
    ('0' as int + d) as char
  }

  /** The decimal digits of `n`, most significant first. */
  function DigitString(n: nat): (s: string)
    ensures |s| >= 1
    ensures forall i :: 0 <= i < |s| ==> IsDigit(s[i])
  {
    if n < 10 then [DigitChar(n)] else DigitString(n / 10) + [DigitChar(n % 10)]
  }

  function DigitValue(c: char): (d: nat)
    requires IsDigit(c)
    ensures d < 10
  {
    (c as int) - ('0' as int)
  }

  /** The number a string of decimal digits denotes. */
  function DigitsValue(s: string): nat
    requires forall i :: 0 <= i < |s| ==> IsDigit(s[i])
  {
    if s == [] then 0
    else 10 * DigitsValue(s[..|s| - 1]) + DigitValue(s[|s| - 1])
  }

  /** Reading back the digits of `n` gives `n`. */
  lemma {:induction false} DigitsValueOfDigitString(n: nat)
    ensures DigitsValue(DigitString(n)) == n
  {
    var s := DigitString(n);
    if n >= 10 {
      DigitsValueOfDigitString(n / 10);
      assert s[..|s| - 1] == DigitString(n / 10);
    }
  }

  lemma DigitStringInjective(a: nat, b: nat)
    requires DigitString(a) == DigitString(b)
    ensures a == b
  {
    DigitsValueOfDigitString(a);
    DigitsValueOfDigitString(b);
  }

  /** `str(version)`: `major.minor`. */
  function VersionString(v: ReleaseVersion): string
  {
    DigitString(v.major) + "." + DigitString(v.minor)
  }

  /** One `deprecate(...)` call's arguments. */
  datatype Deprecation = Deprecation(deprecated: string, deprecatedVersion: ReleaseVersion,
                                     extraMessage: string, schedule: nat)

  /** What was deprecated, in which version, and when it goes. */
  function RemovalSentence(d: Deprecation): string
  {
    d.deprecated + " is deprecated in " + VersionString(d.deprecatedVersion)
    + " and scheduled to be removed in " + VersionString(RemovalVersion(d.deprecatedVersion, d.schedule))
  }

  /** The message a deprecation is logged with: the removal sentence, then
      the extra message. */
  function Message(d: Deprecation): string
  {
    RemovalSentence(d) + ". " + d.extraMessage
  }

  lemma MessageStartsWithRemovalSentence(d: Deprecation)
    ensures RemovalSentence(d) <= Message(d)
  {
    assert Message(d)[..|RemovalSentence(d)|] == RemovalSentence(d);
  }

  /** Two digit strings followed by text that does not start with a digit are
      equal only if the digit strings are. */
  lemma DigitsThenOtherDiffer(d1: string, r1: string, d2: string, r2: string)
    requires forall i :: 0 <= i < |d1| ==> IsDigit(d1[i])
    requires forall i :: 0 <= i < |d2| ==> IsDigit(d2[i])
    requires |r1| > 0 && !IsDigit(r1[0]) && |r2| > 0 && !IsDigit(r2[0])
    requires d1 != d2
    ensures d1 + r1 != d2 + r2
  {
    if |d1| == |d2| {
      var i :| 0 <= i < |d1| && d1[i] != d2[i];
      assert (d1 + r1)[i] != (d2 + r2)[i];
    } else if |d1| < |d2| {
      assert (d1 + r1)[|d1|] != (d2 + r2)[|d1|];
    } else {
      assert (d1 + r1)[|d2|] != (d2 + r2)[|d2|];
    }
  }

  /** A message is a fixed lead, the removal major version, and a tail that
      starts with the `.` before the removal minor version. */
  lemma MessageLayout(d: Deprecation)
    ensures Message(d)
         == (d.deprecated + " is deprecated in " + VersionString(d.deprecatedVersion) + " and scheduled to be removed in ")
            + (DigitString(RemovalVersion(d.deprecatedVersion, d.schedule).major)
               + ("." + DigitString(d.deprecatedVersion.minor) + ". " + d.extraMessage))
  {
  }

  /** Calls that differ only in their schedule are logged with different
      messages, so deduplication keeps both. */
  lemma ScheduleChangesMessage(d: Deprecation, schedule: nat)
    requires schedule != d.schedule
    ensures Message(d) != Message(d.(schedule := schedule))
  {
    var e := d.(schedule := schedule);
    var p := d.deprecated + " is deprecated in " + VersionString(d.deprecatedVersion)
             + " and scheduled to be removed in ";
    var m1 := DigitString(RemovalVersion(d.deprecatedVersion, d.schedule).major);
    var m2 := DigitString(RemovalVersion(d.deprecatedVersion, schedule).major);
    var tail := "." + DigitString(d.deprecatedVersion.minor) + ". " + d.extraMessage;
    MessageLayout(d);
    MessageLayout(e);
    if m1 == m2 {
      DigitStringInjective(RemovalVersion(d.deprecatedVersion, d.schedule).major,
                           RemovalVersion(d.deprecatedVersion, schedule).major);
    }
    DigitsThenOtherDiffer(m1, tail, m2, tail);
    assert (p + (m1 + tail))[|p|..] == m1 + tail;
    assert (p + (m2 + tail))[|p|..] == m2 + tail;
  }

  /** The record a call logs unless its message was logged before: the
      message at the level the boundary selects. */
  function Candidate(d: Deprecation, boundary: Version): LogRecord
  {
    LogRecord(DeprecationLevel(d.deprecatedVersion, boundary), Message(d))
  }

  /** The records a sequence of calls offers, one per call, in call order. */
  function Candidates(calls: seq<Deprecation>, boundary: Version): seq<LogRecord>
  {
    if calls == [] then [] else Candidates(calls[..|calls| - 1], boundary) + [Candidate(calls[|calls| - 1], boundary)]
  }

  /** The messages of a sequence of records. */
  function MessageSet(rs: seq<LogRecord>): (ms: set<string>)
    ensures forall i :: 0 <= i < |rs| ==> rs[i].message in ms
  {
    set i | 0 <= i < |rs| :: rs[i].message
  }

  lemma MessageSetSnoc(rs: seq<LogRecord>, r: LogRecord)
    ensures MessageSet(rs + [r]) == MessageSet(rs) + {r.message}
  {
    var all := rs + [r];
    forall m | m in MessageSet(all) ensures m in MessageSet(rs) + {r.message} {
      var i :| 0 <= i < |all| && all[i].message == m;
      if i < |rs| { assert all[i] == rs[i]; }
    }
    forall m | m in MessageSet(rs) ensures m in MessageSet(all) {
      var i :| 0 <= i < |rs| && rs[i].message == m;
      assert all[i] == rs[i];
    }
    assert all[|rs|] == r;
  }

  /** What a record contributes to the log, given the messages already
      logged: nothing if its message is among them, the record otherwise. */
  function Admitted(seen: set<string>, r: LogRecord): seq<LogRecord>
  {
    if r.message in seen then [] else [r]
  }

  /** The log that candidate records, offered in order, leave behind when the
      messages in `seen` were already logged. */
  function Deduplicated(seen: set<string>, rs: seq<LogRecord>): seq<LogRecord>
  {
    if rs == [] then []
    else
      var prior := rs[..|rs| - 1];
      Deduplicated(seen, prior) + Admitted(seen + MessageSet(prior), rs[|rs| - 1])
  }

  /** One more candidate adds what `Admitted` lets through, given every
      message offered before it. */
  lemma DeduplicatedSnoc(seen: set<string>, rs: seq<LogRecord>, r: LogRecord)
    ensures Deduplicated(seen, rs + [r]) == Deduplicated(seen, rs) + Admitted(seen + MessageSet(rs), r)
  {
    assert (rs + [r])[..|rs|] == rs;
  }

  /** Every message is logged exactly once if some candidate carries it and it
      was not already logged, and never otherwise. */
  lemma {:induction false} DeduplicatedOncePerMessage(seen: set<string>, rs: seq<LogRecord>, m: string)
    ensures multiset(Messages(Deduplicated(seen, rs)))[m]
         == if m !in seen && m in MessageSet(rs) then 1 else 0
  {
    if rs != [] {
      var prior := rs[..|rs| - 1];
      var r := rs[|rs| - 1];
      assert rs == prior + [r];
      DeduplicatedOncePerMessage(seen, prior, m);
      MessageSetSnoc(prior, r);
      MessagesAppend(Deduplicated(seen, prior), Admitted(seen + MessageSet(prior), r));
    }
  }

  /** Offering the last candidate again adds nothing to the log. */
  lemma RepeatedRecordAdmitsNothing(seen: set<string>, rs: seq<LogRecord>, r: LogRecord)
    ensures Deduplicated(seen, rs + [r, r]) == Deduplicated(seen, rs + [r])
  {
    assert rs + [r, r] == (rs + [r]) + [r];
    DeduplicatedSnoc(seen, rs + [r], r);
    assert (rs + [r])[|rs|] == r;
  }

  /** A record offered twice and then one with another message, on a fresh
      log, leave the first record once and the other one. */
  lemma RepeatThenOther(r1: LogRecord, r3: LogRecord)
    requires r1.message != r3.message
    ensures Deduplicated({}, [r1, r1, r3]) == [r1, r3]
  {
    DeduplicatedSnoc({}, [], r1);
    DeduplicatedSnoc({}, [r1], r1);
    DeduplicatedSnoc({}, [r1, r1], r3);
    MessageSetSnoc([], r1);
    MessageSetSnoc([r1], r1);
    assert [] + [r1] == [r1] && [r1] + [r1] == [r1, r1];
    assert [r1, r1] + [r3] == [r1, r1, r3];
  }

  /** The `deprecate.log` cache of messages already logged. */
  class DeprecationCache {
    var seen: set<string>

    /** An empty cache, as after the log is cleared. */
    constructor ()
      ensures seen == {}
    {
      seen := {};
    }

    /** `deprecate(deprecated=..., deprecated_version=..., extra_message=...,
        schedule=...)`, with the arguments in `d`: logs the deprecation
        message at the level the boundary selects, unless the same message
        was logged before. */
    method Deprecate(log: CapturedLog, d: Deprecation, boundary: Version)
      modifies this, log
      ensures seen == old(seen) + {Candidate(d, boundary).message}
      ensures log.records == old(log.records) + Admitted(old(seen), Candidate(d, boundary))
    {
      var message := Message(d);
      var level := DeprecationLevel(d.deprecatedVersion, boundary);
      if message !in seen {
        seen := seen + {message};
        log.Log(level, message);
      }
    }
  }

  /** The candidates of one call more are those of the calls before it and
      that call's own. */
  lemma CandidatesSnoc(calls: seq<Deprecation>, i: nat, boundary: Version)
    requires i < |calls|
    ensures Candidates(calls[..i + 1], boundary) == Candidates(calls[..i], boundary) + [Candidate(calls[i], boundary)]
  {
    assert calls[..i + 1][..i] == calls[..i];
  }

  /** One more candidate, offered to the cache and the log that the earlier
      candidates left, leaves the cache and the log all of them predict. */
  lemma AdmitStep(seen0: set<string>, log0: seq<LogRecord>, done: seq<LogRecord>, r: LogRecord,
                  seenBefore: set<string>, logBefore: seq<LogRecord>,
                  seenAfter: set<string>, logAfter: seq<LogRecord>)
    requires seenBefore == seen0 + MessageSet(done)
    requires logBefore == log0 + Deduplicated(seen0, done)
    requires seenAfter == seenBefore + {r.message}
    requires logAfter == logBefore + Admitted(seenBefore, r)
    ensures seenAfter == seen0 + MessageSet(done + [r])
    ensures logAfter == log0 + Deduplicated(seen0, done + [r])
  {
    MessageSetSnoc(done, r);
    DeduplicatedSnoc(seen0, done, r);
    assert logAfter == log0 + (Deduplicated(seen0, done) + Admitted(seen0 + MessageSet(done), r));
  }

  /** A sequence of `deprecate` calls against one cache and one boundary:
      the log gains exactly the deduplicated candidates of the calls, and the
      cache every message they carry. */
  method DeprecateEach(cache: DeprecationCache, log: CapturedLog, calls: seq<Deprecation>, boundary: Version)
    modifies cache, log
    ensures cache.seen == old(cache.seen) + MessageSet(Candidates(calls, boundary))
    ensures log.records == old(log.records) + Deduplicated(old(cache.seen), Candidates(calls, boundary))
  {
    ghost var seen0, log0 := cache.seen, log.records;
    for i := 0 to |calls|
      invariant cache.seen == seen0 + MessageSet(Candidates(calls[..i], boundary))
      invariant log.records == log0 + Deduplicated(seen0, Candidates(calls[..i], boundary))
    {
      ghost var seenBefore, logBefore := cache.seen, log.records;
      cache.Deprecate(log, calls[i], boundary);
      CandidatesSnoc(calls, i, boundary);
      AdmitStep(seen0, log0, Candidates(calls[..i], boundary), Candidate(calls[i], boundary),
                seenBefore, logBefore, cache.seen, log.records);
    }
    assert calls[..|calls|] == calls;
  }

  /** With the default schedule, an item deprecated in 19.2 is scheduled to
      be removed in 24.2. */
  lemma DefaultScheduleRemoval(extraMessage: string)
    ensures "some key" + " is deprecated in " + "19.2" + " and scheduled to be removed in " + "24.2"
            <= Message(Deprecation("some key", Release(19, 2), extraMessage, DefaultSchedule))
  {
    var d := Deprecation("some key", Release(19, 2), extraMessage, DefaultSchedule);
    assert DigitString(19) == "19" by { assert DigitString(1) == "1"; }
    assert DigitString(24) == "24" by { assert DigitString(2) == "2"; }
    assert VersionString(Release(19, 2)) == "19.2" by { assert DigitString(2) == "2"; }
    assert VersionString(RemovalVersion(Release(19, 2), DefaultSchedule)) == "24.2" by { assert DigitString(2) == "2"; }
  }

  /** The level tests: "some key" deprecated in 19.2 is logged at DEPRECATED
      when the boundary is 19.2, at INFO when it is 19.1, with a message that
      names 24.2 as its removal version. */
  method DeprecateLevelScenario(boundary: Version) returns (levelName: string, message: string)
    requires boundary == Release(19, 2) || boundary == Release(19, 1)
    ensures levelName == if boundary == Release(19, 2) then "DEPRECATED" else "INFO"
    ensures "some key" + " is deprecated in " + "19.2" + " and scheduled to be removed in " + "24.2" <= message
  {
    var cache := new DeprecationCache();
    var log := new CapturedLog();
    cache.Deprecate(log, Deprecation("some key", Release(19, 2), "dont use it", DefaultSchedule), boundary);
    DefaultScheduleRemoval("dont use it");
    levelName := LevelName(log.records[0].level);
    message := log.records[0].message;
  }

  /** The deduplication test: the same call twice and once more with another
      schedule give two records, the ones `Deduplicated` predicts for the
      three calls. */
  method DeduplicationScenario(boundary: Version) returns (records: seq<LogRecord>)
    ensures records == Deduplicated({}, [Candidate(Deprecation("stuff", Release(19, 1), ":)", DefaultSchedule), boundary),
                                         Candidate(Deprecation("stuff", Release(19, 1), ":)", DefaultSchedule), boundary),
                                         Candidate(Deprecation("stuff", Release(19, 1), ":)", 6), boundary)])
    ensures |records| == 2
  {
    var first := Deprecation("stuff", Release(19, 1), ":)", DefaultSchedule);
    var third := Deprecation("stuff", Release(19, 1), ":)", 6);
    ghost var r1, r3 := Candidate(first, boundary), Candidate(third, boundary);
    ScheduleChangesMessage(first, 6);
    assert r1.message != r3.message;
    var cache := new DeprecationCache();
    var log := new CapturedLog();
    cache.Deprecate(log, first, boundary);
    assert log.records == [r1] && cache.seen == {r1.message};
    cache.Deprecate(log, first, boundary);
    assert log.records == [r1] && cache.seen == {r1.message};
    cache.Deprecate(log, third, boundary);
    assert log.records == [r1, r3];
    records := log.records;
    RepeatThenOther(r1, r3);
  }
}
