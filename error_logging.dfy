/** The bounded daily error-log store (`ErrorLoggingService`).

    Log entries are kept in day buckets keyed by the `YYYY-MM-DD` part of their
    timestamp, newest entry first, with running counters per bucket. A bucket
    holds at most 100 entries and at most 30 buckets are kept. Every change
    writes the whole bucket list to browser storage, best effort. */
module ErrorLogging {
  import opened Strings

  const StorageKey := "app_error_logs"
  const MaxDailyEntries := 100
  const MaxDays := 30

  datatype Level = Error | Warn | Info | Debug

  /** A JavaScript value, as far as the service looks at it. */
  datatype Value = Undefined | Null | Bool(b: bool) | Num(n: int) | Str(s: string) | Object

  /** JavaScript truthiness (NaN is not modelled). */
  predicate Truthy(v: Value) {
    match v
    case Undefined => false
    case Null => false
    case Bool(b) => b
    case Num(n) => n != 0
    case Str(s) => s != ""
    case Object => true
  }

  /** `Record<string, unknown>` additional data. */
  type Data = map<string, Value>

  /** `data?.[key]`: undefined when the record or the key is missing. */
  function Lookup(data: Option<Data>, key: string): Value {
    if data.Some? && key in data.value then data.value[key] else Undefined
  }

  /** An `ErrorLogEntry`; `timestamp` is the ISO-8601 text of the entry's time. */
  datatype LogEntry = LogEntry(
    id: string,
    timestamp: string,
    level: Level,
    message: string,
    stack: Option<Value>,
    url: string,
    userAgent: string,
    additionalData: Option<Data>)

  /** A `DailyErrorLog` bucket. */
  datatype DailyLog = DailyLog(
    date: string,
    entries: seq<LogEntry>,
    totalCount: nat,
    errorCount: nat,
    warningCount: nat)

  /** `formatDate`: the part of the ISO text before the first 'T'. */
  function FormatDate(timestamp: string): (d: string)
    ensures d <= timestamp && 'T' !in d
  {
    BeforeFirst(timestamp, 'T')
  }

  lemma FormatDateOfIso(day: string, time: string)
    requires 'T' !in day
    ensures FormatDate(day + "T" + time) == day
  {
    BeforeFirstJoin(day, 'T', time);
  }

  /** The entry `logError` builds: the stack is copied out of the additional
      data only for level `'error'` and only when that stack is truthy. */
  function MakeEntry(id: string, timestamp: string, level: Level, message: string,
                     url: string, userAgent: string, additionalData: Option<Data>): (e: LogEntry)
    ensures e.stack.Some? <==> level == Error && Truthy(Lookup(additionalData, "stack"))
    ensures e.stack.Some? ==> e.stack.value == Lookup(additionalData, "stack")
    ensures e.id == id && e.timestamp == timestamp && e.level == level && e.message == message
    ensures e.url == url && e.userAgent == userAgent && e.additionalData == additionalData
  {
    var stack := Lookup(additionalData, "stack");
    LogEntry(id, timestamp, level, message,
             if level == Error && Truthy(stack) then Some(stack) else None,
             url, userAgent, additionalData)
  }

  /** The additional data `logErrorWithStack` passes on: `stack` and `name`
      of the error, overridden by the caller's own keys (object spread). */
  function StackData(stack: Value, name: Value, additionalData: Option<Data>): (d: Data)
    ensures "stack" in d && "name" in d
    ensures additionalData.Some? ==> forall k :: k in additionalData.value ==> k in d && d[k] == additionalData.value[k]
    ensures additionalData.None? || "stack" !in additionalData.value ==> d["stack"] == stack
    ensures forall k :: k in d ==> k == "stack" || k == "name" || (additionalData.Some? && k in additionalData.value)
  {
    map["stack" := stack, "name" := name] + (if additionalData.Some? then additionalData.value else map[])
  }

  function EmptyLog(date: string): DailyLog {
    DailyLog(date, [], 0, 0, 0)
  }

  function CapEntries(entries: seq<LogEntry>): (r: seq<LogEntry>)
    ensures |r| <= MaxDailyEntries
    ensures r == entries[..if |entries| > MaxDailyEntries then MaxDailyEntries else |entries|]
  {
    if |entries| > MaxDailyEntries then entries[..MaxDailyEntries] else entries
  }

  /** What `addLogEntry` does to the bucket of the entry's day: the entry goes
      in front, the counters move, and the list is cut back to 100. */
  function Record(b: DailyLog, e: LogEntry): (r: DailyLog)
    ensures r.date == b.date
    ensures |r.entries| >= 1 && r.entries[0] == e
    ensures |r.entries| == if |b.entries| < MaxDailyEntries then |b.entries| + 1 else MaxDailyEntries
    ensures r.entries[1..] == b.entries[..|r.entries| - 1]
    ensures r.totalCount == b.totalCount + 1
    ensures r.errorCount == b.errorCount + (if e.level == Error then 1 else 0)
    ensures r.warningCount == b.warningCount + (if e.level == Warn then 1 else 0)
  {
    var entries := CapEntries([e] + b.entries);
    assert entries[1..] == b.entries[..|entries| - 1];
    DailyLog(b.date, entries,
             b.totalCount + 1,
             b.errorCount + (if e.level == Error then 1 else 0),
             b.warningCount + (if e.level == Warn then 1 else 0))
  }

  /** Index of the first bucket dated `d` (`find`), or `|logs|` if none. */
  function IndexOfDate(logs: seq<DailyLog>, d: string): (i: nat)
    ensures i <= |logs|
    ensures i < |logs| ==> logs[i].date == d
    ensures forall j :: 0 <= j < i ==> logs[j].date != d
  {
    if logs == [] then 0
    else if logs[0].date == d then 0
    else 1 + IndexOfDate(logs[1..], d)
  }

  /** `getLogsForDate`: the first bucket dated `d`, if any. */
  function FindLog(logs: seq<DailyLog>, d: string): (r: Option<DailyLog>)
    ensures r.Some? ==> r.value in logs && r.value.date == d
    ensures r.Some? ==> IndexOfDate(logs, d) < |logs| && r.value == logs[IndexOfDate(logs, d)]
    ensures r.None? <==> forall b :: b in logs ==> b.date != d
  {
    var i := IndexOfDate(logs, d);
    if i < |logs| then Some(logs[i]) else None
  }

  /** The bucket that receives an entry dated `d`: the existing one, or a
      fresh one with all three counters at 0. */
  function Bucket(logs: seq<DailyLog>, d: string): DailyLog {
    var i := IndexOfDate(logs, d);
    if i < |logs| then logs[i] else EmptyLog(d)
  }

  /** The bucket list after the entry is recorded, before the 30-day limit. */
  function Inserted(logs: seq<DailyLog>, e: LogEntry): (r: seq<DailyLog>)
    ensures |r| == |logs| || |r| == |logs| + 1
  {
    var d := FormatDate(e.timestamp);
    var i := IndexOfDate(logs, d);
    if i < |logs| then logs[i := Record(logs[i], e)] else logs + [Record(EmptyLog(d), e)]
  }

  /** Insertion of one bucket into a list sorted newest date first; a bucket
      goes before the buckets of the same date, so the sort is stable. */
  function InsertByDate(x: DailyLog, s: seq<DailyLog>): (r: seq<DailyLog>)
    ensures |r| == |s| + 1
  {
    if s == [] then [x]
    else if Le(s[0].date, x.date) then [x] + s
    else [s[0]] + InsertByDate(x, s[1..])
  }

  /** `logs.sort((a, b) => b.date.localeCompare(a.date))`: a stable sort,
      newest date first. */
  function SortByDateDesc(s: seq<DailyLog>): (r: seq<DailyLog>)
    ensures |r| == |s|
  {
    if s == [] then [] else InsertByDate(s[0], SortByDateDesc(s[1..]))
  }

  predicate NewestFirst(s: seq<DailyLog>) {
    forall i, j :: 0 <= i < j < |s| ==> Le(s[j].date, s[i].date)
  }

  /** The 30-day limit: more than 30 buckets are sorted and cut to the 30
      newest; otherwise the insertion order stays. */
  function Retained(logs: seq<DailyLog>): seq<DailyLog> {
    if |logs| > MaxDays then SortByDateDesc(logs)[..MaxDays] else logs
  }

  /** The bucket list after `addLogEntry(e)`: never more than 30 days, and
      below the limit the order of the buckets is kept. */
  function WithEntry(logs: seq<DailyLog>, e: LogEntry): (r: seq<DailyLog>)
    ensures |r| <= MaxDays
    ensures |r| <= |logs| + 1
  {
    Retained(Inserted(logs, e))
  }

  /** `logs.filter(log => log.date !== d)` */
  function WithoutDate(logs: seq<DailyLog>, d: string): (r: seq<DailyLog>)
    ensures |r| <= |logs|
    ensures forall b :: b in r <==> b in logs && b.date != d
  {
    if logs == [] then []
    else if logs[0].date == d then WithoutDate(logs[1..], d)
    else [logs[0]] + WithoutDate(logs[1..], d)
  }

  function Dates(logs: seq<DailyLog>): (r: seq<string>)
    ensures |r| == |logs| && forall i :: 0 <= i < |logs| ==> r[i] == logs[i].date
  {
    seq(|logs|, i requires 0 <= i < |logs| => logs[i].date)
  }

  function InsertString(x: string, s: seq<string>): seq<string> {
    if s == [] then [x]
    else if Le(x, s[0]) then [x] + s
    else [s[0]] + InsertString(x, s[1..])
  }

  /** The default `sort()` on strings: code-unit order, ascending. */
  function SortStrings(s: seq<string>): seq<string> {
    if s == [] then [] else InsertString(s[0], SortStrings(s[1..]))
  }

  function Reverse(s: seq<string>): (r: seq<string>)
    ensures |r| == |s| && forall i :: 0 <= i < |s| ==> r[i] == s[|s| - 1 - i]
  {
    seq(|s|, i requires 0 <= i < |s| => s[|s| - 1 - i])
  }

  /** `getAvailableDates`: every bucket date, sorted and then reversed; the
      result holds the bucket dates, each as often as it occurs. */
  function AvailableDates(logs: seq<DailyLog>): (r: seq<string>)
    ensures multiset(r) == multiset(Dates(logs))
  {
    SortStringsSorted(Dates(logs));
    ReverseMultiset(SortStrings(Dates(logs)));
    Reverse(SortStrings(Dates(logs)))
  }

  predicate Ascending(s: seq<string>) {
    forall i, j :: 0 <= i < j < |s| ==> Le(s[i], s[j])
  }

  predicate Descending(s: seq<string>) {
    forall i, j :: 0 <= i < j < |s| ==> Le(s[j], s[i])
  }

  predicate AllCapped(logs: seq<DailyLog>) {
    forall b :: b in logs ==> |b.entries| <= MaxDailyEntries
  }

  predicate DistinctDates(logs: seq<DailyLog>) {
    forall i, j :: 0 <= i < j < |logs| ==> logs[i].date != logs[j].date
  }

  // ---------------------------------------------------------------------
  // Sorting lemmas

  lemma {:induction false} InsertByDateSorted(x: DailyLog, s: seq<DailyLog>)
    requires NewestFirst(s)
    ensures NewestFirst(InsertByDate(x, s))
    ensures multiset(InsertByDate(x, s)) == multiset(s) + multiset{x}
  {
    if s == [] {
    } else if Le(s[0].date, x.date) {
      var r := [x] + s;
      forall i, j | 0 <= i < j < |r| ensures Le(r[j].date, r[i].date) {
        if i == 0 && j > 1 {
          LeTransitive(s[j - 1].date, s[0].date, x.date);
        }
      }
    } else {
      LeTotal(s[0].date, x.date);
      var t := InsertByDate(x, s[1..]);
      InsertByDateSorted(x, s[1..]);
      var r := [s[0]] + t;
      forall i, j | 0 <= i < j < |r| ensures Le(r[j].date, r[i].date) {
        if i == 0 {
          assert r[j] in multiset(t);
          if r[j] != x {
            assert r[j] in multiset(s[1..]);
            var k :| 0 <= k < |s[1..]| && s[1..][k] == r[j];
            assert s[k + 1] == r[j];
          }
        }
      }
      assert s == [s[0]] + s[1..];
    }
  }

  lemma {:induction false} SortByDateDescSorted(s: seq<DailyLog>)
    ensures NewestFirst(SortByDateDesc(s))
    ensures multiset(SortByDateDesc(s)) == multiset(s)
  {
    if s != [] {
      SortByDateDescSorted(s[1..]);
      InsertByDateSorted(s[0], SortByDateDesc(s[1..]));
      assert s == [s[0]] + s[1..];
    }
  }

  lemma {:induction false} InsertStringSorted(x: string, s: seq<string>)
    requires Ascending(s)
    ensures Ascending(InsertString(x, s))
    ensures multiset(InsertString(x, s)) == multiset(s) + multiset{x}
  {
    if s == [] {
    } else if Le(x, s[0]) {
      var r := [x] + s;
      forall i, j | 0 <= i < j < |r| ensures Le(r[i], r[j]) {
        if i == 0 && j > 1 {
          LeTransitive(x, s[0], s[j - 1]);
        }
      }
    } else {
      LeTotal(x, s[0]);
      var t := InsertString(x, s[1..]);
      InsertStringSorted(x, s[1..]);
      var r := [s[0]] + t;
      forall i, j | 0 <= i < j < |r| ensures Le(r[i], r[j]) {
        if i == 0 {
          assert r[j] in multiset(t);
          if r[j] != x {
            assert r[j] in multiset(s[1..]);
            var k :| 0 <= k < |s[1..]| && s[1..][k] == r[j];
            assert s[k + 1] == r[j];
          }
        }
      }
      assert s == [s[0]] + s[1..];
    }
  }

  lemma {:induction false} SortStringsSorted(s: seq<string>)
    ensures Ascending(SortStrings(s))
    ensures multiset(SortStrings(s)) == multiset(s)
  {
    if s != [] {
      SortStringsSorted(s[1..]);
      InsertStringSorted(s[0], SortStrings(s[1..]));
      assert s == [s[0]] + s[1..];
    }
  }

  // ---------------------------------------------------------------------
  // Properties of the store

  /** `getAvailableDates` lists every bucket date, newest first. */
  lemma AvailableDatesNewestFirst(logs: seq<DailyLog>)
    ensures Descending(AvailableDates(logs))
    ensures multiset(AvailableDates(logs)) == multiset(Dates(logs))
  {
    var sorted := SortStrings(Dates(logs));
    SortStringsSorted(Dates(logs));
    var r := Reverse(sorted);
    forall i, j | 0 <= i < j < |r| ensures Le(r[j], r[i]) {
      assert r[j] == sorted[|sorted| - 1 - j] && r[i] == sorted[|sorted| - 1 - i];
    }
    ReverseMultiset(sorted);
  }

  lemma {:induction false} ReverseMultiset(s: seq<string>)
    ensures multiset(Reverse(s)) == multiset(s)
  {
    if s != [] {
      var last := s[|s| - 1];
      var init := s[..|s| - 1];
      ReverseMultiset(init);
      assert Reverse(s) == [last] + Reverse(init);
      assert s == init + [last];
    }
  }

  /** Within the 30-day limit, the entry lands in front of its day's bucket,
      which is found by `getLogsForDate` and carries the updated counters. */
  lemma RecordedWithinLimit(logs: seq<DailyLog>, e: LogEntry)
    requires |Inserted(logs, e)| <= MaxDays
    ensures var d := FormatDate(e.timestamp);
      FindLog(WithEntry(logs, e), d) == Some(Record(Bucket(logs, d), e))
  {
    var d := FormatDate(e.timestamp);
    var i := IndexOfDate(logs, d);
    var r := Inserted(logs, e);
    assert forall j :: 0 <= j < i ==> r[j] == logs[j];
    assert r[i] == Record(Bucket(logs, d), e) && r[i].date == d;
    var k := IndexOfDate(r, d);
    assert k == i;
  }

  /** Within the 30-day limit, every other bucket stays where it was. */
  lemma OtherBucketsKept(logs: seq<DailyLog>, e: LogEntry)
    requires |Inserted(logs, e)| <= MaxDays
    ensures var r := WithEntry(logs, e); var i := IndexOfDate(logs, FormatDate(e.timestamp));
      && |r| == (if i < |logs| then |logs| else |logs| + 1)
      && forall j :: 0 <= j < |logs| && j != i ==> r[j] == logs[j]
  {
  }

  lemma {:induction false} InsertByDateMembers(x: DailyLog, s: seq<DailyLog>)
    ensures forall b :: b in InsertByDate(x, s) <==> b == x || b in s
  {
    if s != [] && !Le(s[0].date, x.date) {
      InsertByDateMembers(x, s[1..]);
      assert s == [s[0]] + s[1..];
    }
  }

  lemma {:induction false} SortMembers(s: seq<DailyLog>)
    ensures forall b :: b in SortByDateDesc(s) <==> b in s
  {
    if s != [] {
      SortMembers(s[1..]);
      InsertByDateMembers(s[0], SortByDateDesc(s[1..]));
      assert s == [s[0]] + s[1..];
    }
  }

  /** Past the 30-day limit, the list is the 30 newest buckets, newest first;
      in every case no more than 30 buckets remain. */
  lemma DaysLimited(logs: seq<DailyLog>, e: LogEntry)
    ensures |WithEntry(logs, e)| <= MaxDays
    ensures var all := Inserted(logs, e); |all| > MaxDays ==>
      var sorted := SortByDateDesc(all);
      && multiset(sorted) == multiset(all)
      && WithEntry(logs, e) == sorted[..MaxDays]
      && NewestFirst(WithEntry(logs, e))
      && forall i, j :: 0 <= i < MaxDays <= j < |sorted| ==> Le(sorted[j].date, sorted[i].date)
  {
    var all := Inserted(logs, e);
    if |all| > MaxDays {
      SortByDateDescSorted(all);
    }
  }

  /** Every bucket stays within 100 entries. */
  lemma EntriesCapped(logs: seq<DailyLog>, e: LogEntry)
    requires AllCapped(logs)
    ensures AllCapped(WithEntry(logs, e))
  {
    var all := Inserted(logs, e);
    var d := FormatDate(e.timestamp);
    var i := IndexOfDate(logs, d);
    forall b | b in all ensures |b.entries| <= MaxDailyEntries {
      var k :| 0 <= k < |all| && all[k] == b;
      if k != i {
        assert b == logs[k];
      }
    }
    if |all| > MaxDays {
      SortMembers(all);
      var kept := SortByDateDesc(all)[..MaxDays];
      forall b | b in kept ensures b in all {
        assert b in SortByDateDesc(all);
      }
    }
  }

  /** With distinct bucket dates, a bucket of the entry's day that survives
      the 30-day limit is the recorded one, whatever the limit removed. */
  lemma SurvivingBucketIsRecorded(logs: seq<DailyLog>, e: LogEntry)
    requires DistinctDates(logs)
    ensures var d := FormatDate(e.timestamp);
      forall b :: b in WithEntry(logs, e) && b.date == d ==> b == Record(Bucket(logs, d), e)
  {
    var d := FormatDate(e.timestamp);
    var all := Inserted(logs, e);
    var i := IndexOfDate(logs, d);
    forall b | b in all && b.date == d ensures b == Record(Bucket(logs, d), e) {
      var k :| 0 <= k < |all| && all[k] == b;
      assert k == i;
    }
    if |all| > MaxDays {
      SortMembers(all);
      forall b | b in SortByDateDesc(all)[..MaxDays] ensures b in all {
        assert b in SortByDateDesc(all);
      }
    }
  }

  /** Inserting a bucket of a new date keeps the dates distinct. */
  lemma {:induction false} InsertByDateKeepsDistinct(x: DailyLog, s: seq<DailyLog>)
    requires DistinctDates(s)
    requires forall b :: b in s ==> b.date != x.date
    ensures DistinctDates(InsertByDate(x, s))
  {
    if s == [] {
    } else if Le(s[0].date, x.date) {
      var r := [x] + s;
      forall a, b | 0 <= a < b < |r| ensures r[a].date != r[b].date {
        assert r[b] == s[b - 1];
        if a > 0 {
          assert r[a] == s[a - 1];
        }
      }
    } else {
      var t := InsertByDate(x, s[1..]);
      InsertByDateKeepsDistinct(x, s[1..]);
      InsertByDateMembers(x, s[1..]);
      var r := [s[0]] + t;
      forall a, b | 0 <= a < b < |r| ensures r[a].date != r[b].date {
        if a == 0 {
          assert r[b] == t[b - 1] && r[b] in t;
          if r[b] != x {
            var k :| 0 <= k < |s[1..]| && s[1..][k] == r[b];
            assert s[k + 1] == r[b];
          }
        } else {
          assert r[a] == t[a - 1] && r[b] == t[b - 1];
        }
      }
    }
  }

  lemma {:induction false} SortKeepsDistinctDates(s: seq<DailyLog>)
    requires DistinctDates(s)
    ensures DistinctDates(SortByDateDesc(s))
  {
    if s != [] {
      assert DistinctDates(s[1..]) by {
        forall a, b | 0 <= a < b < |s[1..]| ensures s[1..][a].date != s[1..][b].date {
          assert s[1..][a] == s[a + 1] && s[1..][b] == s[b + 1];
        }
      }
      SortKeepsDistinctDates(s[1..]);
      SortMembers(s[1..]);
      forall b | b in SortByDateDesc(s[1..]) ensures b.date != s[0].date {
        var k :| 0 <= k < |s[1..]| && s[1..][k] == b;
        assert s[k + 1] == b;
      }
      InsertByDateKeepsDistinct(s[0], SortByDateDesc(s[1..]));
    }
  }

  /** `addLogEntry` keeps one bucket per date, so starting from an empty or
      a distinct list, every reachable list has distinct dates. */
  lemma WithEntryKeepsDistinctDates(logs: seq<DailyLog>, e: LogEntry)
    requires DistinctDates(logs)
    ensures DistinctDates(WithEntry(logs, e))
  {
    var all := Inserted(logs, e);
    var d := FormatDate(e.timestamp);
    var i := IndexOfDate(logs, d);
    forall a, b | 0 <= a < b < |all| ensures all[a].date != all[b].date {
      if b < |logs| {
        assert all[a].date == logs[a].date && all[b].date == logs[b].date;
      } else {
        assert all[b].date == d && all[a] == logs[a];
      }
    }
    if |all| > MaxDays {
      SortKeepsDistinctDates(all);
      var sorted := SortByDateDesc(all);
      forall a, b | 0 <= a < b < MaxDays ensures sorted[..MaxDays][a].date != sorted[..MaxDays][b].date {
        assert sorted[..MaxDays][a] == sorted[a] && sorted[..MaxDays][b] == sorted[b];
      }
    }
  }

  /** `clearLogsForDate` keeps the dates distinct too. */
  lemma {:induction false} WithoutDateKeepsDistinctDates(logs: seq<DailyLog>, d: string)
    requires DistinctDates(logs)
    ensures DistinctDates(WithoutDate(logs, d))
  {
    if logs != [] {
      assert DistinctDates(logs[1..]) by {
        forall a, b | 0 <= a < b < |logs[1..]| ensures logs[1..][a].date != logs[1..][b].date {
          assert logs[1..][a] == logs[a + 1] && logs[1..][b] == logs[b + 1];
        }
      }
      WithoutDateKeepsDistinctDates(logs[1..], d);
      if logs[0].date != d {
        var t := WithoutDate(logs[1..], d);
        var r := [logs[0]] + t;
        forall a, b | 0 <= a < b < |r| ensures r[a].date != r[b].date {
          if a == 0 {
            assert r[b] == t[b - 1] && r[b] in t;
            var k :| 0 <= k < |logs[1..]| && logs[1..][k] == r[b];
            assert logs[k + 1] == r[b];
          } else {
            assert r[a] == t[a - 1] && r[b] == t[b - 1];
          }
        }
      }
    }
  }

  /** `clearLogsForDate(d)` removes exactly the buckets dated `d` and keeps
      the others in their order. */
  lemma {:induction false} ClearDateKeepsOrder(a: seq<DailyLog>, b: seq<DailyLog>, d: string)
    ensures WithoutDate(a + b, d) == WithoutDate(a, d) + WithoutDate(b, d)
  {
    if a != [] {
      assert (a + b)[0] == a[0] && (a + b)[1..] == a[1..] + b;
      ClearDateKeepsOrder(a[1..], b, d);
    } else {
      assert a + b == b;
    }
  }

  lemma {:induction false} ClearAbsentDate(logs: seq<DailyLog>, d: string)
    requires forall b :: b in logs ==> b.date != d
    ensures WithoutDate(logs, d) == logs
  {
    if logs != [] {
      ClearAbsentDate(logs[1..], d);
    }
  }

  // ---------------------------------------------------------------------
  // The service

  /** What browser storage holds under `StorageKey`. */
  datatype Snapshot = Absent | Unreadable | Saved(logs: seq<DailyLog>)

  class ErrorLoggingService {
    /** `environment.enableErrorLogging` */
    const enabled: bool
    /** The value held by `logsSubject`. */
    var logs: seq<DailyLog>
    /** Browser storage under `StorageKey`. */
    var stored: Snapshot

    /** Construction loads the snapshot (`loadLogsFromStorage`); a missing or
        unreadable snapshot leaves the list empty. */
    constructor (enabled: bool, stored: Snapshot)
      ensures this.enabled == enabled && this.stored == stored
      ensures logs == if stored.Saved? then stored.logs else []
    {
      this.enabled := enabled;
      this.stored := stored;
      logs := [];
      new;
      if stored.Saved? {
        logs := stored.logs;
      }
    }

    /** `saveLogsToStorage`: a failed write (`writable` false) is swallowed. */
    method SaveLogsToStorage(writable: bool)
      modifies this`stored
      ensures stored == if writable then Saved(logs) else old(stored)
    {
      if writable {
        stored := Saved(logs);
      }
    }

    method LogError(level: Level, message: string, additionalData: Option<Data>,
                    id: string, timestamp: string, url: string, userAgent: string, writable: bool)
      modifies this`logs, this`stored
      ensures !enabled ==> logs == old(logs) && stored == old(stored)
      ensures enabled ==>
        && logs == WithEntry(old(logs), MakeEntry(id, timestamp, level, message, url, userAgent, additionalData))
        && stored == (if writable then Saved(logs) else old(stored))
    {
      if !enabled {
        return;
      }
      var entry := MakeEntry(id, timestamp, level, message, url, userAgent, additionalData);
      AddLogEntry(entry, writable);
    }

    method LogErrorWithStack(message: string, stack: Value, name: Value, additionalData: Option<Data>,
                             id: string, timestamp: string, url: string, userAgent: string, writable: bool)
      modifies this`logs, this`stored
      ensures !enabled ==> logs == old(logs) && stored == old(stored)
      ensures enabled ==>
        && logs == WithEntry(old(logs), MakeEntry(id, timestamp, Error, message, url, userAgent,
                                                  Some(StackData(stack, name, additionalData))))
        && stored == (if writable then Saved(logs) else old(stored))
    {
      LogError(Error, message, Some(StackData(stack, name, additionalData)), id, timestamp, url, userAgent, writable);
    }

    method AddLogEntry(entry: LogEntry, writable: bool)
      modifies this`logs, this`stored
      ensures logs == WithEntry(old(logs), entry)
      ensures stored == if writable then Saved(logs) else old(stored)
    {
      var d := FormatDate(entry.timestamp);
      var list := logs;
      var i := 0;
      while i < |list| && list[i].date != d
        invariant i <= |list|
        invariant forall j :: 0 <= j < i ==> list[j].date != d
      {
        i := i + 1;
      }
      assert i == IndexOfDate(logs, d);
      if i == |list| {
        list := list + [EmptyLog(d)];
      }
      var bucket := list[i];
      var entries := [entry] + bucket.entries;
      var total, errors, warnings := bucket.totalCount + 1, bucket.errorCount, bucket.warningCount;
      if entry.level == Error {
        errors := errors + 1;
      } else if entry.level == Warn {
        warnings := warnings + 1;
      }
      if |entries| > MaxDailyEntries {
        entries := entries[..MaxDailyEntries];
      }
      list := list[i := DailyLog(d, entries, total, errors, warnings)];
      assert list == Inserted(logs, entry);
      if |list| > MaxDays {
        list := SortByDateDesc(list)[..MaxDays];
      }
      logs := list;
      SaveLogsToStorage(writable);
    }

    method ClearLogsForDate(d: string, writable: bool)
      modifies this`logs, this`stored
      ensures logs == WithoutDate(old(logs), d)
      ensures stored == if writable then Saved(logs) else old(stored)
    {
      logs := WithoutDate(logs, d);
      SaveLogsToStorage(writable);
    }

    method ClearAllLogs(writable: bool)
      modifies this`logs, this`stored
      ensures logs == []
      ensures stored == if writable then Saved([]) else old(stored)
    {
      logs := [];
      SaveLogsToStorage(writable);
    }

    /** `getLogsForDate`: the first bucket dated `d`, as `find` returns it. */
    function GetLogsForDate(d: string): (r: Option<DailyLog>)
      reads this
      ensures r.Some? ==> r.value in logs && r.value.date == d
      ensures r.Some? ==> exists i :: 0 <= i < |logs| && r.value == logs[i] && forall j :: 0 <= j < i ==> logs[j].date != d
      ensures r.None? <==> forall b :: b in logs ==> b.date != d
    {
      FindLog(logs, d)
    }

    function GetAvailableDates(): (r: seq<string>)
      reads this
      ensures Descending(r) && multiset(r) == multiset(Dates(logs))
    {
      AvailableDatesNewestFirst(logs);
      AvailableDates(logs)
    }
  }
}
