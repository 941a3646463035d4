/**
 * The system log page: the list shown under a level filter, and the count
 * of entries of each level.
 */
module Logs {
  import opened Common

  /** A log entry; only its level matters here. */
  datatype LogEntry = LogEntry(level: string, message: string)

  function Level(entry: LogEntry): string { entry.level }

  /** The levels the page counts. */
  const CountedLevels: seq<string> := ["error", "warning", "info", "debug"]

  /** The entries shown: all of them under the filter "all", otherwise those
      whose level is the filter, in their original order. */
  function FilteredLogs(logs: seq<LogEntry>, filter: string): seq<LogEntry>
  {
    Filter(logs, (entry: LogEntry) => filter == "all" || entry.level == filter)
  }

  datatype LogCounts = LogCounts(total: nat, error: nat, warning: nat, info: nat, debug: nat)

  function CountLevel(logs: seq<LogEntry>, level: string): nat
  {
    |Filter(logs, (entry: LogEntry) => entry.level == level)|
  }

  function Counts(logs: seq<LogEntry>): LogCounts
  {
    LogCounts(|logs|, CountLevel(logs, "error"), CountLevel(logs, "warning"),
              CountLevel(logs, "info"), CountLevel(logs, "debug"))
  }

  /** The filter "all" shows every entry, in order. */
  lemma AllShowsEverything(logs: seq<LogEntry>)
    ensures FilteredLogs(logs, "all") == logs
  {
    FilterKeepsAll(logs, (entry: LogEntry) => "all" == "all" || entry.level == "all");
  }

  /** Any other filter shows the entries of that level and no other, as many
      as there are, and filtering a concatenation filters each part, so the
      original order is kept. */
  lemma LevelFilterExact(logs: seq<LogEntry>, more: seq<LogEntry>, filter: string)
    requires filter != "all"
    ensures forall e :: e in FilteredLogs(logs, filter) ==> e.level == filter && e in logs
    ensures forall e :: e in logs && e.level == filter ==> e in FilteredLogs(logs, filter)
    ensures |FilteredLogs(logs, filter)| == CountOf(logs, Level, filter)
    ensures FilteredLogs(logs + more, filter) == FilteredLogs(logs, filter) + FilteredLogs(more, filter)
  {
    var p := (entry: LogEntry) => filter == "all" || entry.level == filter;
    forall e | e in FilteredLogs(logs, filter) ensures e.level == filter && e in logs {
      var i :| 0 <= i < |FilteredLogs(logs, filter)| && FilteredLogs(logs, filter)[i] == e;
    }
    forall e | e in logs && e.level == filter ensures e in FilteredLogs(logs, filter) {
      var i :| 0 <= i < |logs| && logs[i] == e;
    }
    CountOfFilter(logs, Level, filter);
    assert Filter(logs, p) == Filter(logs, x => Level(x) == filter) by {
      SameFilter(logs, p, x => Level(x) == filter);
    }
    FilterAppend(logs, more, p);
  }

  /** Two predicates that agree on every element filter alike. */
  lemma {:induction false} SameFilter(logs: seq<LogEntry>, p: LogEntry -> bool, q: LogEntry -> bool)
    requires forall e :: p(e) == q(e)
    ensures Filter(logs, p) == Filter(logs, q)
  {
    if logs != [] {
      SameFilter(logs[1..], p, q);
    }
  }

  lemma CountLevelIsCountOf(logs: seq<LogEntry>, level: string)
    ensures CountLevel(logs, level) == CountOf(logs, Level, level)
  {
    CountOfFilter(logs, Level, level);
    SameFilter(logs, (entry: LogEntry) => entry.level == level, x => Level(x) == level);
  }

  /** The four level counts, one key after another. */
  lemma {:induction false} CountedLevelsSum(logs: seq<LogEntry>)
    ensures CountEach(logs, Level, CountedLevels)
         == CountOf(logs, Level, "error") + CountOf(logs, Level, "warning")
            + CountOf(logs, Level, "info") + CountOf(logs, Level, "debug")
  {
    var ks := CountedLevels;
    CountEachThree(logs, Level, ks[1..]);
  }

  lemma CountedLevelsDistinct()
    ensures Distinct(CountedLevels)
  {
    assert "error" != "warning" && "error" != "info" && "error" != "debug";
    assert "warning" != "info" && "warning" != "debug" && "info" != "debug";
  }

  /** Each count is the number of entries of its level and the total is the
      number of entries; the four counts add up to at most the total, and
      to exactly the total when every entry has one of the four levels. */
  lemma CountsPartition(logs: seq<LogEntry>)
    ensures Counts(logs).total == |logs|
    ensures Counts(logs).error == CountOf(logs, Level, "error")
    ensures Counts(logs).warning == CountOf(logs, Level, "warning")
    ensures Counts(logs).info == CountOf(logs, Level, "info")
    ensures Counts(logs).debug == CountOf(logs, Level, "debug")
    ensures Counts(logs).error + Counts(logs).warning + Counts(logs).info + Counts(logs).debug <= |logs|
    ensures (forall i :: 0 <= i < |logs| ==> logs[i].level in CountedLevels) ==>
      Counts(logs).error + Counts(logs).warning + Counts(logs).info + Counts(logs).debug == |logs|
  {
    CountLevelIsCountOf(logs, "error");
    CountLevelIsCountOf(logs, "warning");
    CountLevelIsCountOf(logs, "info");
    CountLevelIsCountOf(logs, "debug");
    LevelCountsBound(logs);
  }

  lemma LevelCountsBound(logs: seq<LogEntry>)
    ensures CountOf(logs, Level, "error") + CountOf(logs, Level, "warning")
            + CountOf(logs, Level, "info") + CountOf(logs, Level, "debug") <= |logs|
    ensures (forall i :: 0 <= i < |logs| ==> logs[i].level in CountedLevels) ==>
      CountOf(logs, Level, "error") + CountOf(logs, Level, "warning")
      + CountOf(logs, Level, "info") + CountOf(logs, Level, "debug") == |logs|
  {
    CountedLevelsDistinct();
    CountEachBound(logs, Level, CountedLevels);
    CountedLevelsSum(logs);
  }
}
