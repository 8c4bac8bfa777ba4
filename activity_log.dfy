/**
 * The agent activity log (App.tsx `addAgentLogEntry`): every new entry is
 * put in front of the previous log, which is kept as it was.
 */
module ActivityLog {
  import opened Types

  /** `addAgentLogEntry(message, kind)`, the kind defaulting to `ACTION`. */
  function AddEntry(log: seq<LogEntry>, now: int, message: string, kind: LogKind := Action): (r: seq<LogEntry>)
    ensures |r| == |log| + 1
    ensures r[0] == LogEntry(now, message, kind)
    ensures r[1..] == log
  {
    [LogEntry(now, message, kind)] + log
  }

  /** Newest entries first: timestamps never increase along the log. */
  predicate NewestFirst(log: seq<LogEntry>) {
    forall i, j :: 0 <= i < j < |log| ==> log[j].timestamp <= log[i].timestamp
  }

  /** Prepending an entry no older than the head keeps the log newest-first. */
  lemma AddEntryKeepsNewestFirst(log: seq<LogEntry>, now: int, message: string, kind: LogKind)
    requires NewestFirst(log)
    requires |log| > 0 ==> log[0].timestamp <= now
    ensures NewestFirst(AddEntry(log, now, message, kind))
  {
    var r := AddEntry(log, now, message, kind);
    forall i, j | 0 <= i < j < |r| ensures r[j].timestamp <= r[i].timestamp {
      if i > 0 {
        assert r[i] == log[i - 1] && r[j] == log[j - 1];
      } else {
        assert r[j] == log[j - 1];
        assert log[j - 1].timestamp <= log[0].timestamp;
      }
    }
  }

  /** The entries `es` logged one after another, `es[0]` first. */
  function AddEntries(log: seq<LogEntry>, es: seq<LogEntry>): seq<LogEntry>
    decreases |es|
  {
    if |es| == 0 then log
    else AddEntries(AddEntry(log, es[0].timestamp, es[0].message, es[0].kind), es[1..])
  }

  function Reversed(es: seq<LogEntry>): (r: seq<LogEntry>)
    ensures |r| == |es|
    ensures forall k :: 0 <= k < |es| ==> r[k] == es[|es| - 1 - k]
  {
    if |es| == 0 then [] else Reversed(es[1..]) + [es[0]]
  }

  /**
   * Logging several entries puts them in front in reverse order and keeps
   * the earlier log, untouched, as the tail.
   */
  lemma {:induction false} AddEntriesPrepends(log: seq<LogEntry>, es: seq<LogEntry>)
    ensures AddEntries(log, es) == Reversed(es) + log
    decreases |es|
  {
    if |es| > 0 {
      var e := es[0];
      AddEntriesPrepends([e] + log, es[1..]);
      assert AddEntry(log, e.timestamp, e.message, e.kind) == [e] + log;
      assert Reversed(es) == Reversed(es[1..]) + [e];
      assert Reversed(es[1..]) + ([e] + log) == (Reversed(es[1..]) + [e]) + log;
    }
  }
}
