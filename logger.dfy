/** utils/logger.js: the in-memory log buffer. Timestamps, the console line
    and the log-file append are left out; an entry keeps its level, message
    and metadata (the metadata as its text). */
module Logging {
  import opened Seqs
  import opened JsText

  /** `maxLogs`: the buffer keeps at most this many entries. */
  const MAX_LOGS: nat := 1000
  /** The default `count` of `getRecentLogs`. */
  const DEFAULT_RECENT: int := 50

  datatype LogEntry = LogEntry(level: string, message: string, meta: string)

  /** The buffer after one `log`: push, then drop the oldest entry when the
      buffer has grown past `MAX_LOGS`. */
  function Appended(logs: seq<LogEntry>, e: LogEntry): seq<LogEntry>
  {
    var pushed := logs + [e];
    if |pushed| > MAX_LOGS then pushed[1..] else pushed
  }

  /** One push keeps the bound and ends with the new entry; under the bound it
      only appends, and at the bound it drops exactly the oldest entry. */
  lemma AppendedKeepsBound(logs: seq<LogEntry>, e: LogEntry)
    requires |logs| <= MAX_LOGS
    ensures |Appended(logs, e)| <= MAX_LOGS
    ensures Appended(logs, e)[|Appended(logs, e)| - 1] == e
    ensures |logs| < MAX_LOGS ==> Appended(logs, e) == logs + [e]
    ensures |logs| == MAX_LOGS ==> Appended(logs, e) == logs[1..] + [e]
  {
    if |logs| == MAX_LOGS {
      assert (logs + [e])[1..] == logs[1..] + [e];
    }
  }

  /** The buffer after logging `entries`, in order, from an empty one. */
  function Logged(entries: seq<LogEntry>): seq<LogEntry>
  {
    if entries == [] then [] else Appended(Logged(entries[..|entries| - 1]), entries[|entries| - 1])
  }

  /** The `n` most recent of `s`, in their order. */
  function Latest<T>(s: seq<T>, n: nat): seq<T>
  {
    if |s| <= n then s else s[|s| - n..]
  }

  /** Keeping the latest `n` commutes with adding one more element. */
  lemma LatestSnoc<T>(s: seq<T>, e: T, n: nat)
    requires n >= 1
    ensures var kept := Latest(s, n) + [e];
            Latest(s + [e], n) == if |kept| > n then kept[1..] else kept
  {
    var kept := Latest(s, n) + [e];
    if |s| >= n {
      assert kept[1..] == (s + [e])[|s| + 1 - n..];
    }
  }

  /** Whatever was logged, the buffer holds exactly the last
      `min(n, MAX_LOGS)` entries in insertion order. */
  lemma {:induction false} LoggedIsLatest(entries: seq<LogEntry>)
    ensures Logged(entries) == Latest(entries, MAX_LOGS)
    ensures |Logged(entries)| <= MAX_LOGS
  {
    if entries != [] {
      var init := entries[..|entries| - 1];
      var e := entries[|entries| - 1];
      LoggedIsLatest(init);
      assert init + [e] == entries;
      LatestSnoc(init, e, MAX_LOGS);
    }
  }

  /** `getRecentLogs(count)` on `logs`: `slice(-count)`. */
  function Recent(logs: seq<LogEntry>, count: int): (r: seq<LogEntry>)
    ensures count >= 1 ==> r == Latest(logs, count)
    ensures count == 0 ==> r == logs
    ensures count <= 0 ==> r == logs[(if -count <= |logs| then -count else |logs|)..]
  {
    Slice(logs, -count)
  }

  predicate IsError(e: LogEntry)
  {
    e.level == "error"
  }

  /** `getErrorLogs` on `logs`. */
  function Errors(logs: seq<LogEntry>): (r: seq<LogEntry>)
    ensures |r| <= |logs|
    ensures forall e :: e in r <==> e in logs && IsError(e)
  {
    Filter(IsError, logs)
  }

  /** The error entries keep their order: errors of older entries come
      first. */
  lemma ErrorsOfAppend(a: seq<LogEntry>, b: seq<LogEntry>)
    ensures Errors(a + b) == Errors(a) + Errors(b)
  {
    FilterAppend(IsError, a, b);
  }

  /** `new Logger()`'s buffer. */
  class Logger {
    var logs: seq<LogEntry>

    ghost predicate Valid()
      reads this
    {
      |logs| <= MAX_LOGS
    }

    constructor()
      ensures Valid() && logs == []
    {
      logs := [];
    }

    /** `log(level, message, meta)`. */
    method Log(level: string, message: string, meta: string)
      requires Valid()
      modifies this
      ensures Valid()
      ensures logs == Appended(old(logs), LogEntry(level, message, meta))
    {
      logs := logs + [LogEntry(level, message, meta)];
      if |logs| > MAX_LOGS {
        logs := logs[1..];
      }
    }

    method Info(message: string, meta: string)
      requires Valid()
      modifies this
      ensures Valid()
      ensures logs == Appended(old(logs), LogEntry("info", message, meta))
    {
      Log("info", message, meta);
    }

    method Warn(message: string, meta: string)
      requires Valid()
      modifies this
      ensures Valid()
      ensures logs == Appended(old(logs), LogEntry("warn", message, meta))
    {
      Log("warn", message, meta);
    }

    method Error(message: string, meta: string)
      requires Valid()
      modifies this
      ensures Valid()
      ensures logs == Appended(old(logs), LogEntry("error", message, meta))
    {
      Log("error", message, meta);
    }

    method Debug(message: string, meta: string)
      requires Valid()
      modifies this
      ensures Valid()
      ensures logs == Appended(old(logs), LogEntry("debug", message, meta))
    {
      Log("debug", message, meta);
    }

    /** `getRecentLogs(count)`; `count` is `DEFAULT_RECENT` when omitted. */
    function GetRecentLogs(count: int): (r: seq<LogEntry>)
      reads this
      ensures count >= 1 ==> |r| == (if count < |logs| then count else |logs|)
      ensures count >= 1 ==> r == logs[|logs| - |r|..]
    {
      Recent(logs, count)
    }

    /** `getRecentLogs()` with the count omitted: the latest `DEFAULT_RECENT`
        entries. */
    function GetRecentDefault(): (r: seq<LogEntry>)
      reads this
      ensures |r| == (if DEFAULT_RECENT < |logs| then DEFAULT_RECENT else |logs|)
      ensures r == logs[|logs| - |r|..]
    {
      GetRecentLogs(DEFAULT_RECENT)
    }

    /** `getErrorLogs()`: reads the buffer and changes nothing. */
    function GetErrorLogs(): (r: seq<LogEntry>)
      reads this
      ensures forall e :: e in r ==> IsError(e) && e in logs
    {
      Errors(logs)
    }

    /** `clearLogs()`. */
    method ClearLogs()
      modifies this
      ensures Valid() && logs == []
    {
      logs := [];
    }
  }
}
