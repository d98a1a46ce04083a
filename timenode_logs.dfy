/**
 * The TimeNode store's log buffer: a list capped at 1000 entries into which
 * the worker's log messages are appended, oldest dropped first, and the
 * `logs` getter that shows either every entry or only the basic kinds.
 */
module TimeNodeLogs {

  /** The kinds of worker log messages the store distinguishes. */
  datatype LogKind = Info | Error | Cache | OtherKind(name: string)

  datatype LogEntry = LogEntry(kind: LogKind, message: string)

  /** `LOG_TYPE`: the basic view, or the view of every entry. */
  datatype LogView = Basic | Detailed

  const LogCap: nat := 1000

  /** The kinds `BASIC_LOG_TYPES` lists. */
  predicate IsBasic(k: LogKind)
  {
    k == Info || k == Error
  }

  /** The last `n` elements of `s` (all of `s` when it is shorter). */
  function Last<T>(s: seq<T>, n: nat): (r: seq<T>)
    ensures |r| <= n && |r| <= |s|
    ensures |s| <= n ==> r == s
  {
    if |s| <= n then s else s[|s| - n..]
  }

  /** `handleLogMessage`: a cache entry is dropped; otherwise, when the buffer
      is full, the oldest entry is shifted out before the new one is pushed. */
  function PushLog(logs: seq<LogEntry>, entry: LogEntry): (r: seq<LogEntry>)
    ensures entry.kind == Cache ==> r == logs
    ensures |logs| <= LogCap ==> |r| <= LogCap
    ensures entry.kind != Cache && |logs| <= LogCap ==>
              r == Last(logs + [entry], LogCap) && r[|r| - 1] == entry
  {
    if entry.kind == Cache then logs
    else if |logs| == LogCap then logs[1..] + [entry]
    else logs + [entry]
  }

  /** The entries that are not cache messages, in order. */
  function Kept(entries: seq<LogEntry>): (r: seq<LogEntry>)
    ensures |r| <= |entries|
  {
    if entries == [] then []
    else (if entries[0].kind == Cache then [] else [entries[0]]) + Kept(entries[1..])
  }

  /** The buffer after a series of log messages, handled one after the other. */
  function PushAll(logs: seq<LogEntry>, entries: seq<LogEntry>): seq<LogEntry>
    decreases entries
  {
    if entries == [] then logs else PushAll(PushLog(logs, entries[0]), entries[1..])
  }

  lemma {:induction false} LastOfLast<T>(a: seq<T>, b: seq<T>, n: nat)
    ensures Last(Last(a, n) + b, n) == Last(a + b, n)
  {
    if |a| > n {
      var a' := a[|a| - n..];
      assert Last(a, n) == a';
      if |a' + b| <= n {
        assert |b| == 0;
        assert a' + b == a';
        assert a + b == a;
      } else {
        assert (a' + b)[|a' + b| - n..] == (a + b)[|a + b| - n..];
      }
    }
  }

  /** Any number of log messages leaves exactly the most recent 1000 non-cache
      entries of the old buffer followed by the new messages, in order. */
  lemma {:induction false} PushAllKeepsMostRecent(logs: seq<LogEntry>, entries: seq<LogEntry>)
    requires |logs| <= LogCap
    ensures PushAll(logs, entries) == Last(logs + Kept(entries), LogCap)
    ensures |PushAll(logs, entries)| <= LogCap
    decreases entries
  {
    if entries == [] {
      assert logs + Kept(entries) == logs;
    } else {
      var next := PushLog(logs, entries[0]);
      assert PushAll(logs, entries) == PushAll(next, entries[1..]);
      PushAllKeepsMostRecent(next, entries[1..]);
      assert entries == [entries[0]] + entries[1..];
      PushOneKeepsMostRecent(logs, entries[0], entries[1..]);
    }
  }

  /** One message handled, then the rest kept: as if all were kept. */
  lemma PushOneKeepsMostRecent(logs: seq<LogEntry>, e: LogEntry, rest: seq<LogEntry>)
    requires |logs| <= LogCap
    ensures Last(PushLog(logs, e) + Kept(rest), LogCap) == Last(logs + Kept([e] + rest), LogCap)
  {
    assert ([e] + rest)[1..] == rest;
    if e.kind == Cache {
      assert Kept([e] + rest) == Kept(rest);
    } else {
      assert Kept([e] + rest) == [e] + Kept(rest);
      LastOfLast(logs + [e], Kept(rest), LogCap);
      assert logs + [e] + Kept(rest) == logs + ([e] + Kept(rest));
    }
  }

  /** The entries of the basic kinds, in order. */
  function FilterBasic(logs: seq<LogEntry>): (r: seq<LogEntry>)
    ensures |r| <= |logs|
  {
    if logs == [] then []
    else (if IsBasic(logs[0].kind) then [logs[0]] else []) + FilterBasic(logs[1..])
  }

  /** The `logs` getter. */
  function Visible(view: LogView, logs: seq<LogEntry>): seq<LogEntry>
  {
    if view == Basic then FilterBasic(logs) else logs
  }

  /** The basic view shows exactly the entries of the basic kinds. */
  lemma {:induction false} FilterBasicMembers(logs: seq<LogEntry>, e: LogEntry)
    ensures e in FilterBasic(logs) <==> e in logs && IsBasic(e.kind)
  {
    if logs != [] {
      FilterBasicMembers(logs[1..], e);
      assert logs == [logs[0]] + logs[1..];
    }
  }

  /** Filtering distributes over concatenation, so the basic view keeps the
      buffer's order. */
  lemma {:induction false} FilterBasicAppend(a: seq<LogEntry>, b: seq<LogEntry>)
    ensures FilterBasic(a + b) == FilterBasic(a) + FilterBasic(b)
  {
    if a == [] {
      assert a + b == b;
    } else {
      var h := if IsBasic(a[0].kind) then [a[0]] else [];
      FilterBasicAppend(a[1..], b);
      assert (a + b)[0] == a[0];
      assert (a + b)[1..] == a[1..] + b;
      assert FilterBasic(a + b) == h + FilterBasic(a[1..] + b);
      assert FilterBasic(a) == h + FilterBasic(a[1..]);
    }
  }
}
