/** The in-memory Raft log store: offset lookup over an appended and filtered list of entries. */
module RaftLog {

  newtype byte = x: int | 0 <= x < 256

  type Command = seq<byte>

  datatype LogEntry = LogEntry(term: int, index: int, command: Command)

  type Log = seq<LogEntry>

  datatype Option<+T> = None | Some(value: T)

  /** The dummy entry at index 0 that every store starts with. */
  const SENTINEL := LogEntry(0, 0, [])

  function FirstIndex(log: Log): int
    requires |log| > 0
  {
    log[0].index
  }

  function LastIndex(log: Log): int
    requires |log| > 0
  {
    log[|log| - 1].index
  }

  /** Lookup by offset from the first index, as the store does it. */
  function Get(log: Log, index: int): Option<LogEntry>
    requires |log| > 0
  {
    var offset := index - FirstIndex(log);
    if offset < 0 || offset >= |log| then None else Some(log[offset])
  }

  /** The entries whose index lies outside [min, max], in order. */
  function Delete(log: Log, min: int, max: int): Log {
    if log == [] then []
    else
      var rest := Delete(log[..|log| - 1], min, max);
      var last := log[|log| - 1];
      if last.index < min || last.index > max then rest + [last] else rest
  }

  /** Entry k carries index first + k. */
  predicate Contiguous(log: Log) {
    |log| > 0 && forall k :: 0 <= k < |log| ==> log[k].index == log[0].index + k
  }

  /** The shape a log keeps when it is never compacted: index 0 is the dummy entry. */
  predicate WellFormed(log: Log) {
    && |log| > 0
    && log[0] == SENTINEL
    && forall k :: 0 <= k < |log| ==> log[k].index == k
  }

  /** On a contiguous store, offset lookup is search by index. */
  lemma GetFindsByIndex(log: Log, index: int, e: LogEntry)
    requires Contiguous(log)
    ensures Get(log, index) == Some(e) <==> e in log && e.index == index
    ensures Get(log, index) == None <==> forall x :: x in log ==> x.index != index
  {
    if e in log && e.index == index {
      var k :| 0 <= k < |log| && log[k] == e;
      assert log[k].index == log[0].index + k;
    }
    if Get(log, index).Some? {
      assert log[index - FirstIndex(log)] in log;
    }
  }

  lemma {:induction false} DeleteSelects(log: Log, min: int, max: int)
    ensures forall e :: e in Delete(log, min, max) <==> e in log && (e.index < min || e.index > max)
  {
    if log != [] {
      DeleteSelects(log[..|log| - 1], min, max);
      assert log == log[..|log| - 1] + [log[|log| - 1]];
    }
  }

  /** Cutting log[a..b] out commutes with taking the last element off. */
  lemma CutSnoc(log: Log, a: nat, b: nat)
    requires a <= b < |log|
    ensures log[..a] + log[b..] == (log[..|log| - 1][..a] + log[..|log| - 1][b..]) + [log[|log| - 1]]
  {
    assert log[b..] == log[..|log| - 1][b..] + [log[|log| - 1]];
  }

  /** What survives of a contiguous run is the part before min followed by the part after max. */
  lemma {:induction false} DeleteSplits(log: Log, first: int, min: int, max: int)
    requires min <= max
    requires forall k :: 0 <= k < |log| ==> log[k].index == first + k
    ensures Delete(log, min, max) == log[..Clamp(min - first, |log|)] + log[Clamp(max + 1 - first, |log|)..]
  {
    if log != [] {
      var n := |log| - 1;
      DeleteSplits(log[..n], first, min, max);
      assert log[n].index == first + n;
      if first + n > max {
        CutSnoc(log, Clamp(min - first, n), Clamp(max + 1 - first, n));
      } else if first + n < min {
        assert log == log[..n] + [log[n]];
      } else {
        assert log[..Clamp(min - first, n + 1)] == log[..n][..Clamp(min - first, n)];
      }
    }
  }

  function Clamp(x: int, n: nat): (r: nat)
    ensures r <= n
  {
    if x < 0 then 0 else if x > n then n else x
  }

  /** Truncation of a suffix, the only deletion the replication path performs. */
  lemma DeleteSuffix(log: Log, min: int)
    requires Contiguous(log)
    requires FirstIndex(log) <= min <= LastIndex(log)
    ensures Delete(log, min, LastIndex(log)) == log[..min - FirstIndex(log)]
  {
    DeleteSplits(log, log[0].index, min, LastIndex(log));
  }

  /** Deleting a range keeps the store usable for offset lookup exactly when something
      survives and the range is not a hole strictly inside the log; and then every
      surviving lookup is unchanged. */
  lemma DeleteKeepsContiguity(log: Log, min: int, max: int)
    requires Contiguous(log)
    requires min <= max
    ensures var d := Delete(log, min, max);
            && (d == [] <==> min <= FirstIndex(log) && LastIndex(log) <= max)
            && (Contiguous(d) <==> d != [] && !(FirstIndex(log) < min && max < LastIndex(log)))
    ensures var d := Delete(log, min, max);
            Contiguous(d) ==> forall i :: i < min || i > max ==> Get(d, i) == Get(log, i)
  {
    var first := log[0].index;
    DeleteSplits(log, first, min, max);
    var a, b := Clamp(min - first, |log|), Clamp(max + 1 - first, |log|);
    var d := Delete(log, min, max);
    if d != [] && FirstIndex(log) < min && max < LastIndex(log) {
      assert d[a] == log[b] && d[a].index == first + b && d[0].index == first;
      assert a < b;
    }
  }

  /** Appending contiguously keeps contiguity and changes no existing lookup. */
  lemma AppendKeepsContiguity(log: Log, entries: Log)
    requires Contiguous(log)
    requires forall k :: 0 <= k < |entries| ==> entries[k].index == LastIndex(log) + 1 + k
    ensures Contiguous(log + entries)
    ensures forall i :: i <= LastIndex(log) ==> Get(log + entries, i) == Get(log, i)
    ensures forall k :: 0 <= k < |entries| ==> Get(log + entries, LastIndex(log) + 1 + k) == Some(entries[k])
  {
    var all := log + entries;
    forall k | 0 <= k < |all| ensures all[k].index == all[0].index + k {
      if k >= |log| { assert all[k] == entries[k - |log|]; }
    }
    forall k | 0 <= k < |entries| ensures Get(all, LastIndex(log) + 1 + k) == Some(entries[k]) {
      assert all[|log| + k] == entries[k];
    }
  }

  /** The store itself: a list that is appended to and rebuilt in place. */
  class MemoryLogStore {
    var entries: seq<LogEntry>

    constructor ()
      ensures entries == [SENTINEL]
    {
      entries := [SENTINEL];
    }

    method FirstIndexOf() returns (index: int)
      requires |entries| > 0
      ensures index == FirstIndex(entries)
    {
      index := entries[0].index;
    }

    method LastIndexOf() returns (index: int)
      requires |entries| > 0
      ensures index == LastIndex(entries)
    {
      index := entries[|entries| - 1].index;
    }

    method GetLog(index: int) returns (r: Option<LogEntry>)
      requires |entries| > 0
      ensures r == Get(entries, index)
    {
      var first := FirstIndexOf();
      var offset := index - first;
      if offset < 0 || offset >= |entries| {
        return None;
      }
      return Some(entries[offset]);
    }

    method StoreLog(entry: LogEntry)
      modifies this
      ensures entries == old(entries) + [entry]
    {
      StoreLogs([entry]);
    }

    method StoreLogs(more: seq<LogEntry>)
      modifies this
      ensures entries == old(entries) + more
    {
      for i := 0 to |more|
        invariant entries == old(entries) + more[..i]
      {
        entries := entries + [more[i]];
        assert more[..i + 1] == more[..i] + [more[i]];
      }
      assert more[..|more|] == more;
    }

    method DeleteRange(min: int, max: int)
      modifies this
      ensures entries == Delete(old(entries), min, max)
    {
      var newEntries: seq<LogEntry> := [];
      for i := 0 to |entries|
        invariant entries == old(entries)
        invariant newEntries == Delete(entries[..i], min, max)
      {
        var entry := entries[i];
        assert entries[..i + 1][..i] == entries[..i];
        if entry.index < min || entry.index > max {
          newEntries := newEntries + [entry];
        }
      }
      assert entries[..|entries|] == entries;
      entries := newEntries;
    }
  }
}
