/** What the follower's conflict loop does to a log, independent of any run. */
module AppendMerge {
  import opened RaftLog
  import opened RaftNode

  /** Entries of a request continue its window without gaps. */
  predicate Window(prev: int, entries: seq<LogEntry>) {
    forall k :: 0 <= k < |entries| ==> entries[k].index == prev + 1 + k
  }

  /** Two logs coincide on indices 0..i and both reach i. */
  predicate Agree(a: Log, b: Log, i: int) {
    0 <= i < |a| && i < |b| && a[..i + 1] == b[..i + 1]
  }

  lemma AgreeDown(a: Log, b: Log, i: int, j: int)
    requires Agree(a, b, i) && 0 <= j <= i
    ensures Agree(a, b, j) && a[j] == b[j]
  {
    assert a[..j + 1] == a[..i + 1][..j + 1];
    assert a[j] == a[..i + 1][j];
  }

  lemma AgreeTrans(a: Log, b: Log, c: Log, i: int)
    requires Agree(a, b, i) && Agree(b, c, i)
    ensures Agree(a, c, i)
  {}

  lemma WellFormedIsContiguous(log: Log)
    requires WellFormed(log)
    ensures Contiguous(log) && FirstIndex(log) == 0 && LastIndex(log) == |log| - 1
    ensures forall i :: 0 <= i < |log| ==> Get(log, i) == Some(log[i])
    ensures forall i :: i < 0 || i >= |log| ==> Get(log, i) == None
  {}

  lemma {:induction false} EntriesFromIsSlice(log: Log, lo: int)
    requires WellFormed(log)
    requires 0 <= lo <= |log|
    ensures EntriesFrom(log, lo, LastIndex(log)) == log[lo..]
    decreases |log| - lo
  {
    if lo < |log| {
      EntriesFromIsSlice(log, lo + 1);
      assert log[lo..] == [log[lo]] + log[lo + 1..];
    }
  }

  /** The conflict loop with the store operations resolved: position `at` against entry 0. */
  function Merged(log: Log, at: nat, entries: seq<LogEntry>): Log
    decreases |entries|
  {
    if entries == [] then log
    else if at >= |log| then log + entries
    else if log[at].term != entries[0].term then log[..at] + entries
    else Merged(log, at + 1, entries[1..])
  }

  lemma {:induction false} MergeIsMerged(log: Log, at: nat, entries: seq<LogEntry>)
    requires WellFormed(log) && at <= |log|
    requires Window(at - 1, entries)
    ensures MergeEntries(log, entries, LastIndex(log)) == Merged(log, at, entries)
    decreases |entries|
  {
    WellFormedIsContiguous(log);
    if entries != [] {
      assert entries[0].index == at;
      if at < |log| {
        if log[at].term != entries[0].term {
          DeleteSuffix(log, at);
        } else {
          assert forall k :: 0 <= k < |entries| - 1 ==> entries[1..][k] == entries[k + 1];
          MergeIsMerged(log, at + 1, entries[1..]);
        }
      }
    }
  }

  /** The first position from `at` on that the log lacks or holds with another term than the
      entry meant for it. */
  function FirstConflict(log: Log, at: nat, entries: seq<LogEntry>): (c: nat)
    ensures at <= c <= at + |entries|
    decreases |entries|
  {
    if entries == [] || at >= |log| || log[at].term != entries[0].term then at
    else FirstConflict(log, at + 1, entries[1..])
  }

  lemma {:induction false} FirstConflictIs(log: Log, at: nat, entries: seq<LogEntry>)
    requires at <= |log|
    ensures var c := FirstConflict(log, at, entries);
            && c <= |log|
            && (forall i :: at <= i < c ==> log[i].term == entries[i - at].term)
            && (c < at + |entries| ==> c == |log| || log[c].term != entries[c - at].term)
    decreases |entries|
  {
    if entries == [] || at == |log| || log[at].term != entries[0].term {
    } else {
      FirstConflictIs(log, at + 1, entries[1..]);
      var c := FirstConflict(log, at, entries);
      forall i | at <= i < c ensures log[i].term == entries[i - at].term {
        if i > at {
          assert entries[1..][i - at - 1] == entries[i - at];
        }
      }
    }
  }

  /** The log is kept below the first conflict and replaced by the request from there on;
      without a conflict it is untouched. */
  lemma {:induction false} MergedAtFirstConflict(log: Log, at: nat, entries: seq<LogEntry>)
    requires at <= |log|
    ensures var c := FirstConflict(log, at, entries);
            && c <= |log|
            && Merged(log, at, entries) == if c == at + |entries| then log else log[..c] + entries[c - at..]
    decreases |entries|
  {
    FirstConflictIs(log, at, entries);
    var c := FirstConflict(log, at, entries);
    if entries == [] || at == |log| || log[at].term != entries[0].term {
      assert c == at;
      assert entries[0..] == entries;
      if at == |log| {
        assert log[..at] == log;
      }
    } else {
      MergedAtFirstConflict(log, at + 1, entries[1..]);
      if c < at + |entries| {
        assert entries[1..][c - at - 1..] == entries[c - at..];
      }
    }
  }

  /** The log spliced at its first conflict with the request. */
  function Spliced(log: Log, prev: int, entries: seq<LogEntry>): Log
    requires 0 <= prev < |log|
  {
    FirstConflictIs(log, prev + 1, entries);
    var cut := FirstConflict(log, prev + 1, entries);
    if cut == prev + 1 + |entries| then log else log[..cut] + entries[cut - prev - 1..]
  }

  lemma MergeIsSplice(log: Log, prev: int, entries: seq<LogEntry>)
    requires WellFormed(log) && 0 <= prev < |log| && Window(prev, entries)
    ensures MergeEntries(log, entries, LastIndex(log)) == Spliced(log, prev, entries)
  {
    MergeIsMerged(log, prev + 1, entries);
    MergedIsSpliced(log, prev, entries);
  }

  lemma MergedIsSpliced(log: Log, prev: int, entries: seq<LogEntry>)
    requires 0 <= prev < |log|
    ensures Merged(log, prev + 1, entries) == Spliced(log, prev, entries)
  {
    MergedAtFirstConflict(log, prev + 1, entries);
  }

  /** What an accepted request with contiguous entries makes of the log: it has the request's
      terms over the whole window; every window entry is the request's or the old one that
      already had its term; nothing before the window changes; it ends at the window or keeps
      the old end; and an old entry is lost only at or behind a real conflict. */
  ghost predicate MergeOutcome(log: Log, prev: int, entries: seq<LogEntry>, r: Log) {
    && WellFormed(r)
    && 0 <= prev < |log| && prev + |entries| < |r|
    && (forall k :: 0 <= k < |entries| ==> r[prev + 1 + k].term == entries[k].term)
    && (forall k :: 0 <= k < |entries| ==>
          (r[prev + 1 + k] == entries[k] || (prev + 1 + k < |log| && r[prev + 1 + k] == log[prev + 1 + k])))
    && r[..prev + 1] == log[..prev + 1]
    && (r == log || |r| == prev + 1 + |entries|)
    && (forall i :: 0 <= i < |log| && !(i < |r| && r[i] == log[i]) ==>
          exists k :: 0 <= k < |entries| && prev + 1 + k <= i && log[prev + 1 + k].term != entries[k].term)
  }

  lemma AcceptedRequestMerges(log: Log, prev: int, entries: seq<LogEntry>)
    requires WellFormed(log) && 0 <= prev < |log|
    requires Window(prev, entries)
    ensures MergeOutcome(log, prev, entries, MergeEntries(log, entries, LastIndex(log)))
  {
    MergeIsSplice(log, prev, entries);
    SpliceOutcome(log, prev, entries);
  }

  lemma SpliceOutcome(log: Log, prev: int, entries: seq<LogEntry>)
    requires WellFormed(log) && 0 <= prev < |log|
    requires Window(prev, entries)
    ensures MergeOutcome(log, prev, entries, Spliced(log, prev, entries))
  {
    FirstConflictIs(log, prev + 1, entries);
    var cut := FirstConflict(log, prev + 1, entries);
    var r := Spliced(log, prev, entries);
    if cut < prev + 1 + |entries| {
      assert r == log[..cut] + entries[cut - prev - 1..];
      SplicedLog(log, prev, entries, cut, r);
    } else {
      UnchangedLog(log, prev, entries);
    }
  }

  lemma UnchangedLog(log: Log, prev: int, entries: seq<LogEntry>)
    requires WellFormed(log) && 0 <= prev && prev + |entries| < |log|
    requires forall i :: prev < i <= prev + |entries| ==> log[i].term == entries[i - prev - 1].term
    ensures MergeOutcome(log, prev, entries, log)
  {
    forall k | 0 <= k < |entries| ensures log[prev + 1 + k].term == entries[k].term {
      var i := prev + 1 + k;
      assert log[i].term == entries[i - prev - 1].term;
    }
  }

  lemma SplicedLog(log: Log, prev: int, entries: seq<LogEntry>, cut: nat, r: Log)
    requires WellFormed(log) && 0 <= prev < |log| && Window(prev, entries)
    requires prev < cut <= |log| && cut < prev + 1 + |entries|
    requires forall i :: prev < i < cut ==> log[i].term == entries[i - prev - 1].term
    requires cut == |log| || log[cut].term != entries[cut - prev - 1].term
    requires r == log[..cut] + entries[cut - prev - 1..]
    ensures MergeOutcome(log, prev, entries, r)
  {
    SpliceAt(log, prev, entries, cut, r);
    SpliceIsWellFormed(log, prev, entries, cut, r);
    SpliceHasRequest(log, prev, entries, cut, r);
    SpliceLosesAtConflict(log, prev, entries, cut, r);
  }

  /** Below the cut the splice is the log, from it on the request. */
  ghost predicate SplicedAt(log: Log, prev: int, entries: seq<LogEntry>, cut: nat, r: Log) {
    && 0 <= prev < cut <= |log| && cut < prev + 1 + |entries| == |r|
    && (forall i :: 0 <= i < cut ==> r[i] == log[i])
    && (forall i :: cut <= i < |r| ==> r[i] == entries[i - prev - 1])
  }

  lemma SpliceAt(log: Log, prev: int, entries: seq<LogEntry>, cut: nat, r: Log)
    requires 0 <= prev < cut <= |log| && cut < prev + 1 + |entries| && r == log[..cut] + entries[cut - prev - 1..]
    ensures SplicedAt(log, prev, entries, cut, r) && r[..prev + 1] == log[..prev + 1]
  {
    forall i | cut <= i < |r| ensures r[i] == entries[i - prev - 1] {
      assert r[i] == entries[cut - prev - 1..][i - cut];
    }
  }

  lemma SpliceIsWellFormed(log: Log, prev: int, entries: seq<LogEntry>, cut: nat, r: Log)
    requires WellFormed(log) && Window(prev, entries) && SplicedAt(log, prev, entries, cut, r)
    ensures WellFormed(r)
  {
    forall i | 0 <= i < |r| ensures r[i].index == i {
      if i >= cut { assert entries[i - prev - 1].index == i; }
    }
  }

  lemma SpliceHasRequest(log: Log, prev: int, entries: seq<LogEntry>, cut: nat, r: Log)
    requires SplicedAt(log, prev, entries, cut, r)
    requires forall i :: prev < i < cut ==> log[i].term == entries[i - prev - 1].term
    ensures forall k :: 0 <= k < |entries| ==> r[prev + 1 + k].term == entries[k].term
    ensures forall k :: 0 <= k < |entries| ==>
              (r[prev + 1 + k] == entries[k] || (prev + 1 + k < |log| && r[prev + 1 + k] == log[prev + 1 + k]))
  {
    forall k | 0 <= k < |entries|
      ensures r[prev + 1 + k].term == entries[k].term
      ensures r[prev + 1 + k] == entries[k] || (prev + 1 + k < |log| && r[prev + 1 + k] == log[prev + 1 + k])
    {
      var i := prev + 1 + k;
      if i >= cut { assert r[i] == entries[i - prev - 1]; } else { assert log[i].term == entries[i - prev - 1].term; }
    }
  }

  lemma SpliceLosesAtConflict(log: Log, prev: int, entries: seq<LogEntry>, cut: nat, r: Log)
    requires SplicedAt(log, prev, entries, cut, r)
    requires cut == |log| || log[cut].term != entries[cut - prev - 1].term
    ensures forall i :: 0 <= i < |log| && !(i < |r| && r[i] == log[i]) ==>
              exists k :: 0 <= k < |entries| && prev + 1 + k <= i && log[prev + 1 + k].term != entries[k].term
  {
    forall i | 0 <= i < |log| && !(i < |r| && r[i] == log[i])
      ensures exists k :: 0 <= k < |entries| && prev + 1 + k <= i && log[prev + 1 + k].term != entries[k].term
    {
      var k := cut - prev - 1;
      assert log[prev + 1 + k].term != entries[k].term;
    }
  }

  /** The follower takes the log's last index where section 5.3 takes the last new entry.
      For a request that stays within its own window the two rules give the same result;
      beyond the window they differ as soon as the follower holds entries past it. */
  lemma CommitRuleMatchesPaper(log: Log, args: AppendEntriesArgs)
    requires WellFormed(log) && 0 <= args.prevLogIndex < |log|
    requires Window(args.prevLogIndex, args.entries)
    ensures var r := MergeEntries(log, args.entries, LastIndex(log));
            var lastNew := args.prevLogIndex + |args.entries|;
            |r| > 0 &&
            (Min(args.leaderCommit, LastIndex(r)) == Min(args.leaderCommit, lastNew)
             <==> args.leaderCommit <= lastNew || LastIndex(r) == lastNew)
  {
    AcceptedRequestMerges(log, args.prevLogIndex, args.entries);
    WellFormedIsContiguous(MergeEntries(log, args.entries, LastIndex(log)));
  }

  function Min(a: int, b: int): int {
    if a < b then a else b
  }

  /** Term equality between two logs already means equality of everything before. */
  predicate Matching(a: Log, b: Log) {
    forall i :: 0 <= i < |a| && i < |b| && a[i].term == b[i].term ==> Agree(a, b, i)
  }

  /** The log r agrees with the source through index end, is the old log or stops there, and
      has lost no index on which the old log agreed with the source. */
  ghost predicate TakesOver(log: Log, source: Log, end: int, r: Log) {
    && Agree(r, source, end)
    && (r == log || r == source[..end + 1])
    && (forall j :: Agree(log, source, j) ==> Agree(r, source, j))
  }

  /** A request is a window of its sender's log. */
  ghost predicate WindowOf(log: Log, a: AppendEntriesArgs) {
    && 0 <= a.prevLogIndex && a.prevLogIndex + |a.entries| < |log|
    && a.entries == log[a.prevLogIndex + 1..a.prevLogIndex + 1 + |a.entries|]
    && a.prevLogTerm == log[a.prevLogIndex].term
  }

  /** How a log moves when it takes in a request of the sender: it stays, or it takes over the
      sender's log through the request's window without losing an agreed index. */
  ghost predicate Merges(source: Log, a: AppendEntriesArgs, log: Log, log': Log) {
    TakesOver(log, source, a.prevLogIndex + |a.entries|, log')
  }

  /** The log r is the log spliced at cut, the first conflict with the request or its end. */
  ghost predicate CutAt(log: Log, prev: int, entries: seq<LogEntry>, cut: int, r: Log) {
    && 0 <= prev < cut <= |log| && cut <= prev + 1 + |entries|
    && (forall k :: prev + 1 <= k < cut ==> log[k].term == entries[k - (prev + 1)].term)
    && (cut < prev + 1 + |entries| && cut < |log| ==> log[cut].term != entries[cut - (prev + 1)].term)
    && r == if cut == prev + 1 + |entries| then log else log[..cut] + entries[cut - prev - 1..]
  }

  lemma MergeCut(log: Log, prev: int, entries: seq<LogEntry>) returns (cut: int)
    requires WellFormed(log) && 0 <= prev < |log| && Window(prev, entries)
    ensures CutAt(log, prev, entries, cut, MergeEntries(log, entries, LastIndex(log)))
  {
    MergeIsSplice(log, prev, entries);
    FirstConflictIs(log, prev + 1, entries);
    cut := FirstConflict(log, prev + 1, entries);
  }

  lemma CutTakesOver(log: Log, source: Log, a: AppendEntriesArgs, cut: int, r: Log)
    requires WindowOf(source, a) && CutAt(log, a.prevLogIndex, a.entries, cut, r) && Agree(log, source, cut - 1)
    ensures Merges(source, a, log, r)
  {
    var end := a.prevLogIndex + |a.entries|;
    if cut <= end {
      SpliceIsPrefix(log, source, a.prevLogIndex, a.entries, cut);
      assert a.entries[cut - (a.prevLogIndex + 1)] == source[cut];
      TruncationKeepsAgreement(log, source, cut, end);
    }
  }

  lemma AgreesToConflict(log: Log, source: Log, a: AppendEntriesArgs, cut: int, r: Log)
    requires WindowOf(source, a) && CutAt(log, a.prevLogIndex, a.entries, cut, r)
    requires log[a.prevLogIndex].term == a.prevLogTerm && Matching(log, source)
    ensures Agree(log, source, cut - 1)
  {
    if cut > a.prevLogIndex + 1 {
      assert log[cut - 1].term == a.entries[cut - 1 - (a.prevLogIndex + 1)].term;
      assert a.entries[cut - 1 - (a.prevLogIndex + 1)] == source[cut - 1];
    }
  }

  lemma CutMerges(log: Log, source: Log, a: AppendEntriesArgs, cut: int, r: Log)
    requires WindowOf(source, a) && CutAt(log, a.prevLogIndex, a.entries, cut, r)
    requires log[a.prevLogIndex].term == a.prevLogTerm && Matching(log, source)
    ensures Merges(source, a, log, r)
  {
    AgreesToConflict(log, source, a, cut, r);
    CutTakesOver(log, source, a, cut, r);
  }

  lemma SpliceIsPrefix(log: Log, source: Log, prev: int, entries: seq<LogEntry>, cut: nat)
    requires 0 <= prev < cut <= |log| && cut <= prev + |entries| < |source|
    requires entries == source[prev + 1..prev + 1 + |entries|] && Agree(log, source, cut - 1)
    ensures log[..cut] + entries[cut - prev - 1..] == source[..prev + |entries| + 1]
  {
    assert entries[cut - prev - 1..] == source[cut..prev + 1 + |entries|];
    assert source[..cut] + source[cut..prev + 1 + |entries|] == source[..prev + 1 + |entries|];
  }

  lemma TruncationKeepsAgreement(log: Log, source: Log, cut: nat, end: nat)
    requires cut <= end < |source|
    requires cut >= |log| || log[cut].term != source[cut].term
    ensures TakesOver(log, source, end, source[..end + 1])
  {
    forall j | Agree(log, source, j) ensures Agree(source[..end + 1], source, j) {
      if j >= cut {
        AgreeDown(log, source, j, cut);
      }
    }
  }

  /** Merging a window of a log that matches ours: we end up agreeing with it through the
      window, and lose no index on which we already agreed. */
  lemma MergeWindowOf(log: Log, source: Log, a: AppendEntriesArgs)
    requires WindowOf(source, a)
    requires a.prevLogIndex < |log| && log[a.prevLogIndex].term == a.prevLogTerm
    requires WellFormed(log) && WellFormed(source) && Matching(log, source)
    ensures Merges(source, a, log, MergeEntries(log, a.entries, LastIndex(log)))
  {
    WindowIsWindow(source, a);
    var cut := MergeCut(log, a.prevLogIndex, a.entries);
    CutMerges(log, source, a, cut, MergeEntries(log, a.entries, LastIndex(log)));
  }

  lemma WindowIsWindow(source: Log, a: AppendEntriesArgs)
    requires WindowOf(source, a) && WellFormed(source)
    ensures Window(a.prevLogIndex, a.entries)
  {
    assert forall k :: 0 <= k < |a.entries| ==> a.entries[k] == source[a.prevLogIndex + 1 + k];
  }
}
