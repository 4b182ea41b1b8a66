/** Section 5.3 of the Raft paper: Log Matching and Leader Append-Only, on every run. */
module LogMatching {
  import opened RaftLog
  import opened RaftNode
  import opened AppendMerge
  import opened Cluster
  import opened ElectionSafety

  type TermLogs = map<int, Log>

  /** Every prefix of the log is a prefix of the log of the leader that made its last entry. */
  ghost predicate Sound(log: Log, E: TermLogs) {
    forall i :: 0 <= i < |log| ==> log[i].term in E && Agree(log, E[log[i].term], i)
  }

  ghost predicate TermsUpTo(log: Log, term: int) {
    forall i :: 0 <= i < |log| ==> log[i].term <= term
  }

  ghost predicate LogOk(log: Log, term: int, E: TermLogs) {
    WellFormed(log) && Sound(log, E) && TermsUpTo(log, term)
  }

  ghost predicate TermLogsOk(s: State) {
    && s.hist.termLogs.Keys == s.hist.leaders.Keys + {0}
    && s.hist.termLogs[0] == [SENTINEL]
    && (forall t :: t in s.hist.leaders ==> t >= 1)
    && (forall t :: t in s.hist.termLogs ==> LogOk(s.hist.termLogs[t], t, s.hist.termLogs))
  }

  ghost predicate NodeLogsOk(s: State) {
    forall n :: n in s.nodes ==>
      && s.nodes[n].currentTerm >= 0
      && (s.nodes[n].role != Follower ==> s.nodes[n].currentTerm >= 1)
      && LogOk(s.nodes[n].log, s.nodes[n].currentTerm, s.hist.termLogs)
  }

  ghost predicate LeaderOwnsLog(s: State) {
    forall n :: n in s.nodes && s.nodes[n].role == Leader ==>
      s.nodes[n].currentTerm in s.hist.termLogs && s.hist.termLogs[s.nodes[n].currentTerm] == s.nodes[n].log
  }

  ghost predicate NextIndexOk(cfg: Config, s: State) {
    forall n, p :: n in s.nodes && s.nodes[n].role == Leader && p in cfg.Ids() && p != n ==>
      Lookup(s.nodes[n].nextIndex, p) >= 1
  }

  ghost predicate RequestOk(s: State, leader: NodeId, a: AppendEntriesArgs) {
    && a.term in s.hist.leaders && s.hist.leaders[a.term] == leader
    && a.term in s.hist.termLogs && WindowOf(s.hist.termLogs[a.term], a)
  }

  ghost predicate RequestsOk(s: State) {
    && (forall m :: m in s.network && m.AppendRequest? ==> RequestOk(s, m.src, m.app))
    && (forall m :: m in s.network && m.AppendResponse? ==> RequestOk(s, m.dst, m.app))
  }

  ghost predicate LogInv(cfg: Config, s: State) {
    TermLogsOk(s) && NodeLogsOk(s) && LeaderOwnsLog(s) && NextIndexOk(cfg, s) && RequestsOk(s)
  }

  // ---- Growth of the recorded leader logs ----

  ghost predicate Prefix(a: Log, b: Log) {
    |a| <= |b| && b[..|a|] == a
  }

  ghost predicate Grows(E: TermLogs, E': TermLogs) {
    forall t :: t in E ==> t in E' && Prefix(E[t], E'[t])
  }

  lemma SoundGrows(log: Log, E: TermLogs, E': TermLogs)
    requires Sound(log, E) && Grows(E, E')
    ensures Sound(log, E')
  {
    forall i | 0 <= i < |log| ensures log[i].term in E' && Agree(log, E'[log[i].term], i) {
      var t := log[i].term;
      assert Agree(log, E[t], i);
      assert E'[t][..i + 1] == E[t][..i + 1] by {
        assert E'[t][..i + 1] == E'[t][..|E[t]|][..i + 1];
      }
    }
  }

  lemma LogOkGrows(log: Log, term: int, term': int, E: TermLogs, E': TermLogs)
    requires LogOk(log, term, E) && Grows(E, E') && term <= term'
    ensures LogOk(log, term', E')
  {
    SoundGrows(log, E, E');
  }

  lemma WindowGrows(a: Log, b: Log, args: AppendEntriesArgs)
    requires Prefix(a, b) && WindowOf(a, args)
    ensures WindowOf(b, args)
  {
    PrefixSlice(a, b, args.prevLogIndex, args.prevLogIndex + 1);
    PrefixSlice(a, b, args.prevLogIndex + 1, args.prevLogIndex + 1 + |args.entries|);
    assert a[args.prevLogIndex] == a[args.prevLogIndex..args.prevLogIndex + 1][0];
  }

  lemma PrefixSlice(a: Log, b: Log, lo: nat, hi: nat)
    requires Prefix(a, b) && lo <= hi <= |a|
    ensures a[lo..hi] == b[lo..hi]
  {
    forall i | 0 <= i < hi - lo ensures a[lo..hi][i] == b[lo..hi][i] {
      assert b[..|a|][lo + i] == b[lo + i];
    }
  }

  lemma RequestsGrow(s: State, s': State)
    requires RequestsOk(s) && Extends(s.hist.leaders, s'.hist.leaders) && Grows(s.hist.termLogs, s'.hist.termLogs)
    requires forall m :: m in s'.network && m.AppendRequest? && m !in s.network ==> RequestOk(s', m.src, m.app)
    requires forall m :: m in s'.network && m.AppendResponse? && m !in s.network ==> RequestOk(s', m.dst, m.app)
    ensures RequestsOk(s')
  {
    forall m | m in s.network && m.AppendRequest? ensures RequestOk(s', m.src, m.app) {
      WindowGrows(s.hist.termLogs[m.app.term], s'.hist.termLogs[m.app.term], m.app);
    }
    forall m | m in s.network && m.AppendResponse? ensures RequestOk(s', m.dst, m.app) {
      WindowGrows(s.hist.termLogs[m.app.term], s'.hist.termLogs[m.app.term], m.app);
    }
  }

  /** Two sound logs: equal terms at an index mean equal logs up to it. */
  lemma SoundLogsMatch(a: Log, b: Log, E: TermLogs)
    requires Sound(a, E) && Sound(b, E)
    ensures Matching(a, b)
  {
    forall i | 0 <= i < |a| && i < |b| && a[i].term == b[i].term ensures Agree(a, b, i) {
      assert Agree(a, E[a[i].term], i) && Agree(b, E[b[i].term], i);
    }
  }

  /** A prefix of a sound log is sound. */
  lemma PrefixOk(log: Log, n: nat, term: int, E: TermLogs)
    requires LogOk(log, term, E) && 0 < n <= |log|
    ensures LogOk(log[..n], term, E)
  {
    forall i | 0 <= i < n ensures log[..n][i].term in E && Agree(log[..n], E[log[..n][i].term], i) {
      assert Agree(log, E[log[i].term], i);
      assert log[..n][..i + 1] == log[..i + 1];
    }
  }

  // ---- Steps that leave all logs alone ----

  ghost predicate SameLog(cfg: Config, n: NodeId, st: NodeState, st': NodeState) {
    && st'.log == st.log && st'.currentTerm >= st.currentTerm
    && (st'.role != Follower ==> st'.currentTerm > st.currentTerm || st.role != Follower)
    && (st'.role == Leader ==> st.role == Leader && st'.currentTerm == st.currentTerm)
    && (st'.role == Leader ==> forall p :: p in cfg.Ids() && p != n ==>
          (Lookup(st.nextIndex, p) >= 1 ==> Lookup(st'.nextIndex, p) >= 1))
  }

  ghost predicate LogsUntouched(cfg: Config, s: State, s': State) {
    && s'.nodes.Keys == s.nodes.Keys
    && s'.hist.leaders == s.hist.leaders && s'.hist.termLogs == s.hist.termLogs
    && (forall n :: n in s.nodes ==> SameLog(cfg, n, s.nodes[n], s'.nodes[n]))
    && (forall m :: m in s'.network && m.AppendRequest? && m !in s.network ==> RequestOk(s, m.src, m.app))
    && (forall m :: m in s'.network && m.AppendResponse? && m !in s.network ==> RequestOk(s, m.dst, m.app))
  }

  lemma UntouchedKeepsLogs(cfg: Config, s: State, s': State)
    requires LogInv(cfg, s) && LogsUntouched(cfg, s, s')
    ensures LogInv(cfg, s')
  {
    forall n | n in s'.nodes
      ensures s'.nodes[n].currentTerm >= 0
      ensures s'.nodes[n].role != Follower ==> s'.nodes[n].currentTerm >= 1
      ensures LogOk(s'.nodes[n].log, s'.nodes[n].currentTerm, s'.hist.termLogs)
    {
      assert SameLog(cfg, n, s.nodes[n], s'.nodes[n]);
      LogOkGrows(s.nodes[n].log, s.nodes[n].currentTerm, s'.nodes[n].currentTerm, s.hist.termLogs, s'.hist.termLogs);
    }
    forall n | n in s'.nodes && s'.nodes[n].role == Leader
      ensures s'.nodes[n].currentTerm in s'.hist.termLogs && s'.hist.termLogs[s'.nodes[n].currentTerm] == s'.nodes[n].log
    {
      assert SameLog(cfg, n, s.nodes[n], s'.nodes[n]);
    }
    forall n, p | n in s'.nodes && s'.nodes[n].role == Leader && p in cfg.Ids() && p != n
      ensures Lookup(s'.nodes[n].nextIndex, p) >= 1
    {
      assert SameLog(cfg, n, s.nodes[n], s'.nodes[n]);
    }
  }

  /** Handlers that touch no log, one node at a time. */
  lemma CandidateSameLog(cfg: Config, n: NodeId, st: NodeState)
    requires |st.log| > 0 && Get(st.log, LastIndex(st.log)).Some? && st.role != Leader
    ensures SameLog(cfg, n, st, StartElection(n, st).0)
  {}

  lemma VoterSameLog(cfg: Config, n: NodeId, st: NodeState, args: RequestVoteArgs)
    ensures SameLog(cfg, n, st, HandleRequestVote(st, args).0)
  {}

  lemma LeaderSameLog(cfg: Config, n: NodeId, st: NodeState, peer: NodeId, a: AppendEntriesArgs, reply: AppendEntriesReply)
    requires |st.log| > 0 && a.prevLogIndex >= 0
    ensures SameLog(cfg, n, st, HandleAppendReply(cfg, n, st, peer, a, reply))
  {}

  lemma LoserSameLog(cfg: Config, n: NodeId, st: NodeState, reqTerm: int, reply: RequestVoteReply)
    requires |st.log| > 0
    requires st.role == Leader || HandleVoteReply(cfg, n, st, reqTerm, reply).role != Leader
    ensures SameLog(cfg, n, st, HandleVoteReply(cfg, n, st, reqTerm, reply))
  {}

  lemma TimeoutUntouched(cfg: Config, s: State, n: NodeId)
    requires Enabled(cfg, s, Timeout(n))
    ensures LogsUntouched(cfg, s, TimeoutNext(cfg, s, n))
  {
    CandidateSameLog(cfg, n, s.nodes[n]);
  }

  lemma VoteRequestUntouched(cfg: Config, s: State, m: Message)
    requires Enabled(cfg, s, ReceiveVoteRequest(m))
    ensures LogsUntouched(cfg, s, VoteRequestNext(s, m))
  {
    VoterSameLog(cfg, m.dst, s.nodes[m.dst], m.vote);
  }

  lemma ApplyUntouched(cfg: Config, s: State, n: NodeId)
    requires Enabled(cfg, s, Apply(n))
    ensures LogsUntouched(cfg, s, ApplyNext(s, n))
  {}

  lemma AppendResponseUntouched(cfg: Config, s: State, m: Message)
    requires Enabled(cfg, s, ReceiveAppendResponse(m)) && m.app.prevLogIndex >= 0
    ensures LogsUntouched(cfg, s, AppendResponseNext(cfg, s, m))
  {
    LeaderSameLog(cfg, m.dst, s.nodes[m.dst], m.src, m.app, m.appReply);
  }

  lemma SendAppendUntouched(cfg: Config, s: State, n: NodeId, peer: NodeId)
    requires Enabled(cfg, s, SendAppend(n, peer)) && RequestOk(s, n, BuildAppendEntries(n, s.nodes[n], peer))
    ensures LogsUntouched(cfg, s, SendAppendNext(s, n, peer))
  {}

  lemma RefusedProposalUntouched(cfg: Config, s: State, n: NodeId, command: Command)
    requires Enabled(cfg, s, ClientPropose(n, command)) && s.nodes[n].role != Leader
    ensures LogsUntouched(cfg, s, ProposeNext(s, n, command))
  {}

  lemma BuiltRequestIsWindow(s: NodeState, me: NodeId, peer: NodeId)
    requires WellFormed(s.log) && Lookup(s.nextIndex, peer) >= 1
    ensures var a := BuildAppendEntries(me, s, peer);
            && WindowOf(s.log, a) && a.term == s.currentTerm && a.leaderID == me && a.leaderCommit == s.commitIndex
            && a.prevLogIndex + |a.entries| == |s.log| - 1
  {
    WellFormedIsContiguous(s.log);
    var last := LastIndex(s.log);
    var next := if Lookup(s.nextIndex, peer) > last + 1 then last + 1 else Lookup(s.nextIndex, peer);
    EntriesFromIsSlice(s.log, next);
    var a := BuildAppendEntries(me, s, peer);
    assert a.prevLogIndex == next - 1 && a.entries == s.log[next..];
    assert s.log[next..] == s.log[next..next + |a.entries|];
    assert Get(s.log, next - 1) == Some(s.log[next - 1]);
  }

  lemma BuiltRequestOk(cfg: Config, s: State, n: NodeId, peer: NodeId)
    requires Enabled(cfg, s, SendAppend(n, peer)) && n in s.nodes
    requires LeadersAreRecorded(s) && NodeLogsOk(s) && LeaderOwnsLog(s) && NextIndexOk(cfg, s)
    ensures RequestOk(s, n, BuildAppendEntries(n, s.nodes[n], peer))
  {
    BuiltRequestIsWindow(s.nodes[n], n, peer);
  }

  // ---- The steps that change a log ----

  /** A won election records the winner's log as its term's log; a lost vote changes nothing. */
  lemma ReplyUntouched(cfg: Config, s: State, m: Message)
    requires Enabled(cfg, s, ReceiveVoteResponse(m))
    requires var s' := VoteResponseNext(cfg, s, m); m.dst in s'.nodes && !Wins(s, s', m)
    ensures LogsUntouched(cfg, s, VoteResponseNext(cfg, s, m))
  {
    LoserSameLog(cfg, m.dst, s.nodes[m.dst], m.reqTerm, m.voteReply);
  }

  ghost predicate WinsWithLog(cfg: Config, s: State, s': State, n: NodeId) {
    var st, st', h, h' := s.nodes, s'.nodes, s.hist, s'.hist;
    && n in st && st'.Keys == st.Keys && s'.network == s.network
    && (forall k :: k in st && k != n ==> st'[k] == st[k])
    && st[n].role == Candidate && st'[n].role == Leader
    && st'[n].currentTerm == st[n].currentTerm && st'[n].log == st[n].log
    && (forall p :: p in cfg.Ids() && p != n ==> Lookup(st'[n].nextIndex, p) >= 1)
    && h'.leaders == h.leaders[st[n].currentTerm := n]
    && h'.termLogs == h.termLogs[st[n].currentTerm := st[n].log]
  }

  lemma {:induction false} ResetSets(m: map<NodeId, int>, peers: seq<NodeId>, me: NodeId, v: int, p: NodeId)
    ensures Lookup(ResetPeers(m, peers, me, v), p) == if p in peers && p != me then v else Lookup(m, p)
    decreases |peers|
  {
    if peers != [] {
      ResetSets(m, peers[..|peers| - 1], me, v, p);
      assert peers == peers[..|peers| - 1] + [peers[|peers| - 1]];
    }
  }

  lemma WinnerResets(cfg: Config, n: NodeId, s: NodeState, reqTerm: int, reply: RequestVoteReply)
    requires WellFormed(s.log) && s.role != Leader
    requires HandleVoteReply(cfg, n, s, reqTerm, reply).role == Leader
    ensures var st := HandleVoteReply(cfg, n, s, reqTerm, reply);
            && s.role == Candidate && st.currentTerm == s.currentTerm == reqTerm && st.log == s.log
            && (forall p :: p in cfg.Ids() && p != n ==> Lookup(st.nextIndex, p) >= 1 && Lookup(st.matchIndex, p) == 0)
  {
    var st := HandleVoteReply(cfg, n, s, reqTerm, reply);
    assert st.nextIndex == ResetPeers(s.nextIndex, cfg.peers, n, LastIndex(s.log) + 1);
    assert st.matchIndex == ResetPeers(s.matchIndex, cfg.peers, n, 0);
    forall p | p in cfg.Ids() && p != n ensures Lookup(st.nextIndex, p) >= 1 && Lookup(st.matchIndex, p) == 0 {
      ResetSets(s.nextIndex, cfg.peers, n, LastIndex(s.log) + 1, p);
      ResetSets(s.matchIndex, cfg.peers, n, 0, p);
    }
  }

  lemma WinStepWinsWithLog(cfg: Config, s: State, m: Message)
    requires Shape(cfg, s) && NodeLogsOk(s) && Enabled(cfg, s, ReceiveVoteResponse(m))
    requires var s' := VoteResponseNext(cfg, s, m); m.dst in s'.nodes && Wins(s, s', m)
    ensures WinsWithLog(cfg, s, VoteResponseNext(cfg, s, m), m.dst)
  {
    WinnerResets(cfg, m.dst, s.nodes[m.dst], m.reqTerm, m.voteReply);
  }

  lemma WinGrows(cfg: Config, s: State, s': State, n: NodeId)
    requires TermLogsOk(s) && NodeLogsOk(s) && WinsWithLog(cfg, s, s', n)
    requires s.nodes[n].currentTerm !in s.hist.leaders
    ensures Grows(s.hist.termLogs, s'.hist.termLogs) && TermLogsOk(s')
  {
    var E, E' := s.hist.termLogs, s'.hist.termLogs;
    assert Grows(E, E');
    assert E'.Keys == s'.hist.leaders.Keys + {0};
    forall t | t in E' ensures LogOk(E'[t], t, E') {
      LogOkGrows(E'[t], t, t, E, E');
    }
  }

  lemma WinKeepsLogs(cfg: Config, s: State, s': State, n: NodeId)
    requires LogInv(cfg, s) && WinsWithLog(cfg, s, s', n)
    requires s.nodes[n].currentTerm !in s.hist.leaders
    ensures LogInv(cfg, s')
  {
    WinGrows(cfg, s, s', n);
    WinKeepsNodes(cfg, s, s', n);
    WinKeepsOwners(cfg, s, s', n);
    WinKeepsRequests(cfg, s, s', n);
  }

  lemma WinKeepsRequests(cfg: Config, s: State, s': State, n: NodeId)
    requires RequestsOk(s) && WinsWithLog(cfg, s, s', n) && Grows(s.hist.termLogs, s'.hist.termLogs)
    requires s.nodes[n].currentTerm !in s.hist.leaders
    ensures RequestsOk(s')
  {
    RequestsGrow(s, s');
  }

  lemma WinKeepsNodes(cfg: Config, s: State, s': State, n: NodeId)
    requires WinsWithLog(cfg, s, s', n) && Grows(s.hist.termLogs, s'.hist.termLogs)
    requires NodeLogsOk(s)
    ensures NodeLogsOk(s')
  {
    forall k | k in s'.nodes ensures LogOk(s'.nodes[k].log, s'.nodes[k].currentTerm, s'.hist.termLogs) {
      LogOkGrows(s.nodes[k].log, s.nodes[k].currentTerm, s'.nodes[k].currentTerm, s.hist.termLogs, s'.hist.termLogs);
    }
  }

  /** The winner owns its term's log; whoever led another term still owns that one's. */
  lemma WinKeepsOwners(cfg: Config, s: State, s': State, n: NodeId)
    requires WinsWithLog(cfg, s, s', n) && s.nodes[n].currentTerm !in s.hist.leaders
    requires LeaderOwnsLog(s) && NextIndexOk(cfg, s)
    requires s.hist.termLogs.Keys == s.hist.leaders.Keys + {0} && s.nodes[n].currentTerm >= 1
    ensures LeaderOwnsLog(s') && NextIndexOk(cfg, s')
  {}

  lemma VoteResponseKeepsLogs(cfg: Config, s: State, m: Message)
    requires cfg.Valid() && ElectionInv(cfg, s) && LogInv(cfg, s) && Enabled(cfg, s, ReceiveVoteResponse(m))
    ensures LogInv(cfg, Next(cfg, s, ReceiveVoteResponse(m)))
  {
    var s' := VoteResponseNext(cfg, s, m);
    VoteResponseReplies(cfg, s, m);
    if Wins(s, s', m) {
      WinnerHasMajority(cfg, s, s', m);
      WinStepWinsWithLog(cfg, s, m);
      WinKeepsLogs(cfg, s, s', m.dst);
    } else {
      ReplyUntouched(cfg, s, m);
      UntouchedKeepsLogs(cfg, s, s');
    }
  }

  /** A leader appends an entry of its own term to the log recorded for the term. */
  ghost predicate Proposes(cfg: Config, s: State, s': State, n: NodeId, e: LogEntry) {
    var st, st', h, h' := s.nodes, s'.nodes, s.hist, s'.hist;
    && n in st && st'.Keys == st.Keys && s'.network == s.network
    && (forall k :: k in st && k != n ==> st'[k] == st[k])
    && st[n].role == Leader && st'[n] == st[n].(log := st[n].log + [e])
    && e.term == st[n].currentTerm && e.index == |st[n].log|
    && h'.leaders == h.leaders
    && h'.termLogs == h.termLogs[st[n].currentTerm := st[n].log + [e]]
  }

  lemma ProposeProposes(cfg: Config, s: State, n: NodeId, command: Command)
    requires Shape(cfg, s) && NodeLogsOk(s) && Enabled(cfg, s, ClientPropose(n, command)) && s.nodes[n].role == Leader
    ensures Proposes(cfg, s, ProposeNext(s, n, command), n,
                     LogEntry(s.nodes[n].currentTerm, |s.nodes[n].log|, command))
  {
    LeaderAppends(s.nodes[n], command);
  }

  lemma LeaderAppends(st: NodeState, command: Command)
    requires WellFormed(st.log) && st.role == Leader
    ensures Propose(st, command).0 == st.(log := st.log + [LogEntry(st.currentTerm, |st.log|, command)])
    ensures Propose(st, command).1.isLeader
  {
    WellFormedIsContiguous(st.log);
  }

  lemma ExtendedLogOk(log: Log, e: LogEntry, E: TermLogs, E': TermLogs)
    requires LogOk(log, e.term, E) && Grows(E, E') && e.index == |log|
    requires e.term in E' && E'[e.term] == log + [e]
    ensures LogOk(log + [e], e.term, E')
  {
    LogOkGrows(log, e.term, e.term, E, E');
    forall i | 0 <= i < |log| + 1
      ensures (log + [e])[i].term in E' && Agree(log + [e], E'[(log + [e])[i].term], i)
    {
      if i < |log| {
        assert Agree(log, E'[log[i].term], i);
        assert (log + [e])[..i + 1] == log[..i + 1];
      }
    }
  }

  lemma ProposalGrows(cfg: Config, s: State, s': State, n: NodeId, e: LogEntry)
    requires TermLogsOk(s) && NodeLogsOk(s) && LeaderOwnsLog(s) && LeadersAreRecorded(s) && Proposes(cfg, s, s', n, e)
    ensures Grows(s.hist.termLogs, s'.hist.termLogs) && TermLogsOk(s')
    ensures LogOk(s'.nodes[n].log, e.term, s'.hist.termLogs)
  {
    var E, E' := s.hist.termLogs, s'.hist.termLogs;
    assert Grows(E, E');
    ExtendedLogOk(s.nodes[n].log, e, E, E');
    ProposalKeepsTermLogs(cfg, s, s', n, e);
  }

  lemma ProposalKeepsTermLogs(cfg: Config, s: State, s': State, n: NodeId, e: LogEntry)
    requires TermLogsOk(s) && LeadersAreRecorded(s) && Proposes(cfg, s, s', n, e) && Grows(s.hist.termLogs, s'.hist.termLogs)
    requires LogOk(s'.nodes[n].log, e.term, s'.hist.termLogs)
    ensures TermLogsOk(s')
  {
    var E, E' := s.hist.termLogs, s'.hist.termLogs;
    forall t | t in E' ensures LogOk(E'[t], t, E') {
      if t != e.term { LogOkGrows(E[t], t, t, E, E'); }
    }
  }

  lemma ProposalKeepsLogs(cfg: Config, s: State, s': State, n: NodeId, e: LogEntry)
    requires LogInv(cfg, s) && LeadersAreRecorded(s) && Proposes(cfg, s, s', n, e)
    ensures LogInv(cfg, s')
  {
    ProposalGrows(cfg, s, s', n, e);
    ProposalKeepsNodes(cfg, s, s', n, e);
    ProposalKeepsOwners(cfg, s, s', n, e);
    ProposalKeepsRequests(cfg, s, s', n, e);
  }

  lemma ProposalKeepsOwners(cfg: Config, s: State, s': State, n: NodeId, e: LogEntry)
    requires LeaderOwnsLog(s) && NextIndexOk(cfg, s) && LeadersAreRecorded(s) && Proposes(cfg, s, s', n, e)
    ensures LeaderOwnsLog(s') && NextIndexOk(cfg, s')
  {
    forall k | k in s'.nodes && s'.nodes[k].role == Leader
      ensures s'.nodes[k].currentTerm in s'.hist.termLogs && s'.hist.termLogs[s'.nodes[k].currentTerm] == s'.nodes[k].log
    {
      assert k == n || s.nodes[k].currentTerm != e.term;
    }
  }

  lemma ProposalKeepsRequests(cfg: Config, s: State, s': State, n: NodeId, e: LogEntry)
    requires RequestsOk(s) && Proposes(cfg, s, s', n, e) && Grows(s.hist.termLogs, s'.hist.termLogs)
    ensures RequestsOk(s')
  {
    RequestsGrow(s, s');
  }

  lemma ProposalKeepsNodes(cfg: Config, s: State, s': State, n: NodeId, e: LogEntry)
    requires NodeLogsOk(s) && Proposes(cfg, s, s', n, e) && Grows(s.hist.termLogs, s'.hist.termLogs)
    requires LogOk(s'.nodes[n].log, e.term, s'.hist.termLogs)
    ensures NodeLogsOk(s')
  {
    forall k | k in s'.nodes ensures LogOk(s'.nodes[k].log, s'.nodes[k].currentTerm, s'.hist.termLogs) {
      if k != n {
        LogOkGrows(s.nodes[k].log, s.nodes[k].currentTerm, s'.nodes[k].currentTerm, s.hist.termLogs, s'.hist.termLogs);
      }
    }
  }

  lemma ProposeKeepsLogs(cfg: Config, s: State, n: NodeId, command: Command)
    requires Enabled(cfg, s, ClientPropose(n, command)) && s.nodes[n].role == Leader
    requires Shape(cfg, s) && LeadersAreRecorded(s) && LogInv(cfg, s)
    ensures LogInv(cfg, ProposeNext(s, n, command))
  {
    ProposeProposes(cfg, s, n, command);
    ProposalKeepsLogs(cfg, s, ProposeNext(s, n, command), n,
                      LogEntry(s.nodes[n].currentTerm, |s.nodes[n].log|, command));
  }

  lemma HandlerCases(st: NodeState, a: AppendEntriesArgs)
    requires |st.log| > 0
    ensures var (st', reply) := HandleAppendEntries(st, a);
            && reply.success == (a.term >= st.currentTerm && PrevMatches(st.log, a))
            && (reply.success ==> st'.currentTerm == a.term && st'.log == MergeEntries(st.log, a.entries, LastIndex(st.log)))
            && (!reply.success ==> st'.log == st.log && st'.commitIndex == st.commitIndex)
            && (if a.term > st.currentTerm
                then st'.currentTerm == a.term && st'.role == Follower
                else st'.currentTerm == st.currentTerm && st'.role == st.role)
            && st'.nextIndex == st.nextIndex && st'.matchIndex == st.matchIndex && st'.lastApplied == st.lastApplied
  {}

  lemma PrevEntryMatches(log: Log, a: AppendEntriesArgs)
    requires WellFormed(log) && a.prevLogIndex >= 0 && PrevMatches(log, a)
    ensures a.prevLogIndex < |log| && log[a.prevLogIndex].term == a.prevLogTerm
  {
    WellFormedIsContiguous(log);
    assert Get(log, a.prevLogIndex) == Some(log[a.prevLogIndex]);
  }

  lemma HandledRequestMerges(st: NodeState, a: AppendEntriesArgs, source: Log, E: TermLogs)
    requires LogOk(st.log, st.currentTerm, E) && WellFormed(source) && Sound(source, E) && WindowOf(source, a)
    ensures var (st', reply) := HandleAppendEntries(st, a);
            reply.success ==> st'.currentTerm == a.term && Merges(source, a, st.log, st'.log)
  {
    HandlerCases(st, a);
    if a.term >= st.currentTerm && PrevMatches(st.log, a) {
      PrevEntryMatches(st.log, a);
      SoundLogsMatch(st.log, source, E);
      MergeWindowOf(st.log, source, a);
    }
  }

  /** The whole effect of handling a request on the node's log and standing. */
  ghost predicate HandlesRequest(st: NodeState, st': NodeState, a: AppendEntriesArgs, source: Log, accepted: bool) {
    && (accepted ==> st'.currentTerm == a.term && a.term >= st.currentTerm && Merges(source, a, st.log, st'.log))
    && (!accepted ==> st'.log == st.log && st'.commitIndex == st.commitIndex)
    && (if a.term > st.currentTerm
        then st'.currentTerm == a.term && st'.role == Follower
        else st'.currentTerm == st.currentTerm && st'.role == st.role)
    && st'.nextIndex == st.nextIndex && st'.matchIndex == st.matchIndex && st'.lastApplied == st.lastApplied
  }

  lemma AppendHandlesRequest(cfg: Config, s: State, m: Message)
    requires Shape(cfg, s) && LogInv(cfg, s) && Enabled(cfg, s, ReceiveAppend(m))
    ensures var (st', reply) := HandleAppendEntries(s.nodes[m.dst], m.app);
            && m.app.term in s.hist.termLogs
            && HandlesRequest(s.nodes[m.dst], st', m.app, s.hist.termLogs[m.app.term], reply.success)
  {
    assert RequestOk(s, m.src, m.app);
    HandlerCases(s.nodes[m.dst], m.app);
    HandledRequestMerges(s.nodes[m.dst], m.app, s.hist.termLogs[m.app.term], s.hist.termLogs);
  }

  lemma MergedLogOk(log: Log, log': Log, term: int, a: AppendEntriesArgs, source: Log, E: TermLogs)
    requires LogOk(log, term, E) && LogOk(source, a.term, E) && Merges(source, a, log, log') && term <= a.term
    requires a.prevLogIndex >= 0 && a.prevLogIndex + |a.entries| < |source|
    ensures LogOk(log', a.term, E)
  {
    if log' != log {
      PrefixOk(source, a.prevLogIndex + 1 + |a.entries|, a.term, E);
    }
  }

  lemma AppendedNodeOk(cfg: Config, s: State, n: NodeId, st': NodeState, leader: NodeId, a: AppendEntriesArgs, accepted: bool)
    requires LeadersAreRecorded(s) && TermLogsOk(s) && NodeLogsOk(s) && RequestOk(s, leader, a)
    requires n in s.nodes && n != leader
    requires HandlesRequest(s.nodes[n], st', a, s.hist.termLogs[a.term], accepted)
    ensures st'.currentTerm >= 0 && (st'.role != Follower ==> st'.currentTerm >= 1)
    ensures LogOk(st'.log, st'.currentTerm, s.hist.termLogs)
    ensures st'.role == Leader ==> s.nodes[n].role == Leader && st'.currentTerm == s.nodes[n].currentTerm && st'.log == s.nodes[n].log
  {
    var st, E := s.nodes[n], s.hist.termLogs;
    if accepted {
      MergedLogOk(st.log, st'.log, st.currentTerm, a, E[a.term], E);
    } else {
      LogOkGrows(st.log, st.currentTerm, st'.currentTerm, E, E);
    }
  }

  /** A follower's answer: the node moves as HandlesRequest says, the reply enters the network,
      and an accepted request is recorded as a confirmation of its window's end. */
  ghost predicate Answers(s: State, s': State, m: Message, st': NodeState, reply: AppendEntriesReply) {
    && m in s.network && m.AppendRequest? && m.dst in s.nodes && m.src != m.dst && RequestOk(s, m.src, m.app)
    && HandlesRequest(s.nodes[m.dst], st', m.app, s.hist.termLogs[m.app.term], reply.success)
    && s'.nodes == s.nodes[m.dst := st']
    && s'.network == s.network + {AppendResponse(m.dst, m.src, m.app, reply)}
    && s'.hist.leaders == s.hist.leaders && s'.hist.termLogs == s.hist.termLogs && s'.hist.commits == s.hist.commits
    && s'.hist.acks == (if !reply.success then s.hist.acks
                        else Ack(s.hist.acks, m.dst, m.app.term, m.app.prevLogIndex + |m.app.entries|))
  }

  lemma AppendAnswers(cfg: Config, s: State, m: Message)
    requires Shape(cfg, s) && LogInv(cfg, s) && Enabled(cfg, s, ReceiveAppend(m))
    ensures var (st', reply) := HandleAppendEntries(s.nodes[m.dst], m.app);
            Answers(s, AppendNext(s, m), m, st', reply)
  {
    assert RequestOk(s, m.src, m.app);
    AppendHandlesRequest(cfg, s, m);
  }

  lemma AnswerKeepsLogs(cfg: Config, s: State, s': State, m: Message, st': NodeState, reply: AppendEntriesReply)
    requires Answers(s, s', m, st', reply) && LeadersAreRecorded(s) && LogInv(cfg, s)
    ensures LogInv(cfg, s')
  {
    AppendedNodeOk(cfg, s, m.dst, st', m.src, m.app, reply.success);
    NodeSwapKeepsLogs(cfg, s, s', m.dst);
  }

  lemma AppendKeepsLogs(cfg: Config, s: State, m: Message)
    requires Enabled(cfg, s, ReceiveAppend(m)) && Shape(cfg, s) && LeadersAreRecorded(s) && LogInv(cfg, s)
    ensures LogInv(cfg, AppendNext(s, m))
  {
    var (st', reply) := HandleAppendEntries(s.nodes[m.dst], m.app);
    AppendAnswers(cfg, s, m);
    AnswerKeepsLogs(cfg, s, AppendNext(s, m), m, st', reply);
  }

  /** Replacing one node by a sound one that is no new leader keeps the invariant. */
  lemma NodeSwapKeepsLogs(cfg: Config, s: State, s': State, n: NodeId)
    requires LogInv(cfg, s) && n in s.nodes && s'.nodes.Keys == s.nodes.Keys
    requires forall k :: k in s.nodes && k != n ==> s'.nodes[k] == s.nodes[k]
    requires s'.hist.leaders == s.hist.leaders && s'.hist.termLogs == s.hist.termLogs
    requires s'.nodes[n].currentTerm >= 0 && (s'.nodes[n].role != Follower ==> s'.nodes[n].currentTerm >= 1)
    requires LogOk(s'.nodes[n].log, s'.nodes[n].currentTerm, s.hist.termLogs)
    requires s'.nodes[n].role == Leader ==>
               s.nodes[n].role == Leader && s'.nodes[n].currentTerm == s.nodes[n].currentTerm
               && s'.nodes[n].log == s.nodes[n].log && s'.nodes[n].nextIndex == s.nodes[n].nextIndex
    requires forall m :: m in s'.network && m.AppendRequest? ==> m in s.network
    requires forall m :: m in s'.network && m.AppendResponse? && m !in s.network ==> RequestOk(s, m.dst, m.app)
    ensures LogInv(cfg, s')
  {
    SwapKeepsRequests(s, s');
    SwapKeepsNodes(s, s', n);
    SwapKeepsOwners(cfg, s, s', n);
  }

  lemma SwapKeepsOwners(cfg: Config, s: State, s': State, n: NodeId)
    requires n in s.nodes && s'.nodes.Keys == s.nodes.Keys && s'.hist.termLogs == s.hist.termLogs
    requires forall k :: k in s.nodes && k != n ==> s'.nodes[k] == s.nodes[k]
    requires s'.nodes[n].role == Leader ==>
               s.nodes[n].role == Leader && s'.nodes[n].currentTerm == s.nodes[n].currentTerm
               && s'.nodes[n].log == s.nodes[n].log && s'.nodes[n].nextIndex == s.nodes[n].nextIndex
    requires LeaderOwnsLog(s) && NextIndexOk(cfg, s)
    ensures LeaderOwnsLog(s') && NextIndexOk(cfg, s')
  {}

  lemma SwapKeepsRequests(s: State, s': State)
    requires s'.hist.leaders == s.hist.leaders && s'.hist.termLogs == s.hist.termLogs
    requires forall m :: m in s'.network && m.AppendRequest? ==> m in s.network
    requires forall m :: m in s'.network && m.AppendResponse? && m !in s.network ==> RequestOk(s, m.dst, m.app)
    requires RequestsOk(s)
    ensures RequestsOk(s')
  {
    RequestsGrow(s, s');
  }

  lemma SwapKeepsNodes(s: State, s': State, n: NodeId)
    requires n in s.nodes && s'.nodes.Keys == s.nodes.Keys && s'.hist.termLogs == s.hist.termLogs
    requires forall k :: k in s.nodes && k != n ==> s'.nodes[k] == s.nodes[k]
    requires s'.nodes[n].currentTerm >= 0 && (s'.nodes[n].role != Follower ==> s'.nodes[n].currentTerm >= 1)
    requires LogOk(s'.nodes[n].log, s'.nodes[n].currentTerm, s.hist.termLogs)
    requires NodeLogsOk(s)
    ensures NodeLogsOk(s')
  {}

  lemma StepUntouched(cfg: Config, s: State, step: Step)
    requires Enabled(cfg, s, step)
    requires !step.ReceiveVoteResponse? && !step.ReceiveAppend? && (step.ClientPropose? ==> s.nodes[step.n].role != Leader)
    requires LeadersAreRecorded(s) && LogInv(cfg, s)
    ensures LogsUntouched(cfg, s, Next(cfg, s, step))
  {
    if step.Timeout? {
      TimeoutUntouched(cfg, s, step.n);
    } else if step.ReceiveVoteRequest? {
      VoteRequestUntouched(cfg, s, step.m);
    } else if step.SendAppend? {
      BuiltRequestOk(cfg, s, step.n, step.peer);
      SendAppendUntouched(cfg, s, step.n, step.peer);
    } else if step.ReceiveAppendResponse? {
      assert RequestOk(s, step.m.dst, step.m.app);
      AppendResponseUntouched(cfg, s, step.m);
    } else if step.ClientPropose? {
      RefusedProposalUntouched(cfg, s, step.n, step.command);
    } else {
      ApplyUntouched(cfg, s, step.n);
    }
  }

  lemma StepKeepsLogs(cfg: Config, s: State, step: Step)
    requires cfg.Valid() && Enabled(cfg, s, step) && ElectionInv(cfg, s) && LogInv(cfg, s)
    ensures LogInv(cfg, Next(cfg, s, step))
  {
    if step.ReceiveVoteResponse? {
      VoteResponseKeepsLogs(cfg, s, step.m);
    } else if step.ReceiveAppend? {
      AppendKeepsLogs(cfg, s, step.m);
    } else if step.ClientPropose? && s.nodes[step.n].role == Leader {
      ProposeKeepsLogs(cfg, s, step.n, step.command);
    } else {
      StepUntouched(cfg, s, step);
      UntouchedKeepsLogs(cfg, s, Next(cfg, s, step));
    }
  }

  lemma InitLogs(cfg: Config)
    ensures LogInv(cfg, Init(cfg))
  {}

  // ---- Over runs ----

  /** Both invariants as one fact about a state. */
  ghost predicate Inv(cfg: Config, s: State) {
    ElectionInv(cfg, s) && LogInv(cfg, s)
  }

  lemma InitInv(cfg: Config)
    ensures Inv(cfg, Init(cfg))
  {
    InitElection(cfg);
    InitLogs(cfg);
  }

  lemma TransitionKeepsInv(cfg: Config, s: State, step: Step, s': State)
    requires cfg.Valid() && Inv(cfg, s) && Transition(cfg, s, step, s')
    ensures Inv(cfg, s')
  {
    StepKeepsElection(cfg, s, step);
    StepKeepsLogs(cfg, s, step);
  }

  ghost function InvOf(cfg: Config): State -> bool {
    s => Inv(cfg, s)
  }

  lemma InvIsKept(cfg: Config)
    requires cfg.Valid()
    ensures InvOf(cfg)(Init(cfg)) && KeptByAll(cfg, InvOf(cfg))
  {
    InitInv(cfg);
    forall s, step, s' | Inv(cfg, s) && Transition(cfg, s, step, s') ensures Inv(cfg, s') {
      TransitionKeepsInv(cfg, s, step, s');
    }
  }

  lemma RunKeepsInv(cfg: Config, b: seq<State>, steps: seq<Step>, i: nat)
    requires cfg.Valid() && Run(cfg, b, steps) && i < |b|
    ensures Inv(cfg, b[i])
  {
    InvIsKept(cfg);
    AlongRun(cfg, InvOf(cfg), b, steps, i);
  }

  /** Every node of every reachable state is ready: readiness never holds a step back. */
  lemma ReachableIsReady(cfg: Config, b: seq<State>, steps: seq<Step>, i: nat, n: NodeId)
    requires cfg.Valid() && Run(cfg, b, steps) && i < |b| && n in cfg.Ids()
    ensures Ready(b[i], n)
  {
    RunKeepsInv(cfg, b, steps, i);
    WellFormedIsContiguous(b[i].nodes[n].log);
  }

  lemma TermLogsUntouched(cfg: Config, s: State, step: Step)
    requires Enabled(cfg, s, step) && !step.ReceiveVoteResponse? && !step.ClientPropose?
    ensures Next(cfg, s, step).hist.termLogs == s.hist.termLogs
  {}

  lemma StepGrows(cfg: Config, s: State, step: Step)
    requires Enabled(cfg, s, step) && cfg.Valid() && ElectionInv(cfg, s) && LogInv(cfg, s)
    ensures Grows(s.hist.termLogs, Next(cfg, s, step).hist.termLogs)
  {
    if step.ReceiveVoteResponse? {
      ReplyGrows(cfg, s, step.m);
    } else if step.ClientPropose? {
      ProposeGrows(cfg, s, step.n, step.command);
    } else {
      TermLogsUntouched(cfg, s, step);
    }
  }

  lemma ReplyGrows(cfg: Config, s: State, m: Message)
    requires cfg.Valid() && ElectionInv(cfg, s) && LogInv(cfg, s) && Enabled(cfg, s, ReceiveVoteResponse(m))
    ensures Grows(s.hist.termLogs, VoteResponseNext(cfg, s, m).hist.termLogs)
  {
    var s' := VoteResponseNext(cfg, s, m);
    VoteResponseReplies(cfg, s, m);
    if Wins(s, s', m) {
      WinnerHasMajority(cfg, s, s', m);
      WinStepWinsWithLog(cfg, s, m);
      WinGrows(cfg, s, s', m.dst);
    }
  }

  lemma ProposeGrows(cfg: Config, s: State, n: NodeId, command: Command)
    requires Ready(s, n) && Enabled(cfg, s, ClientPropose(n, command)) && ElectionInv(cfg, s) && LogInv(cfg, s)
    ensures Grows(s.hist.termLogs, ProposeNext(s, n, command).hist.termLogs)
  {
    if s.nodes[n].role == Leader {
      ProposeProposes(cfg, s, n, command);
      ProposalGrows(cfg, s, ProposeNext(s, n, command), n,
                    LogEntry(s.nodes[n].currentTerm, |s.nodes[n].log|, command));
    }
  }

  lemma GrowsTrans(A: TermLogs, B: TermLogs, C: TermLogs)
    requires Grows(A, B) && Grows(B, C)
    ensures Grows(A, C)
  {
    forall t | t in A ensures t in C && Prefix(A[t], C[t]) {
      assert C[t][..|A[t]|] == C[t][..|B[t]|][..|A[t]|];
    }
  }

  lemma {:induction false} RunGrows(cfg: Config, b: seq<State>, steps: seq<Step>, i: nat, j: nat)
    requires cfg.Valid() && Run(cfg, b, steps) && i <= j < |b|
    ensures Grows(b[i].hist.termLogs, b[j].hist.termLogs)
  {
    if i < j {
      RunGrows(cfg, b, steps, i, j - 1);
      RunStepGrows(cfg, b, steps, j);
      GrowsTrans(b[i].hist.termLogs, b[j - 1].hist.termLogs, b[j].hist.termLogs);
    }
  }

  lemma RunStepGrows(cfg: Config, b: seq<State>, steps: seq<Step>, j: nat)
    requires cfg.Valid() && Run(cfg, b, steps) && 0 < j < |b|
    ensures Grows(b[j - 1].hist.termLogs, b[j].hist.termLogs)
  {
    InvIsKept(cfg);
    forall s, step, s' | Inv(cfg, s) && Transition(cfg, s, step, s') ensures Grows(s.hist.termLogs, s'.hist.termLogs) {
      TransitionGrows(cfg, s, step, s');
    }
    EachStep(cfg, InvOf(cfg), (s: State, step: Step, s': State) => Grows(s.hist.termLogs, s'.hist.termLogs), b, steps, j);
  }

  lemma TransitionGrows(cfg: Config, s: State, step: Step, s': State)
    requires cfg.Valid() && Inv(cfg, s) && Transition(cfg, s, step, s')
    ensures Grows(s.hist.termLogs, s'.hist.termLogs)
  {
    StepGrows(cfg, s, step);
  }

  /** A log seen at time i is sound against everything recorded by a later time j. */
  lemma LogStaysSound(cfg: Config, b: seq<State>, steps: seq<Step>, i: nat, j: nat, n: NodeId)
    requires cfg.Valid() && Run(cfg, b, steps) && i <= j < |b| && n in b[i].nodes
    ensures WellFormed(b[i].nodes[n].log) && Sound(b[i].nodes[n].log, b[j].hist.termLogs)
  {
    RunKeepsInv(cfg, b, steps, i);
    RunGrows(cfg, b, steps, i, j);
    SoundGrows(b[i].nodes[n].log, b[i].hist.termLogs, b[j].hist.termLogs);
  }

  /** Log Matching: the logs two nodes hold, at any two moments of any run, are identical up
      to any index at which they hold the same term. */
  lemma LogMatching(cfg: Config, b: seq<State>, steps: seq<Step>, i: nat, j: nat, n: NodeId, k: NodeId, x: int)
    requires cfg.Valid() && Run(cfg, b, steps) && i < |b| && j < |b| && n in b[i].nodes && k in b[j].nodes
    requires 0 <= x < |b[i].nodes[n].log| && x < |b[j].nodes[k].log|
    requires b[i].nodes[n].log[x].term == b[j].nodes[k].log[x].term
    ensures Agree(b[i].nodes[n].log, b[j].nodes[k].log, x)
  {
    var last := if i <= j then j else i;
    LogStaysSound(cfg, b, steps, i, last, n);
    LogStaysSound(cfg, b, steps, j, last, k);
    SoundLogsMatch(b[i].nodes[n].log, b[j].nodes[k].log, b[last].hist.termLogs);
  }

  /** The same between a log and the window of a request in flight. */
  lemma RequestMatchesLog(cfg: Config, b: seq<State>, steps: seq<Step>, i: nat, n: NodeId, m: Message, k: nat)
    requires cfg.Valid() && Run(cfg, b, steps) && i < |b| && n in b[i].nodes
    requires m in b[i].network && m.AppendRequest?
    requires k < |m.app.entries| && 0 <= m.app.prevLogIndex + 1 + k < |b[i].nodes[n].log|
    requires b[i].nodes[n].log[m.app.prevLogIndex + 1 + k].term == m.app.entries[k].term
    ensures var log := b[i].nodes[n].log;
            && 0 <= m.app.prevLogIndex && log[m.app.prevLogIndex].term == m.app.prevLogTerm
            && log[m.app.prevLogIndex + 1..m.app.prevLogIndex + 2 + k] == m.app.entries[..k + 1]
  {
    RunKeepsInv(cfg, b, steps, i);
    RequestInMatchesLog(cfg, b[i], n, m, k);
  }

  lemma RequestInMatchesLog(cfg: Config, s: State, n: NodeId, m: Message, k: nat)
    requires TermLogsOk(s) && NodeLogsOk(s) && RequestsOk(s) && n in s.nodes
    requires m in s.network && m.AppendRequest?
    requires k < |m.app.entries| && 0 <= m.app.prevLogIndex + 1 + k < |s.nodes[n].log|
    requires s.nodes[n].log[m.app.prevLogIndex + 1 + k].term == m.app.entries[k].term
    ensures var log := s.nodes[n].log;
            && 0 <= m.app.prevLogIndex && log[m.app.prevLogIndex].term == m.app.prevLogTerm
            && log[m.app.prevLogIndex + 1..m.app.prevLogIndex + 2 + k] == m.app.entries[..k + 1]
  {
    assert RequestOk(s, m.src, m.app);
    SoundLogsMatch(s.nodes[n].log, s.hist.termLogs[m.app.term], s.hist.termLogs);
    WindowMatches(s.nodes[n].log, s.hist.termLogs[m.app.term], m.app, k);
  }

  lemma WindowMatches(log: Log, source: Log, a: AppendEntriesArgs, k: nat)
    requires Matching(log, source) && WindowOf(source, a)
    requires k < |a.entries| && a.prevLogIndex + 1 + k < |log|
    requires log[a.prevLogIndex + 1 + k].term == a.entries[k].term
    ensures log[a.prevLogIndex].term == a.prevLogTerm
    ensures log[a.prevLogIndex + 1..a.prevLogIndex + 2 + k] == a.entries[..k + 1]
  {
    var p := a.prevLogIndex;
    assert a.entries[k] == source[p + 1 + k];
    assert Agree(log, source, p + 1 + k);
    AgreeDown(log, source, p + 1 + k, p);
    assert log[p + 1..p + 2 + k] == log[..p + 2 + k][p + 1..];
    assert a.entries[..k + 1] == source[..p + 2 + k][p + 1..];
  }

  /** The leader of a term holds, from then on while it leads, every entry any node ever
      received from that term, on the same prefix. */
  lemma LeaderHoldsItsTerm(cfg: Config, b: seq<State>, steps: seq<Step>, i: nat, j: nat, k: NodeId, n: NodeId, x: int)
    requires cfg.Valid() && Run(cfg, b, steps) && i <= j < |b| && k in b[i].nodes && n in b[j].nodes
    requires b[j].nodes[n].role == Leader
    requires 0 <= x < |b[i].nodes[k].log| && b[i].nodes[k].log[x].term == b[j].nodes[n].currentTerm
    ensures Agree(b[i].nodes[k].log, b[j].nodes[n].log, x)
  {
    LogStaysSound(cfg, b, steps, i, j, k);
    RunKeepsInv(cfg, b, steps, j);
  }

  /** Leader Append-Only: between two moments at which a node leads the same term, its log
      only got longer. */
  lemma LeaderAppendOnly(cfg: Config, b: seq<State>, steps: seq<Step>, i: nat, j: nat, n: NodeId)
    requires cfg.Valid() && Run(cfg, b, steps) && i <= j < |b| && n in b[i].nodes && n in b[j].nodes
    requires b[i].nodes[n].role == Leader && b[j].nodes[n].role == Leader
    requires b[i].nodes[n].currentTerm == b[j].nodes[n].currentTerm
    ensures Prefix(b[i].nodes[n].log, b[j].nodes[n].log)
  {
    RunKeepsInv(cfg, b, steps, i);
    RunKeepsInv(cfg, b, steps, j);
    RunGrows(cfg, b, steps, i, j);
  }
}
