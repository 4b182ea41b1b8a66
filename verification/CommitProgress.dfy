/** The other half of the commit rule: a leader commits no less than it may. CommitQuorum says
    what is true of whatever is committed; here, nothing a majority confirmed is left behind. */
module CommitProgress {
  import opened RaftLog
  import opened RaftNode
  import opened AppendMerge
  import opened Cluster
  import opened ElectionSafety
  import opened Elections
  import opened LogMatching
  import opened CommitQuorum

  /** The other peers a leader knows to have its log up to k. */
  function Reached(cfg: Config, n: NodeId, st: NodeState, k: int): set<NodeId> {
    set p | p in cfg.peers && p != n && p in st.matchIndex && st.matchIndex[p] >= k
  }

  /** No uncommitted entry of the leader's term is known to be on more than half of the peers,
      the leader counted. */
  ghost predicate NothingLeft(cfg: Config, n: NodeId, st: NodeState) {
    forall k :: 0 < k < |st.log| && st.commitIndex < k && st.log[k].term == st.currentTerm ==>
      2 * (1 + |Reached(cfg, n, st, k)|) <= |cfg.peers|
  }

  // ---- The counting loop ----

  lemma CountIsReached(cfg: Config, n: NodeId, st: NodeState, k: int)
    requires cfg.Valid() && k > 0
    ensures MatchCount(cfg.peers, n, st.matchIndex, k) == 1 + |Reached(cfg, n, st, k)|
  {
    MatchCountIsSet(cfg.peers, n, st.matchIndex, k);
    assert PeersMatching(cfg.peers, n, st.matchIndex, k) == Reached(cfg, n, st, k);
  }

  lemma SearchMissesNone(cfg: Config, n: NodeId, st: NodeState, k: int)
    requires cfg.Valid() && WellFormed(st.log) && st.commitIndex >= 0
    requires var st' := UpdateCommitIndex(cfg, n, st);
             0 < k < |st.log| && st'.commitIndex < k && st.log[k].term == st.currentTerm
    ensures 2 * (1 + |Reached(cfg, n, st, k)|) <= |cfg.peers|
  {
    WellFormedIsContiguous(st.log);
    HighestIsHighest(cfg, n, st, LastIndex(st.log), k);
    CountIsReached(cfg, n, st, k);
    MajorityIsHalf(cfg, 1 + |Reached(cfg, n, st, k)|);
  }

  lemma SearchLeavesNothing(cfg: Config, n: NodeId, st: NodeState)
    requires cfg.Valid() && WellFormed(st.log) && st.commitIndex >= 0
    ensures NothingLeft(cfg, n, UpdateCommitIndex(cfg, n, st))
  {
    var st' := UpdateCommitIndex(cfg, n, st);
    forall k | 0 < k < |st'.log| && st'.commitIndex < k && st'.log[k].term == st'.currentTerm
      ensures 2 * (1 + |Reached(cfg, n, st', k)|) <= |cfg.peers|
    {
      SearchMissesNone(cfg, n, st, k);
      assert Reached(cfg, n, st', k) == Reached(cfg, n, st, k);
    }
  }

  lemma ReplyLeavesNothing(cfg: Config, n: NodeId, st: NodeState, peer: NodeId, a: AppendEntriesArgs, reply: AppendEntriesReply)
    requires cfg.Valid() && WellFormed(st.log) && st.commitIndex >= 0
    requires st.role == Leader ==> NothingLeft(cfg, n, st)
    ensures var st' := HandleAppendReply(cfg, n, st, peer, a, reply); st'.role == Leader ==> NothingLeft(cfg, n, st')
  {
    var st' := HandleAppendReply(cfg, n, st, peer, a, reply);
    if st'.matchIndex == st.matchIndex && st'.commitIndex == st.commitIndex {
      assert st'.role == Leader ==> SameTally(st, st');
      if st'.role == Leader { TallyKept(cfg, n, st, st'); }
    } else {
      var m := a.prevLogIndex + |a.entries|;
      SearchLeavesNothing(cfg, n, st.(matchIndex := st.matchIndex[peer := m], nextIndex := st.nextIndex[peer := m + 1]));
    }
  }

  ghost predicate SameTally(st: NodeState, st': NodeState) {
    && st'.log == st.log && st'.currentTerm == st.currentTerm
    && st'.commitIndex == st.commitIndex && st'.matchIndex == st.matchIndex
  }

  lemma TallyKept(cfg: Config, n: NodeId, st: NodeState, st': NodeState)
    requires SameTally(st, st') && NothingLeft(cfg, n, st)
    ensures NothingLeft(cfg, n, st')
  {
    forall k | 0 < k < |st'.log| && st'.commitIndex < k && st'.log[k].term == st'.currentTerm
      ensures 2 * (1 + |Reached(cfg, n, st', k)|) <= |cfg.peers|
    {
      assert Reached(cfg, n, st', k) == Reached(cfg, n, st, k);
    }
  }

  // ---- New leaders and new entries ----

  /** Without a confirmed peer there is nothing to commit among two or more. */
  lemma NobodyReached(cfg: Config, n: NodeId, st: NodeState, k: int)
    requires |cfg.peers| >= 2 && forall p :: p in cfg.Ids() && p != n ==> Lookup(st.matchIndex, p) < k
    ensures 2 * (1 + |Reached(cfg, n, st, k)|) <= |cfg.peers|
  {
    forall p ensures p !in Reached(cfg, n, st, k) {
      assert p in cfg.peers ==> p in cfg.Ids();
    }
  }

  lemma WinnerHasNothing(cfg: Config, n: NodeId, st: NodeState)
    requires |cfg.peers| >= 2 && st.commitIndex >= 0
    requires forall p :: p in cfg.Ids() && p != n ==> Lookup(st.matchIndex, p) == 0
    ensures NothingLeft(cfg, n, st)
  {
    forall k | 0 < k < |st.log| && st.commitIndex < k && st.log[k].term == st.currentTerm
      ensures 2 * (1 + |Reached(cfg, n, st, k)|) <= |cfg.peers|
    {
      NobodyReached(cfg, n, st, k);
    }
  }

  lemma NewEntryIsUnconfirmed(cfg: Config, n: NodeId, st: NodeState, st': NodeState)
    requires |cfg.peers| >= 2 && NothingLeft(cfg, n, st)
    requires st'.currentTerm == st.currentTerm && st'.commitIndex == st.commitIndex && st'.matchIndex == st.matchIndex
    requires |st'.log| == |st.log| + 1 && st'.log[..|st.log|] == st.log
    requires forall p :: p in cfg.Ids() && p != n ==> Lookup(st.matchIndex, p) < |st.log|
    ensures NothingLeft(cfg, n, st')
  {
    forall k | 0 < k < |st'.log| && st'.commitIndex < k && st'.log[k].term == st'.currentTerm
      ensures 2 * (1 + |Reached(cfg, n, st', k)|) <= |cfg.peers|
    {
      if k == |st.log| {
        NobodyReached(cfg, n, st', k);
      } else {
        assert k < |st.log| && st'.log[k] == st'.log[..|st.log|][k];
        assert Reached(cfg, n, st', k) == Reached(cfg, n, st, k);
      }
    }
  }

  lemma MatchesAreInLog(cfg: Config, s: State, n: NodeId, p: NodeId)
    requires LeaderOwnsLog(s) && AcksOk(s) && MatchesAreAcks(cfg, s)
    requires n in s.nodes && s.nodes[n].role == Leader && p in cfg.Ids() && p != n && |s.nodes[n].log| > 0
    ensures Lookup(s.nodes[n].matchIndex, p) < |s.nodes[n].log|
  {
    var k := Lookup(s.nodes[n].matchIndex, p);
    assert k >= 0 && (k > 0 ==> Acked(s, p, s.nodes[n].currentTerm, k));
  }

  // ---- Every step ----

  ghost predicate AllLeft(cfg: Config, s: State) {
    forall n :: n in s.nodes && s.nodes[n].role == Leader ==> NothingLeft(cfg, n, s.nodes[n])
  }

  lemma UntouchedLeft(cfg: Config, s: State, s': State, n: NodeId)
    requires AllLeft(cfg, s) && s'.nodes.Keys == s.nodes.Keys
    requires forall k :: k in s.nodes && k != n ==> s'.nodes[k] == s.nodes[k]
    requires n in s.nodes && (s'.nodes[n].role == Leader ==> NothingLeft(cfg, n, s'.nodes[n]))
    ensures AllLeft(cfg, s')
  {}

  /** The node still leads with the same log and the same tally. */
  lemma SteadyLeft(cfg: Config, s: State, s': State)
    requires AllLeft(cfg, s) && SteadyStep(cfg, s, s')
    requires forall n :: n in s.nodes ==> s'.nodes[n].commitIndex == s.nodes[n].commitIndex
    ensures AllLeft(cfg, s')
  {
    forall n | n in s'.nodes && s'.nodes[n].role == Leader ensures NothingLeft(cfg, n, s'.nodes[n]) {
      TallyKept(cfg, n, s.nodes[n], s'.nodes[n]);
    }
  }

  lemma AppendLeft(cfg: Config, s: State, m: Message)
    requires AllLeft(cfg, s) && Shape(cfg, s) && LogInv(cfg, s) && LeadersAreRecorded(s) && Enabled(cfg, s, ReceiveAppend(m))
    ensures AllLeft(cfg, AppendNext(s, m))
  {
    var n := m.dst;
    AddresseeLeft(cfg, s, m);
    UntouchedLeft(cfg, s, AppendNext(s, m), n);
  }

  lemma AddresseeLeft(cfg: Config, s: State, m: Message)
    requires Enabled(cfg, s, ReceiveAppend(m)) && Shape(cfg, s) && LogInv(cfg, s) && LeadersAreRecorded(s) && AllLeft(cfg, s)
    ensures var st' := HandleAppendEntries(s.nodes[m.dst], m.app).0; st'.role == Leader ==> NothingLeft(cfg, m.dst, st')
  {
    var (st', reply) := HandleAppendEntries(s.nodes[m.dst], m.app);
    if reply.success {
      AcceptorDoesNotLead(cfg, s, m);
    } else {
      RefuserKeepsTally(s.nodes[m.dst], m.app);
      if st'.role == Leader { TallyKept(cfg, m.dst, s.nodes[m.dst], st'); }
    }
  }

  lemma AcceptorDoesNotLead(cfg: Config, s: State, m: Message)
    requires Enabled(cfg, s, ReceiveAppend(m)) && Shape(cfg, s) && LogInv(cfg, s) && LeadersAreRecorded(s)
    requires HandleAppendEntries(s.nodes[m.dst], m.app).1.success
    ensures HandleAppendEntries(s.nodes[m.dst], m.app).0.role != Leader
  {
    AppendAnswers(cfg, s, m);
    LeaderNotAddressed(s, m, HandleAppendEntries(s.nodes[m.dst], m.app).0);
  }

  lemma RefuserKeepsTally(st: NodeState, a: AppendEntriesArgs)
    requires |st.log| > 0 && !HandleAppendEntries(st, a).1.success
    ensures var st' := HandleAppendEntries(st, a).0; st'.role == Leader ==> st.role == Leader && SameTally(st, st')
  {}

  lemma AppendResponseLeft(cfg: Config, s: State, m: Message)
    requires AllLeft(cfg, s) && cfg.Valid() && NodeLogsOk(s) && CommitsNonNegative(s)
    requires Enabled(cfg, s, ReceiveAppendResponse(m))
    ensures AllLeft(cfg, AppendResponseNext(cfg, s, m))
  {
    ReplyLeavesNothing(cfg, m.dst, s.nodes[m.dst], m.src, m.app, m.appReply);
    UntouchedLeft(cfg, s, AppendResponseNext(cfg, s, m), m.dst);
  }

  lemma VoteResponseLeft(cfg: Config, s: State, m: Message)
    requires |cfg.peers| >= 2 && AllLeft(cfg, s) && Shape(cfg, s) && NodeLogsOk(s) && CommitsNonNegative(s)
    requires Enabled(cfg, s, ReceiveVoteResponse(m))
    ensures AllLeft(cfg, VoteResponseNext(cfg, s, m))
  {
    var s', n := VoteResponseNext(cfg, s, m), m.dst;
    CounterKeepsCommit(cfg, n, s.nodes[n], m.reqTerm, m.voteReply);
    if s'.nodes[n].role == Leader {
      if s.nodes[n].role == Leader {
        LoserIsSteady(cfg, n, s.nodes[n], m.reqTerm, m.voteReply);
        TallyKept(cfg, n, s.nodes[n], s'.nodes[n]);
      } else {
        WinnerResets(cfg, n, s.nodes[n], m.reqTerm, m.voteReply);
        WinnerHasNothing(cfg, n, s'.nodes[n]);
      }
    }
    UntouchedLeft(cfg, s, s', n);
  }

  lemma CounterKeepsCommit(cfg: Config, n: NodeId, st: NodeState, reqTerm: int, reply: RequestVoteReply)
    requires |st.log| > 0
    ensures HandleVoteReply(cfg, n, st, reqTerm, reply).commitIndex == st.commitIndex
  {}

  lemma ProposeLeft(cfg: Config, s: State, n: NodeId, command: Command)
    requires |cfg.peers| >= 2 && AllLeft(cfg, s) && Enabled(cfg, s, ClientPropose(n, command))
    requires LeaderOwnsLog(s) && AcksOk(s) && MatchesAreAcks(cfg, s)
    ensures AllLeft(cfg, ProposeNext(s, n, command))
  {
    var s' := ProposeNext(s, n, command);
    if s.nodes[n].role == Leader {
      forall p | p in cfg.Ids() && p != n ensures Lookup(s.nodes[n].matchIndex, p) < |s.nodes[n].log| {
        MatchesAreInLog(cfg, s, n, p);
      }
      NewEntryIsUnconfirmed(cfg, n, s.nodes[n], s'.nodes[n]);
    }
    UntouchedLeft(cfg, s, s', n);
  }

  lemma TransitionLeft(cfg: Config, s: State, step: Step, s': State)
    requires cfg.Valid() && |cfg.peers| >= 2 && Transition(cfg, s, step, s') && AllLeft(cfg, s) && FullInv(cfg, s)
    ensures AllLeft(cfg, s')
  {
    if step.ReceiveAppend? {
      AppendLeft(cfg, s, step.m);
    } else if step.ReceiveAppendResponse? {
      AppendResponseLeft(cfg, s, step.m);
    } else if step.ReceiveVoteResponse? {
      VoteResponseLeft(cfg, s, step.m);
    } else if step.ClientPropose? {
      ProposeLeft(cfg, s, step.n, step.command);
    } else {
      OtherStepsAreSteady(cfg, s, step);
      CommitUntouched(cfg, s, step);
      SteadyLeft(cfg, s, s');
    }
  }

  // ---- Over runs ----

  lemma RunKeepsLeft(cfg: Config, b: seq<State>, steps: seq<Step>, i: nat)
    requires cfg.Valid() && |cfg.peers| >= 2 && Run(cfg, b, steps) && i < |b|
    ensures AllLeft(cfg, b[i])
  {
    InitFull(cfg);
    forall s, step, s' | FullInv(cfg, s) && AllLeft(cfg, s) && Transition(cfg, s, step, s')
      ensures FullInv(cfg, s') && AllLeft(cfg, s')
    {
      TransitionKeepsFull(cfg, s, step, s');
      TransitionLeft(cfg, s, step, s');
    }
    AlongRun(cfg, s => FullInv(cfg, s) && AllLeft(cfg, s), b, steps, i);
  }

  /** At every moment of every run, whatever replies came late, twice or never: a leader has
      committed every entry of its term that it knows to be on more than half of the peers. */
  lemma NothingLeftBehind(cfg: Config, b: seq<State>, steps: seq<Step>, i: nat, n: NodeId, k: int)
    requires cfg.Valid() && Run(cfg, b, steps) && i < |b| && n in b[i].nodes && b[i].nodes[n].role == Leader
    requires 0 <= k < |b[i].nodes[n].log| && b[i].nodes[n].log[k].term == b[i].nodes[n].currentTerm
    requires 2 * (1 + |Reached(cfg, n, b[i].nodes[n], k)|) > |cfg.peers|
    ensures k <= b[i].nodes[n].commitIndex
  {
    LeaderHasPeers(cfg, b, steps, i, n);
    RunKeepsLeft(cfg, b, steps, i);
    RunKeepsFull(cfg, b, steps, i);
    assert NothingLeft(cfg, n, b[i].nodes[n]);
  }

  lemma LeaderHasPeers(cfg: Config, b: seq<State>, steps: seq<Step>, i: nat, n: NodeId)
    requires cfg.Valid() && Run(cfg, b, steps) && i < |b| && n in b[i].nodes && b[i].nodes[n].role == Leader
    ensures |cfg.peers| >= 2
  {
    RunKeepsFull(cfg, b, steps, i);
    HasPeers(cfg, b[i], n);
    if |cfg.peers| == 1 { SingleNodeNeverLeads(cfg, b, steps, i, n); }
  }

  lemma HasPeers(cfg: Config, s: State, n: NodeId)
    requires Shape(cfg, s) && n in s.nodes
    ensures |cfg.peers| >= 1
  {
    assert s.nodes.Keys == cfg.Ids() && n in s.nodes.Keys;
    assert n in cfg.peers;
    var i :| 0 <= i < |cfg.peers| && cfg.peers[i] == n;
  }
}
