/** The commit rule of section 5.3: what a leader commits is backed by a majority that held the
    leader's exact prefix. No assumption on the run is needed. */
module CommitQuorum {
  import opened RaftLog
  import opened RaftNode
  import opened AppendMerge
  import opened Cluster
  import opened ElectionSafety
  import opened LogMatching

  /** Confirmations are about existing terms and indices, never from the future. */
  ghost predicate AcksOk(s: State) {
    forall k :: k in s.hist.acks ==>
      && k.0 in s.nodes && k.1 in s.hist.termLogs && k.1 in s.hist.leaders
      && 0 <= s.hist.acks[k] < |s.hist.termLogs[k.1]|
      && k.1 <= s.nodes[k.0].currentTerm
  }

  /** While a node stays in a term it still holds what it confirmed in that term. */
  ghost predicate AcksAreHeld(s: State) {
    forall n :: n in s.nodes && (n, s.nodes[n].currentTerm) in s.hist.acks ==>
      s.nodes[n].currentTerm in s.hist.termLogs
      && Agree(s.nodes[n].log, s.hist.termLogs[s.nodes[n].currentTerm], s.hist.acks[(n, s.nodes[n].currentTerm)])
  }

  ghost predicate Acked(s: State, p: NodeId, term: int, index: int) {
    (p, term) in s.hist.acks && index <= s.hist.acks[(p, term)]
  }

  ghost predicate RepliesAreAcks(s: State) {
    forall m :: m in s.network && m.AppendResponse? && m.appReply.success ==>
      Acked(s, m.src, m.app.term, m.app.prevLogIndex + |m.app.entries|)
  }

  ghost predicate MatchesAreAcks(cfg: Config, s: State) {
    forall n, p :: n in s.nodes && s.nodes[n].role == Leader && p in cfg.Ids() && p != n ==>
      var k := Lookup(s.nodes[n].matchIndex, p);
      k >= 0 && (k > 0 ==> Acked(s, p, s.nodes[n].currentTerm, k))
  }

  /** A leader confirms its own log. */
  ghost predicate LeadersAckOwn(s: State) {
    forall n :: n in s.nodes && s.nodes[n].role == Leader ==>
      Acked(s, n, s.nodes[n].currentTerm, |s.nodes[n].log| - 1)
  }

  ghost function Backers(cfg: Config, s: State, term: int, index: int): set<NodeId> {
    set p | p in cfg.Ids() && Acked(s, p, term, index)
  }

  /** The pair a leader's commit rule chose: an entry of its own term with a majority behind it. */
  ghost predicate Backed(cfg: Config, s: State, c: (int, int)) {
    && c.0 in s.hist.termLogs && c.0 in s.hist.leaders
    && 0 < c.1 < |s.hist.termLogs[c.0]| && s.hist.termLogs[c.0][c.1].term == c.0
    && 2 * |Backers(cfg, s, c.0, c.1)| > |cfg.peers|
  }

  ghost predicate CommitsAreBacked(cfg: Config, s: State) {
    forall c :: c in s.hist.commits ==> Backed(cfg, s, c)
  }

  ghost predicate QuorumInv(cfg: Config, s: State) {
    && AcksOk(s) && AcksAreHeld(s) && RepliesAreAcks(s)
    && MatchesAreAcks(cfg, s) && LeadersAckOwn(s) && CommitsAreBacked(cfg, s)
  }

  // ---- Confirmations only accumulate ----

  ghost predicate AcksGrow(s: State, s': State) {
    forall k :: k in s.hist.acks ==> k in s'.hist.acks && s'.hist.acks[k] >= s.hist.acks[k]
  }

  lemma BackersGrow(cfg: Config, s: State, s': State, term: int, index: int)
    requires AcksGrow(s, s')
    ensures |Backers(cfg, s, term, index)| <= |Backers(cfg, s', term, index)|
  {
    SubsetCount(Backers(cfg, s, term, index), Backers(cfg, s', term, index));
  }

  lemma CommitsStayBacked(cfg: Config, s: State, s': State)
    requires CommitsAreBacked(cfg, s) && AcksGrow(s, s')
    requires Extends(s.hist.leaders, s'.hist.leaders) && Grows(s.hist.termLogs, s'.hist.termLogs)
    requires forall c :: c in s'.hist.commits && c !in s.hist.commits ==> Backed(cfg, s', c)
    ensures CommitsAreBacked(cfg, s')
  {
    forall c | c in s.hist.commits ensures Backed(cfg, s', c) {
      assert Backed(cfg, s, c);
      var a, b := s.hist.termLogs[c.0], s'.hist.termLogs[c.0];
      assert Prefix(a, b) && b[..|a|][c.1] == b[c.1];
      BackersGrow(cfg, s, s', c.0, c.1);
    }
  }

  lemma AgreeGrows(log: Log, log': Log, source: Log, source': Log, i: int)
    requires Agree(log, source, i) && Prefix(log, log') && Prefix(source, source')
    ensures Agree(log', source', i)
  {
    assert log'[..i + 1] == log'[..|log|][..i + 1];
    assert source'[..i + 1] == source'[..|source|][..i + 1];
  }

  // ---- Steps without new confirmations ----

  /** Nodes keep or extend their log, or move to a new term; leaders keep leading or stop. */
  ghost predicate Steady(cfg: Config, s: State, s': State) {
    && s'.nodes.Keys == s.nodes.Keys
    && s'.hist.acks == s.hist.acks
    && s'.hist.leaders == s.hist.leaders && s'.hist.termLogs == s.hist.termLogs
    && (forall n :: n in s.nodes ==>
          && s'.nodes[n].currentTerm >= s.nodes[n].currentTerm
          && s'.nodes[n].log == s.nodes[n].log
          && (s'.nodes[n].role == Leader ==>
                s.nodes[n].role == Leader && s'.nodes[n].currentTerm == s.nodes[n].currentTerm))
    && (forall m :: m in s'.network && m.AppendResponse? && m.appReply.success ==> m in s.network)
  }

  lemma SteadyKeepsAcks(cfg: Config, s: State, s': State)
    requires QuorumInv(cfg, s) && Steady(cfg, s, s')
    ensures AcksOk(s') && AcksAreHeld(s') && RepliesAreAcks(s') && LeadersAckOwn(s')
  {
    forall k | k in s'.hist.acks ensures k.1 <= s'.nodes[k.0].currentTerm {
      assert s.nodes[k.0].currentTerm <= s'.nodes[k.0].currentTerm;
    }
    forall n | n in s'.nodes && (n, s'.nodes[n].currentTerm) in s'.hist.acks
      ensures Agree(s'.nodes[n].log, s'.hist.termLogs[s'.nodes[n].currentTerm], s'.hist.acks[(n, s'.nodes[n].currentTerm)])
    {
      assert s'.nodes[n].currentTerm <= s.nodes[n].currentTerm;
    }
  }

  lemma SteadyKeepsQuorum(cfg: Config, s: State, s': State)
    requires QuorumInv(cfg, s) && SteadyStep(cfg, s, s')
    ensures QuorumInv(cfg, s')
  {
    SteadyKeepsAcks(cfg, s, s');
    CommitsStayBacked(cfg, s, s');
  }

  ghost predicate SteadyStep(cfg: Config, s: State, s': State) {
    && Steady(cfg, s, s') && s'.hist.commits == s.hist.commits
    && (forall n :: n in s.nodes && s'.nodes[n].role == Leader ==> s'.nodes[n].matchIndex == s.nodes[n].matchIndex)
  }

  lemma TimeoutIsSteady(cfg: Config, s: State, n: NodeId)
    requires Shape(cfg, s) && Enabled(cfg, s, Timeout(n))
    ensures SteadyStep(cfg, s, TimeoutNext(cfg, s, n))
  {}

  lemma VoteRequestIsSteady(cfg: Config, s: State, m: Message)
    requires Shape(cfg, s) && Enabled(cfg, s, ReceiveVoteRequest(m))
    ensures SteadyStep(cfg, s, VoteRequestNext(s, m))
  {
    VoterIsSteady(s.nodes[m.dst], m.vote);
  }

  lemma VoterIsSteady(st: NodeState, args: RequestVoteArgs)
    ensures var st' := HandleRequestVote(st, args).0;
            && st'.currentTerm >= st.currentTerm && st'.log == st.log
            && (st'.role == Leader ==>
                  st.role == Leader && st'.currentTerm == st.currentTerm && st'.matchIndex == st.matchIndex)
  {}

  lemma SendAppendIsSteady(cfg: Config, s: State, n: NodeId, peer: NodeId)
    requires Shape(cfg, s) && Enabled(cfg, s, SendAppend(n, peer))
    ensures SteadyStep(cfg, s, SendAppendNext(s, n, peer))
  {}

  lemma ApplyIsSteady(cfg: Config, s: State, n: NodeId)
    requires Shape(cfg, s) && Enabled(cfg, s, Apply(n))
    ensures SteadyStep(cfg, s, ApplyNext(s, n))
  {}

  lemma LostReplyIsSteady(cfg: Config, s: State, m: Message)
    requires Shape(cfg, s) && Enabled(cfg, s, ReceiveVoteResponse(m))
    requires var s' := VoteResponseNext(cfg, s, m); m.dst in s'.nodes && !Wins(s, s', m)
    ensures SteadyStep(cfg, s, VoteResponseNext(cfg, s, m))
  {
    LoserIsSteady(cfg, m.dst, s.nodes[m.dst], m.reqTerm, m.voteReply);
  }

  lemma LoserIsSteady(cfg: Config, n: NodeId, st: NodeState, reqTerm: int, reply: RequestVoteReply)
    requires |st.log| > 0 && (st.role == Leader || HandleVoteReply(cfg, n, st, reqTerm, reply).role != Leader)
    ensures var st' := HandleVoteReply(cfg, n, st, reqTerm, reply);
            && st'.currentTerm >= st.currentTerm && st'.log == st.log
            && (st'.role == Leader ==>
                  st.role == Leader && st'.currentTerm == st.currentTerm && st'.matchIndex == st.matchIndex)
  {}

  // ---- A leader counting confirmations ----

  ghost function PeersMatching(peers: seq<NodeId>, me: NodeId, matches: map<NodeId, int>, n: int): set<NodeId> {
    set p | p in peers && p != me && Lookup(matches, p) >= n
  }

  lemma MatchingStep(init: seq<NodeId>, last: NodeId, me: NodeId, matches: map<NodeId, int>, n: int)
    requires last !in init
    ensures |PeersMatching(init + [last], me, matches, n)|
         == |PeersMatching(init, me, matches, n)| + (if last != me && Lookup(matches, last) >= n then 1 else 0)
  {
    assert PeersMatching(init + [last], me, matches, n)
        == PeersMatching(init, me, matches, n) + (if last != me && Lookup(matches, last) >= n then {last} else {});
  }

  lemma {:induction false} MatchCountIsSet(peers: seq<NodeId>, me: NodeId, matches: map<NodeId, int>, n: int)
    requires forall i, j :: 0 <= i < j < |peers| ==> peers[i] != peers[j]
    ensures MatchCount(peers, me, matches, n) == 1 + |PeersMatching(peers, me, matches, n)|
    decreases |peers|
  {
    if peers != [] {
      var init, last := peers[..|peers| - 1], peers[|peers| - 1];
      MatchCountIsSet(init, me, matches, n);
      MatchingStep(init, last, me, matches, n);
      assert peers == init + [last];
    }
  }

  /** A committable index has a majority of backers. */
  lemma CommittableIsBacked(cfg: Config, s: State, n: NodeId, st: NodeState, x: int)
    requires cfg.Valid() && n in cfg.Ids() && WellFormed(st.log) && x > 0
    requires Committable(cfg, n, st, x)
    requires Acked(s, n, st.currentTerm, |st.log| - 1)
    requires forall p :: p in cfg.Ids() && p != n ==>
               var k := Lookup(st.matchIndex, p); k > 0 ==> Acked(s, p, st.currentTerm, k)
    ensures 0 < x < |st.log| && st.log[x].term == st.currentTerm
    ensures 2 * |Backers(cfg, s, st.currentTerm, x)| > |cfg.peers|
  {
    WellFormedIsContiguous(st.log);
    MatchCountIsSet(cfg.peers, n, st.matchIndex, x);
    var voters := PeersMatching(cfg.peers, n, st.matchIndex, x);
    forall p | p in voters + {n} ensures p in Backers(cfg, s, st.currentTerm, x) {}
    SubsetCount(voters + {n}, Backers(cfg, s, st.currentTerm, x));
  }

  /** What the leader side of a reply does: it may move one match index to the confirmed index
      of the reply and may then commit. */
  ghost predicate Tallies(cfg: Config, s: State, s': State, m: Message) {
    && m in s.network && m.AppendResponse? && m.dst in s.nodes
    && Steady(cfg, s, s') && s'.network == s.network
    && (forall k :: k in s.nodes && k != m.dst ==> s'.nodes[k] == s.nodes[k])
    && var st, st' := s.nodes[m.dst], s'.nodes[m.dst];
       && (st'.role == Leader && st'.matchIndex != st.matchIndex ==>
             m.appReply.success && m.app.term == st'.currentTerm
             && st'.matchIndex == st.matchIndex[m.src := m.app.prevLogIndex + |m.app.entries|])
       && (st'.commitIndex != st.commitIndex ==>
             st'.role == Leader && st'.commitIndex > st.commitIndex && |st'.log| > 0
             && Committable(cfg, m.dst, st', st'.commitIndex))
       && s'.hist.commits == (if st'.commitIndex == st.commitIndex then s.hist.commits
                              else s.hist.commits + {(st'.currentTerm, st'.commitIndex)})
  }

  lemma AppendResponseTallies(cfg: Config, s: State, m: Message)
    requires Shape(cfg, s) && Enabled(cfg, s, ReceiveAppendResponse(m))
    ensures Tallies(cfg, s, AppendResponseNext(cfg, s, m), m)
  {
    LeaderTallies(cfg, m.dst, s.nodes[m.dst], m.src, m.app, m.appReply);
    CommitIgnoresCommitIndex(cfg, m.dst, s.nodes[m.dst], m.src, m.app, m.appReply);
  }

  lemma LeaderTallies(cfg: Config, n: NodeId, st: NodeState, peer: NodeId, a: AppendEntriesArgs, reply: AppendEntriesReply)
    requires |st.log| > 0
    ensures var st' := HandleAppendReply(cfg, n, st, peer, a, reply);
            && st'.currentTerm >= st.currentTerm && st'.log == st.log
            && (st'.role == Leader ==> st.role == Leader && st'.currentTerm == st.currentTerm)
            && (st'.role == Leader && st'.matchIndex != st.matchIndex ==>
                  reply.success && a.term == st'.currentTerm
                  && st'.matchIndex == st.matchIndex[peer := a.prevLogIndex + |a.entries|])
  {}

  /** The commit rule reads the match indices, not the commit index it replaces. */
  lemma CommitIgnoresCommitIndex(cfg: Config, n: NodeId, st: NodeState, peer: NodeId, a: AppendEntriesArgs, reply: AppendEntriesReply)
    requires |st.log| > 0
    ensures var st' := HandleAppendReply(cfg, n, st, peer, a, reply);
            st'.commitIndex != st.commitIndex ==>
              st'.role == Leader && st'.commitIndex > st.commitIndex && st'.log == st.log
              && Committable(cfg, n, st', st'.commitIndex)
  {}

  lemma TallyKeepsMatches(cfg: Config, s: State, s': State, m: Message)
    requires RequestsOk(s) && RepliesAreAcks(s) && MatchesAreAcks(cfg, s) && Tallies(cfg, s, s', m)
    ensures MatchesAreAcks(cfg, s')
  {
    assert RequestOk(s, m.dst, m.app);
    forall n, p | n in s'.nodes && s'.nodes[n].role == Leader && p in cfg.Ids() && p != n
      ensures var k := Lookup(s'.nodes[n].matchIndex, p); k >= 0 && (k > 0 ==> Acked(s', p, s'.nodes[n].currentTerm, k))
    {
      assert Lookup(s.nodes[n].matchIndex, p) >= 0;
      assert Lookup(s.nodes[n].matchIndex, p) > 0 ==> Acked(s, p, s.nodes[n].currentTerm, Lookup(s.nodes[n].matchIndex, p));
    }
  }

  lemma TallyKeepsQuorum(cfg: Config, s: State, s': State, m: Message)
    requires cfg.Valid() && Shape(cfg, s) && NodeLogsOk(s) && TermLogsOk(s) && LeaderOwnsLog(s) && LeadersAreRecorded(s)
    requires RequestsOk(s) && QuorumInv(cfg, s) && Tallies(cfg, s, s', m)
    requires s.nodes[m.dst].commitIndex >= 0
    ensures QuorumInv(cfg, s')
  {
    SteadyKeepsAcks(cfg, s, s');
    TallyKeepsMatches(cfg, s, s', m);
    if s'.nodes[m.dst].commitIndex != s.nodes[m.dst].commitIndex {
      TallyBacksCommit(cfg, s, s', m);
    }
    TallyCommitsBacked(cfg, s, s', m);
  }

  lemma TallyBacksCommit(cfg: Config, s: State, s': State, m: Message)
    requires Tallies(cfg, s, s', m) && s'.nodes[m.dst].commitIndex != s.nodes[m.dst].commitIndex
    requires cfg.Valid() && m.dst in cfg.Ids() && s.nodes[m.dst].commitIndex >= 0
    requires NodeLogsOk(s) && LeaderOwnsLog(s) && LeadersAreRecorded(s)
    requires MatchesAreAcks(cfg, s') && LeadersAckOwn(s')
    ensures Backed(cfg, s', (s'.nodes[m.dst].currentTerm, s'.nodes[m.dst].commitIndex))
  {
    TallyLeaderOwns(cfg, s, s', m);
    NewCommitBacked(cfg, s', m.dst);
  }

  lemma TallyCommitsBacked(cfg: Config, s: State, s': State, m: Message)
    requires Tallies(cfg, s, s', m)
    requires s'.nodes[m.dst].commitIndex != s.nodes[m.dst].commitIndex ==>
               Backed(cfg, s', (s'.nodes[m.dst].currentTerm, s'.nodes[m.dst].commitIndex))
    requires CommitsAreBacked(cfg, s)
    ensures CommitsAreBacked(cfg, s')
  {
    SteadyGrows(cfg, s, s');
    CommitsStayBacked(cfg, s, s');
  }

  lemma SteadyGrows(cfg: Config, s: State, s': State)
    requires Steady(cfg, s, s')
    ensures AcksGrow(s, s') && Extends(s.hist.leaders, s'.hist.leaders) && Grows(s.hist.termLogs, s'.hist.termLogs)
  {}

  lemma TallyLeaderOwns(cfg: Config, s: State, s': State, m: Message)
    requires Tallies(cfg, s, s', m) && s'.nodes[m.dst].commitIndex != s.nodes[m.dst].commitIndex
    requires NodeLogsOk(s) && LeaderOwnsLog(s) && LeadersAreRecorded(s)
    ensures var st', E := s'.nodes[m.dst], s'.hist.termLogs;
            && st'.role == Leader && WellFormed(st'.log)
            && st'.currentTerm in s'.hist.leaders && st'.currentTerm in E && E[st'.currentTerm] == st'.log
  {}

  lemma NewCommitBacked(cfg: Config, s: State, n: NodeId)
    requires n in s.nodes && n in cfg.Ids() && s.nodes[n].role == Leader && s.nodes[n].commitIndex > 0
    requires WellFormed(s.nodes[n].log) && Committable(cfg, n, s.nodes[n], s.nodes[n].commitIndex)
    requires s.nodes[n].currentTerm in s.hist.termLogs && s.hist.termLogs[s.nodes[n].currentTerm] == s.nodes[n].log
    requires cfg.Valid() && MatchesAreAcks(cfg, s) && LeadersAckOwn(s)
    ensures var st := s.nodes[n];
            && 0 < st.commitIndex < |s.hist.termLogs[st.currentTerm]|
            && s.hist.termLogs[st.currentTerm][st.commitIndex].term == st.currentTerm
            && 2 * |Backers(cfg, s, st.currentTerm, st.commitIndex)| > |cfg.peers|
  {
    CommittableIsBacked(cfg, s, n, s.nodes[n], s.nodes[n].commitIndex);
  }

  lemma AppendResponseKeepsQuorum(cfg: Config, s: State, m: Message)
    requires m.AppendResponse? && Ready(s, m.dst) && Enabled(cfg, s, ReceiveAppendResponse(m))
    requires cfg.Valid() && Inv(cfg, s) && QuorumInv(cfg, s) && CommitsNonNegative(s)
    ensures QuorumInv(cfg, AppendResponseNext(cfg, s, m))
  {
    AppendResponseTallies(cfg, s, m);
    TallyKeepsQuorum(cfg, s, AppendResponseNext(cfg, s, m), m);
  }

  // ---- Steps with new confirmations ----

  /** One node confirms one index of a term's log in the term it is now in. */
  ghost predicate Confirms(s: State, s': State, n: NodeId, term: int, index: int) {
    && n in s.nodes && s'.nodes.Keys == s.nodes.Keys
    && (forall k :: k in s.nodes && k != n ==> s'.nodes[k] == s.nodes[k])
    && s'.nodes[n].currentTerm == term && term >= s.nodes[n].currentTerm
    && s'.hist.acks == Ack(s.hist.acks, n, term, index)
    && Extends(s.hist.leaders, s'.hist.leaders) && Grows(s.hist.termLogs, s'.hist.termLogs)
    && s'.hist.commits == s.hist.commits
    && term in s'.hist.leaders && term in s'.hist.termLogs
    && Agree(s'.nodes[n].log, s'.hist.termLogs[term], index)
    && ((n, term) in s.hist.acks && s.nodes[n].currentTerm == term ==>
          Agree(s'.nodes[n].log, s'.hist.termLogs[term], s.hist.acks[(n, term)]))
  }

  lemma ConfirmKeepsAcks(cfg: Config, s: State, s': State, n: NodeId, term: int, index: int)
    requires AcksOk(s) && AcksAreHeld(s) && Confirms(s, s', n, term, index)
    ensures AcksOk(s') && AcksAreHeld(s') && AcksGrow(s, s') && Acked(s', n, term, index)
  {
    ConfirmKeepsAcksOk(s, s', n, term, index);
    forall k | k in s'.nodes && (k, s'.nodes[k].currentTerm) in s'.hist.acks
      ensures s'.nodes[k].currentTerm in s'.hist.termLogs
      ensures Agree(s'.nodes[k].log, s'.hist.termLogs[s'.nodes[k].currentTerm], s'.hist.acks[(k, s'.nodes[k].currentTerm)])
    {
      var t := s'.nodes[k].currentTerm;
      if k != n {
        AgreeGrows(s.nodes[k].log, s'.nodes[k].log, s.hist.termLogs[t], s'.hist.termLogs[t], s.hist.acks[(k, t)]);
      } else if (n, term) in s.hist.acks {
        assert s.nodes[n].currentTerm == term;
      }
    }
  }

  lemma ConfirmKeepsAcksOk(s: State, s': State, n: NodeId, term: int, index: int)
    requires AcksOk(s) && Confirms(s, s', n, term, index)
    ensures AcksOk(s')
  {
    forall k | k in s'.hist.acks
      ensures k.0 in s'.nodes && k.1 in s'.hist.termLogs && k.1 in s'.hist.leaders
      ensures 0 <= s'.hist.acks[k] < |s'.hist.termLogs[k.1]| && k.1 <= s'.nodes[k.0].currentTerm
    {
      if k in s.hist.acks {
        assert Prefix(s.hist.termLogs[k.1], s'.hist.termLogs[k.1]);
      }
    }
  }

  lemma ConfirmKeepsQuorum(cfg: Config, s: State, s': State, n: NodeId, term: int, index: int)
    requires QuorumInv(cfg, s) && Confirms(s, s', n, term, index)
    requires forall m :: m in s'.network && m.AppendResponse? && m.appReply.success && m !in s.network ==>
               m.src == n && m.app.term == term && m.app.prevLogIndex + |m.app.entries| <= index
    requires s'.nodes[n].role == Leader ==> |s'.nodes[n].log| - 1 <= index
    requires s'.nodes[n].role == Leader ==>
               (s.nodes[n].role == Leader && s.nodes[n].currentTerm == term && s'.nodes[n].matchIndex == s.nodes[n].matchIndex)
               || forall p :: p in cfg.Ids() && p != n ==> Lookup(s'.nodes[n].matchIndex, p) == 0
    ensures QuorumInv(cfg, s')
  {
    ConfirmKeepsAcks(cfg, s, s', n, term, index);
    CommitsStayBacked(cfg, s, s');
    ConfirmKeepsMatches(cfg, s, s', n, term, index);
  }

  lemma ConfirmKeepsMatches(cfg: Config, s: State, s': State, n: NodeId, term: int, index: int)
    requires Confirms(s, s', n, term, index) && AcksGrow(s, s') && MatchesAreAcks(cfg, s)
    requires s'.nodes[n].role == Leader ==>
               (s.nodes[n].role == Leader && s.nodes[n].currentTerm == term && s'.nodes[n].matchIndex == s.nodes[n].matchIndex)
               || forall p :: p in cfg.Ids() && p != n ==> Lookup(s'.nodes[n].matchIndex, p) == 0
    ensures MatchesAreAcks(cfg, s')
  {
    forall k, p | k in s'.nodes && s'.nodes[k].role == Leader && p in cfg.Ids() && p != k
      ensures var x := Lookup(s'.nodes[k].matchIndex, p); x >= 0 && (x > 0 ==> Acked(s', p, s'.nodes[k].currentTerm, x))
    {
      var x := Lookup(s'.nodes[k].matchIndex, p);
      if s'.nodes[k].matchIndex == s.nodes[k].matchIndex && s.nodes[k].role == Leader {
        assert x >= 0 && (x > 0 ==> Acked(s, p, s.nodes[k].currentTerm, x));
      }
    }
  }

  lemma WinConfirms(cfg: Config, s: State, m: Message)
    requires cfg.Valid() && Inv(cfg, s) && QuorumInv(cfg, s) && Enabled(cfg, s, ReceiveVoteResponse(m))
    requires Wins(s, VoteResponseNext(cfg, s, m), m)
    ensures QuorumInv(cfg, VoteResponseNext(cfg, s, m))
  {
    var s', n := VoteResponseNext(cfg, s, m), m.dst;
    VoteResponseReplies(cfg, s, m);
    WinnerHasMajority(cfg, s, s', m);
    WinStepWinsWithLog(cfg, s, m);
    WinGrows(cfg, s, s', n);
    WinnerResets(cfg, n, s.nodes[n], m.reqTerm, m.voteReply);
    FirstLogConfirms(cfg, s, s', n);
    ConfirmKeepsQuorum(cfg, s, s', n, m.reqTerm, |s'.nodes[n].log| - 1);
  }

  lemma FirstLogConfirms(cfg: Config, s: State, s': State, n: NodeId)
    requires WinsWithLog(cfg, s, s', n) && Grows(s.hist.termLogs, s'.hist.termLogs)
    requires AcksOk(s) && s.nodes[n].currentTerm !in s.hist.leaders && |s.nodes[n].log| > 0
    requires s'.hist.acks == Ack(s.hist.acks, n, s.nodes[n].currentTerm, |s'.nodes[n].log| - 1)
    requires s'.hist.commits == s.hist.commits
    ensures Confirms(s, s', n, s.nodes[n].currentTerm, |s'.nodes[n].log| - 1)
  {}

  lemma ProposeConfirms(cfg: Config, s: State, n: NodeId, command: Command)
    requires Ready(s, n) && s.nodes[n].role == Leader
    requires Shape(cfg, s) && LeadersAreRecorded(s) && TermLogsOk(s) && NodeLogsOk(s) && LeaderOwnsLog(s)
    requires QuorumInv(cfg, s)
    ensures QuorumInv(cfg, ProposeNext(s, n, command))
  {
    var s', e := ProposeAcks(cfg, s, n, command);
    ProposalConfirms(cfg, s, s', n, e);
  }

  lemma ProposeAcks(cfg: Config, s: State, n: NodeId, command: Command) returns (s': State, e: LogEntry)
    requires Ready(s, n) && s.nodes[n].role == Leader && Shape(cfg, s) && NodeLogsOk(s)
    ensures s' == ProposeNext(s, n, command) && Proposes(cfg, s, s', n, e) && s'.hist.commits == s.hist.commits
    ensures s'.hist.acks == Ack(s.hist.acks, n, e.term, |s'.nodes[n].log| - 1)
  {
    ProposeProposes(cfg, s, n, command);
    s', e := ProposeNext(s, n, command), LogEntry(s.nodes[n].currentTerm, |s.nodes[n].log|, command);
  }

  lemma ProposalConfirms(cfg: Config, s: State, s': State, n: NodeId, e: LogEntry)
    requires Proposes(cfg, s, s', n, e)
    requires s'.hist.acks == Ack(s.hist.acks, n, e.term, |s'.nodes[n].log| - 1) && s'.hist.commits == s.hist.commits
    requires LeadersAreRecorded(s) && TermLogsOk(s) && NodeLogsOk(s) && LeaderOwnsLog(s)
    requires QuorumInv(cfg, s)
    ensures QuorumInv(cfg, s')
  {
    ProposalGrows(cfg, s, s', n, e);
    OwnLogConfirms(cfg, s, s', n, e);
    ConfirmKeepsQuorum(cfg, s, s', n, e.term, |s'.nodes[n].log| - 1);
  }

  lemma OwnLogConfirms(cfg: Config, s: State, s': State, n: NodeId, e: LogEntry)
    requires Proposes(cfg, s, s', n, e) && Grows(s.hist.termLogs, s'.hist.termLogs)
    requires AcksOk(s) && LeadersAreRecorded(s) && LeaderOwnsLog(s)
    requires s'.hist.acks == Ack(s.hist.acks, n, e.term, |s'.nodes[n].log| - 1) && s'.hist.commits == s.hist.commits
    ensures Confirms(s, s', n, e.term, |s'.nodes[n].log| - 1)
  {
    assert s'.hist.termLogs[e.term] == s'.nodes[n].log;
  }

  lemma AppendConfirms(cfg: Config, s: State, m: Message)
    requires m.AppendRequest? && Ready(s, m.dst) && Enabled(cfg, s, ReceiveAppend(m))
    requires cfg.Valid() && Inv(cfg, s) && QuorumInv(cfg, s)
    ensures QuorumInv(cfg, AppendNext(s, m))
  {
    var (st', reply) := HandleAppendEntries(s.nodes[m.dst], m.app);
    AppendAnswers(cfg, s, m);
    if reply.success {
      AcceptanceKeepsQuorum(cfg, s, AppendNext(s, m), m, st', reply);
    } else {
      RejectionKeepsQuorum(cfg, s, AppendNext(s, m), m, st', reply);
    }
  }

  lemma AcceptanceKeepsQuorum(cfg: Config, s: State, s': State, m: Message, st': NodeState, reply: AppendEntriesReply)
    requires LeadersAreRecorded(s) && QuorumInv(cfg, s)
    requires Answers(s, s', m, st', reply) && reply.success
    ensures QuorumInv(cfg, s')
  {
    var end := m.app.prevLogIndex + |m.app.entries|;
    AcceptanceConfirms(s, s', m, st', reply);
    LeaderNotAddressed(s, m, st');
    ConfirmKeepsQuorum(cfg, s, s', m.dst, m.app.term, end);
  }

  lemma AcceptanceConfirms(s: State, s': State, m: Message, st': NodeState, reply: AppendEntriesReply)
    requires Answers(s, s', m, st', reply) && reply.success
    requires LeadersAreRecorded(s) && AcksOk(s) && AcksAreHeld(s)
    ensures Confirms(s, s', m.dst, m.app.term, m.app.prevLogIndex + |m.app.entries|)
  {}

  lemma RejectionKeepsQuorum(cfg: Config, s: State, s': State, m: Message, st': NodeState, reply: AppendEntriesReply)
    requires LeadersAreRecorded(s) && QuorumInv(cfg, s)
    requires Answers(s, s', m, st', reply) && !reply.success
    ensures QuorumInv(cfg, s')
  {
    assert SteadyStep(cfg, s, s');
    SteadyKeepsQuorum(cfg, s, s');
  }

  /** A node that accepts a request is not leading the request's term. */
  lemma LeaderNotAddressed(s: State, m: Message, st': NodeState)
    requires LeadersAreRecorded(s)
    requires m.AppendRequest? && m.dst in s.nodes && m.src != m.dst && RequestOk(s, m.src, m.app)
    requires HandlesRequest(s.nodes[m.dst], st', m.app, s.hist.termLogs[m.app.term], true)
    ensures st'.role != Leader
  {}

  // ---- Commit indices ----

  ghost predicate CommitsNonNegative(s: State) {
    forall n :: n in s.nodes ==> s.nodes[n].commitIndex >= 0
  }

  lemma HandlerKeepsCommitNonNegative(st: NodeState, a: AppendEntriesArgs, source: Log, accepted: bool)
    requires WellFormed(st.log) && st.commitIndex >= 0 && WellFormed(source) && WindowOf(source, a)
    requires HandlesRequest(st, HandleAppendEntries(st, a).0, a, source, HandleAppendEntries(st, a).1.success)
    ensures HandleAppendEntries(st, a).0.commitIndex >= 0
  {
    var (st', reply) := HandleAppendEntries(st, a);
    if reply.success && st'.log != st.log {
      assert st'.log[|st'.log| - 1] == source[|st'.log| - 1];
    }
  }

  lemma AppendKeepsNonNegative(cfg: Config, s: State, m: Message)
    requires Shape(cfg, s) && LogInv(cfg, s) && CommitsNonNegative(s) && Enabled(cfg, s, ReceiveAppend(m))
    ensures CommitsNonNegative(AppendNext(s, m))
  {
    AppendHandlesRequest(cfg, s, m);
    assert RequestOk(s, m.src, m.app);
    HandlerKeepsCommitNonNegative(s.nodes[m.dst], m.app, s.hist.termLogs[m.app.term], true);
  }

  lemma AppendResponseKeepsNonNegative(cfg: Config, s: State, m: Message)
    requires Shape(cfg, s) && CommitsNonNegative(s) && Enabled(cfg, s, ReceiveAppendResponse(m))
    ensures CommitsNonNegative(AppendResponseNext(cfg, s, m))
  {
    CommitIgnoresCommitIndex(cfg, m.dst, s.nodes[m.dst], m.src, m.app, m.appReply);
  }

  lemma StepKeepsNonNegative(cfg: Config, s: State, step: Step)
    requires cfg.Valid() && Inv(cfg, s) && CommitsNonNegative(s) && Enabled(cfg, s, step)
    ensures CommitsNonNegative(Next(cfg, s, step))
  {
    if step.ReceiveAppend? {
      AppendKeepsNonNegative(cfg, s, step.m);
    } else if step.ReceiveAppendResponse? {
      AppendResponseKeepsNonNegative(cfg, s, step.m);
    } else {
      CommitUntouched(cfg, s, step);
    }
  }

  lemma CommitUntouched(cfg: Config, s: State, step: Step)
    requires Shape(cfg, s) && Enabled(cfg, s, step) && !step.ReceiveAppend? && !step.ReceiveAppendResponse?
    ensures forall n :: n in s.nodes ==> n in Next(cfg, s, step).nodes
                                         && Next(cfg, s, step).nodes[n].commitIndex == s.nodes[n].commitIndex
    ensures Next(cfg, s, step).nodes.Keys == s.nodes.Keys
  {}

  lemma VoteResponseKeepsQuorum(cfg: Config, s: State, m: Message)
    requires cfg.Valid() && Inv(cfg, s) && QuorumInv(cfg, s) && Enabled(cfg, s, ReceiveVoteResponse(m))
    ensures QuorumInv(cfg, VoteResponseNext(cfg, s, m))
  {
    var s' := VoteResponseNext(cfg, s, m);
    VoteResponseReplies(cfg, s, m);
    if Wins(s, s', m) {
      WinConfirms(cfg, s, m);
    } else {
      LostReplyIsSteady(cfg, s, m);
      SteadyKeepsQuorum(cfg, s, s');
    }
  }

  lemma ProposeKeepsQuorum(cfg: Config, s: State, n: NodeId, command: Command)
    requires Enabled(cfg, s, ClientPropose(n, command))
    requires Shape(cfg, s) && LeadersAreRecorded(s) && TermLogsOk(s) && NodeLogsOk(s) && LeaderOwnsLog(s)
    requires QuorumInv(cfg, s)
    ensures QuorumInv(cfg, ProposeNext(s, n, command))
  {
    if s.nodes[n].role == Leader {
      ProposeConfirms(cfg, s, n, command);
    } else {
      RefusedProposalIsSteady(cfg, s, n, command);
      SteadyKeepsQuorum(cfg, s, ProposeNext(s, n, command));
    }
  }

  lemma RefusedProposalIsSteady(cfg: Config, s: State, n: NodeId, command: Command)
    requires Shape(cfg, s) && Enabled(cfg, s, ClientPropose(n, command)) && s.nodes[n].role != Leader
    ensures SteadyStep(cfg, s, ProposeNext(s, n, command))
  {}

  lemma OtherStepsAreSteady(cfg: Config, s: State, step: Step)
    requires Shape(cfg, s) && Enabled(cfg, s, step)
    requires step.Timeout? || step.ReceiveVoteRequest? || step.SendAppend? || step.Apply?
    ensures SteadyStep(cfg, s, Next(cfg, s, step))
  {
    match step
    case Timeout(n) => TimeoutIsSteady(cfg, s, n);
    case ReceiveVoteRequest(m) => VoteRequestIsSteady(cfg, s, m);
    case SendAppend(n, peer) => SendAppendIsSteady(cfg, s, n, peer);
    case Apply(n) => ApplyIsSteady(cfg, s, n);
  }

  lemma StepKeepsQuorum(cfg: Config, s: State, step: Step)
    requires cfg.Valid() && Inv(cfg, s) && QuorumInv(cfg, s) && CommitsNonNegative(s) && Enabled(cfg, s, step)
    ensures QuorumInv(cfg, Next(cfg, s, step))
  {
    if step.ReceiveVoteResponse? {
      VoteResponseKeepsQuorum(cfg, s, step.m);
    } else if step.ReceiveAppend? {
      AppendConfirms(cfg, s, step.m);
    } else if step.ReceiveAppendResponse? {
      AppendResponseKeepsQuorum(cfg, s, step.m);
    } else if step.ClientPropose? {
      ProposeKeepsQuorum(cfg, s, step.n, step.command);
    } else {
      OtherStepsKeepQuorum(cfg, s, step);
    }
  }

  lemma OtherStepsKeepQuorum(cfg: Config, s: State, step: Step)
    requires Shape(cfg, s) && QuorumInv(cfg, s) && Enabled(cfg, s, step)
    requires step.Timeout? || step.ReceiveVoteRequest? || step.SendAppend? || step.Apply?
    ensures QuorumInv(cfg, Next(cfg, s, step))
  {
    OtherStepsAreSteady(cfg, s, step);
    SteadyKeepsQuorum(cfg, s, Next(cfg, s, step));
  }

  // ---- Over runs ----

  ghost predicate FullInv(cfg: Config, s: State) {
    Inv(cfg, s) && QuorumInv(cfg, s) && CommitsNonNegative(s)
  }

  lemma InitFull(cfg: Config)
    ensures FullInv(cfg, Init(cfg))
  {
    InitInv(cfg);
  }

  lemma TransitionKeepsFull(cfg: Config, s: State, step: Step, s': State)
    requires cfg.Valid() && FullInv(cfg, s) && Transition(cfg, s, step, s')
    ensures FullInv(cfg, s')
  {
    TransitionKeepsInv(cfg, s, step, s');
    StepKeepsQuorum(cfg, s, step);
    StepKeepsNonNegative(cfg, s, step);
  }

  ghost function FullInvOf(cfg: Config): State -> bool {
    s => FullInv(cfg, s)
  }

  lemma FullInvIsKept(cfg: Config)
    requires cfg.Valid()
    ensures FullInvOf(cfg)(Init(cfg)) && KeptByAll(cfg, FullInvOf(cfg))
  {
    InitFull(cfg);
    forall s, step, s' | FullInv(cfg, s) && Transition(cfg, s, step, s') ensures FullInv(cfg, s') {
      TransitionKeepsFull(cfg, s, step, s');
    }
  }

  lemma RunKeepsFull(cfg: Config, b: seq<State>, steps: seq<Step>, i: nat)
    requires cfg.Valid() && Run(cfg, b, steps) && i < |b|
    ensures FullInv(cfg, b[i])
  {
    FullInvIsKept(cfg);
    AlongRun(cfg, FullInvOf(cfg), b, steps, i);
  }

  /** At some moment up to j, node p was in the term and held the log `source` through index x. */
  ghost predicate HeldBy(b: seq<State>, j: nat, p: NodeId, term: int, source: Log, x: int)
    requires j < |b|
  {
    exists i :: 0 <= i <= j && p in b[i].nodes && b[i].nodes[p].currentTerm == term && Agree(b[i].nodes[p].log, source, x)
  }

  /** Confirmations differ only for nodes that are now in the term confirmed. */
  ghost predicate NewAcksCurrent(s: State, s': State) {
    forall k :: k in s'.hist.acks ==>
      (k in s.hist.acks && s.hist.acks[k] == s'.hist.acks[k])
      || (k.0 in s'.nodes && s'.nodes[k.0].currentTerm == k.1)
  }

  lemma AppendAcksCurrent(cfg: Config, s: State, m: Message)
    requires Shape(cfg, s) && LogInv(cfg, s) && Enabled(cfg, s, ReceiveAppend(m))
    ensures NewAcksCurrent(s, AppendNext(s, m))
  {
    AppendAnswers(cfg, s, m);
  }

  lemma ElectionAcksCurrent(cfg: Config, s: State, m: Message)
    requires Shape(cfg, s) && Enabled(cfg, s, ReceiveVoteResponse(m))
    ensures NewAcksCurrent(s, VoteResponseNext(cfg, s, m))
  {}

  lemma ProposalAcksCurrent(cfg: Config, s: State, n: NodeId, command: Command)
    requires Shape(cfg, s) && Enabled(cfg, s, ClientPropose(n, command))
    ensures NewAcksCurrent(s, ProposeNext(s, n, command))
  {}

  lemma NewAcksAreCurrent(cfg: Config, s: State, step: Step)
    requires Shape(cfg, s) && LogInv(cfg, s) && Enabled(cfg, s, step)
    ensures NewAcksCurrent(s, Next(cfg, s, step))
  {
    if step.ReceiveAppend? {
      AppendAcksCurrent(cfg, s, step.m);
    } else if step.ReceiveVoteResponse? {
      ElectionAcksCurrent(cfg, s, step.m);
    } else if step.ClientPropose? {
      ProposalAcksCurrent(cfg, s, step.n, step.command);
    } else {
      AcksUntouched(cfg, s, step);
    }
  }

  lemma AcksUntouched(cfg: Config, s: State, step: Step)
    requires Enabled(cfg, s, step) && !step.ReceiveAppend? && !step.ReceiveVoteResponse? && !step.ClientPropose?
    ensures Next(cfg, s, step).hist.acks == s.hist.acks
  {}

  /** Confirmations are no bookkeeping fiction: each stands for a moment of the run at which
      the node held that prefix in that term. */
  lemma {:induction false} AckWasHeld(cfg: Config, b: seq<State>, steps: seq<Step>, j: nat, p: NodeId, term: int)
    requires cfg.Valid() && Run(cfg, b, steps) && j < |b| && (p, term) in b[j].hist.acks
    ensures term in b[j].hist.termLogs
    ensures HeldBy(b, j, p, term, b[j].hist.termLogs[term], b[j].hist.acks[(p, term)])
  {
    AckedTermExists(cfg, b, steps, j, p, term);
    var x := b[j].hist.acks[(p, term)];
    if b[j].nodes[p].currentTerm == term {
      assert Agree(b[j].nodes[p].log, b[j].hist.termLogs[term], x);
    } else {
      AckIsOlder(cfg, b, steps, j, p, term);
      AckWasHeld(cfg, b, steps, j - 1, p, term);
      HeldStays(cfg, b, steps, j, p, term, x);
    }
  }

  lemma AckedTermExists(cfg: Config, b: seq<State>, steps: seq<Step>, j: nat, p: NodeId, term: int)
    requires cfg.Valid() && Run(cfg, b, steps) && j < |b| && (p, term) in b[j].hist.acks
    ensures p in b[j].nodes && term in b[j].hist.termLogs
    ensures b[j].nodes[p].currentTerm == term ==>
              Agree(b[j].nodes[p].log, b[j].hist.termLogs[term], b[j].hist.acks[(p, term)])
  {
    RunKeepsFull(cfg, b, steps, j);
  }

  lemma HeldStays(cfg: Config, b: seq<State>, steps: seq<Step>, j: nat, p: NodeId, term: int, x: int)
    requires cfg.Valid() && Run(cfg, b, steps) && 0 < j < |b|
    requires term in b[j - 1].hist.termLogs && term in b[j].hist.termLogs
    requires HeldBy(b, j - 1, p, term, b[j - 1].hist.termLogs[term], x)
    ensures HeldBy(b, j, p, term, b[j].hist.termLogs[term], x)
  {
    RunStepGrows(cfg, b, steps, j);
    var i :| 0 <= i <= j - 1 && p in b[i].nodes && b[i].nodes[p].currentTerm == term
             && Agree(b[i].nodes[p].log, b[j - 1].hist.termLogs[term], x);
    AgreeGrows(b[i].nodes[p].log, b[i].nodes[p].log, b[j - 1].hist.termLogs[term], b[j].hist.termLogs[term], x);
  }

  lemma AckIsOlder(cfg: Config, b: seq<State>, steps: seq<Step>, j: nat, p: NodeId, term: int)
    requires cfg.Valid() && Run(cfg, b, steps) && j < |b| && (p, term) in b[j].hist.acks
    requires p in b[j].nodes && b[j].nodes[p].currentTerm != term
    ensures j > 0 && (p, term) in b[j - 1].hist.acks && b[j - 1].hist.acks[(p, term)] == b[j].hist.acks[(p, term)]
  {
    if j > 0 { RunAcksCurrent(cfg, b, steps, j); }
  }

  lemma RunAcksCurrent(cfg: Config, b: seq<State>, steps: seq<Step>, j: nat)
    requires cfg.Valid() && Run(cfg, b, steps) && 0 < j < |b|
    ensures NewAcksCurrent(b[j - 1], b[j])
  {
    FullInvIsKept(cfg);
    forall s, step, s' | FullInv(cfg, s) && Transition(cfg, s, step, s') ensures NewAcksCurrent(s, s') {
      TransitionAcksCurrent(cfg, s, step, s');
    }
    EachStep(cfg, FullInvOf(cfg), (s: State, step: Step, s': State) => NewAcksCurrent(s, s'), b, steps, j);
  }

  lemma TransitionAcksCurrent(cfg: Config, s: State, step: Step, s': State)
    requires FullInv(cfg, s) && Transition(cfg, s, step, s')
    ensures NewAcksCurrent(s, s')
  {
    NewAcksAreCurrent(cfg, s, step);
  }

  lemma HeldDown(b: seq<State>, j: nat, p: NodeId, term: int, source: Log, x: int, y: int)
    requires j < |b| && HeldBy(b, j, p, term, source, x) && 0 <= y <= x
    ensures HeldBy(b, j, p, term, source, y)
  {
    var i :| 0 <= i <= j && p in b[i].nodes && b[i].nodes[p].currentTerm == term && Agree(b[i].nodes[p].log, source, x);
    AgreeDown(b[i].nodes[p].log, source, x, y);
  }

  /** A leader's match index never overstates a peer of its term, however late and out of order
      the replies came: the peer's log is the leader's up to there. */
  lemma MatchIndexIsHeld(cfg: Config, b: seq<State>, steps: seq<Step>, j: nat, n: NodeId, p: NodeId)
    requires cfg.Valid() && Run(cfg, b, steps) && j < |b| && n in b[j].nodes && p in b[j].nodes && p != n
    requires b[j].nodes[n].role == Leader && b[j].nodes[p].currentTerm == b[j].nodes[n].currentTerm
    ensures Agree(b[j].nodes[p].log, b[j].nodes[n].log, Lookup(b[j].nodes[n].matchIndex, p))
  {
    RunKeepsFull(cfg, b, steps, j);
    var s, k := b[j], Lookup(b[j].nodes[n].matchIndex, p);
    MatchIsHeld(cfg, s, n, p, k);
  }

  lemma MatchIsHeld(cfg: Config, s: State, n: NodeId, p: NodeId, k: int)
    requires Shape(cfg, s) && NodeLogsOk(s) && LeaderOwnsLog(s) && AcksAreHeld(s) && MatchesAreAcks(cfg, s)
    requires n in s.nodes && p in s.nodes && p != n && s.nodes[n].role == Leader
    requires s.nodes[p].currentTerm == s.nodes[n].currentTerm && k == Lookup(s.nodes[n].matchIndex, p)
    ensures Agree(s.nodes[p].log, s.nodes[n].log, k)
  {
    assert k >= 0 && (k > 0 ==> Acked(s, p, s.nodes[n].currentTerm, k));
    if k > 0 {
      AgreeDown(s.nodes[p].log, s.nodes[n].log, s.hist.acks[(p, s.nodes[n].currentTerm)], k);
    } else {
      assert s.nodes[p].log[..1] == s.nodes[n].log[..1];
    }
  }

  /** Commit is quorum-backed: when a reply moves a leader's commit index, the new index holds
      an entry of the leader's term, and each node of some majority held, while in that term,
      exactly the leader's log up to that index. */
  lemma CommitIsQuorumBacked(cfg: Config, b: seq<State>, steps: seq<Step>, j: nat, m: Message) returns (quorum: set<NodeId>)
    requires cfg.Valid() && Run(cfg, b, steps) && j < |steps| && steps[j] == ReceiveAppendResponse(m)
    requires m.AppendResponse? && m.dst in b[j].nodes && m.dst in b[j + 1].nodes
    requires b[j + 1].nodes[m.dst].commitIndex != b[j].nodes[m.dst].commitIndex
    ensures var st := b[j + 1].nodes[m.dst];
            && st.role == Leader && st.commitIndex > b[j].nodes[m.dst].commitIndex
            && 0 < st.commitIndex < |st.log| && st.log[st.commitIndex].term == st.currentTerm
            && quorum <= cfg.Ids() && 2 * |quorum| > |cfg.peers|
            && forall p :: p in quorum ==> HeldBy(b, j + 1, p, st.currentTerm, st.log, st.commitIndex)
  {
    assert Transition(cfg, b[j], steps[j], b[j + 1]);
    RunKeepsFull(cfg, b, steps, j);
    RunKeepsFull(cfg, b, steps, j + 1);
    AppendResponseTallies(cfg, b[j], m);
    var st := b[j + 1].nodes[m.dst];
    var c := (st.currentTerm, st.commitIndex);
    assert c in b[j + 1].hist.commits;
    quorum := Backers(cfg, b[j + 1], c.0, c.1);
    BackersHeld(cfg, b, steps, j + 1, c.0, c.1);
  }

  lemma BackersHeld(cfg: Config, b: seq<State>, steps: seq<Step>, j: nat, term: int, x: int)
    requires cfg.Valid() && Run(cfg, b, steps) && j < |b| && term in b[j].hist.termLogs && x >= 0
    ensures forall p :: p in Backers(cfg, b[j], term, x) ==> HeldBy(b, j, p, term, b[j].hist.termLogs[term], x)
  {
    forall p | p in Backers(cfg, b[j], term, x) ensures HeldBy(b, j, p, term, b[j].hist.termLogs[term], x) {
      AckWasHeld(cfg, b, steps, j, p, term);
      HeldDown(b, j, p, term, b[j].hist.termLogs[term], b[j].hist.acks[(p, term)], x);
    }
  }
}
