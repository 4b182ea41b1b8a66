/** Section 5.2 of the Raft paper: at most one leader per term, on every run. */
module ElectionSafety {
  import opened RaftLog
  import opened RaftNode
  import opened Cluster

  // ---- Majorities ----

  lemma {:induction false} IdsCount(peers: seq<NodeId>)
    requires forall i, j :: 0 <= i < j < |peers| ==> peers[i] != peers[j]
    ensures |set p | p in peers| == |peers|
  {
    if peers != [] {
      var init := peers[..|peers| - 1];
      IdsCount(init);
      assert (set p | p in peers) == (set p | p in init) + {peers[|peers| - 1]};
    }
  }

  lemma SubsetCount<T>(a: set<T>, b: set<T>)
    requires a <= b
    ensures |a| <= |b|
  {
    assert b == a + (b - a);
  }

  /** Two majorities of the peers share a node. */
  lemma MajoritiesMeet(cfg: Config, a: set<NodeId>, b: set<NodeId>) returns (p: NodeId)
    requires cfg.Valid() && a <= cfg.Ids() && b <= cfg.Ids()
    requires 2 * |a| > |cfg.peers| && 2 * |b| > |cfg.peers|
    ensures p in a && p in b
  {
    IdsCount(cfg.peers);
    SubsetCount(a + b, cfg.Ids());
    assert |a + b| + |a * b| == |a| + |b|;
    assert a * b != {};
    p :| p in a * b;
  }

  // ---- The invariant ----

  ghost predicate Shape(cfg: Config, s: State) {
    && s.nodes.Keys == cfg.Ids()
    && s.delivered.Keys == cfg.Ids()
    && (forall m :: m in s.network ==> m.src in cfg.Ids() && m.dst in cfg.Ids() && m.src != m.dst)
    && (forall m :: m in s.network && m.VoteRequest? ==> m.vote.candidateID == m.src)
  }

  ghost predicate BallotsAreVotes(cfg: Config, s: State) {
    && (forall k :: k in s.hist.ballots ==>
          k.0 in s.nodes && k.1 <= s.nodes[k.0].currentTerm && s.hist.ballots[k].candidate in cfg.Ids())
    && (forall n :: n in s.nodes ==>
          ((n, s.nodes[n].currentTerm) in s.hist.ballots <==> s.nodes[n].votedFor != NO_VOTE))
    && (forall n :: n in s.nodes && s.nodes[n].votedFor != NO_VOTE ==>
          s.hist.ballots[(n, s.nodes[n].currentTerm)].candidate == s.nodes[n].votedFor)
  }

  ghost predicate GrantsAreBallots(s: State) {
    forall m :: m in s.network && m.VoteResponse? && m.voteReply.voteGranted ==>
      (m.src, m.reqTerm) in s.hist.ballots && s.hist.ballots[(m.src, m.reqTerm)].candidate == m.dst
  }

  ghost predicate CallsAreCurrent(cfg: Config, s: State) {
    forall c :: c in s.calls ==> c.0 in s.nodes && c.1 <= s.nodes[c.0].currentTerm
  }

  ghost predicate VotedFor(s: State, p: NodeId, term: int, n: NodeId) {
    (p, term) in s.hist.ballots && s.hist.ballots[(p, term)].candidate == n
  }

  /** Peers whose vote for n in the term has been counted. */
  ghost function Counted(cfg: Config, s: State, n: NodeId, term: int): set<NodeId> {
    set p | p in cfg.Ids() && VotedFor(s, p, term, n) && (n, term, p) !in s.calls
  }

  /** Voters of a term's leader that voted before it won. */
  ghost function Supporters(cfg: Config, s: State, term: int): set<NodeId>
    requires term in s.hist.leaders
  {
    set p | p in cfg.Ids() && VotedFor(s, p, term, s.hist.leaders[term]) && s.hist.ballots[(p, term)].open
  }

  ghost predicate StandForSelf(s: State) {
    forall n :: n in s.nodes && s.nodes[n].role != Follower ==> s.nodes[n].votedFor == n
  }

  ghost predicate VotesAreCounted(cfg: Config, s: State) {
    forall n :: n in s.nodes && s.nodes[n].role == Candidate ==>
      s.nodes[n].votes <= |Counted(cfg, s, n, s.nodes[n].currentTerm)|
  }

  ghost predicate LeadersHaveMajorities(cfg: Config, s: State) {
    forall t :: t in s.hist.leaders ==>
      s.hist.leaders[t] in s.nodes && t <= s.nodes[s.hist.leaders[t]].currentTerm
      && 2 * |Supporters(cfg, s, t)| > |cfg.peers|
  }

  ghost predicate LeadersAreRecorded(s: State) {
    && (forall n :: n in s.nodes && s.nodes[n].role == Leader ==>
          s.nodes[n].currentTerm in s.hist.leaders && s.hist.leaders[s.nodes[n].currentTerm] == n)
    && (forall t :: t in s.hist.leaders ==>
          s.hist.leaders[t] in s.nodes
          && (s.nodes[s.hist.leaders[t]].currentTerm == t ==> s.nodes[s.hist.leaders[t]].role == Leader))
  }

  ghost predicate OpenUntilWon(s: State) {
    forall k :: k in s.hist.ballots && k.1 !in s.hist.leaders ==> s.hist.ballots[k].open
  }

  ghost predicate ElectionInv(cfg: Config, s: State) {
    && Shape(cfg, s)
    && BallotsAreVotes(cfg, s)
    && GrantsAreBallots(s)
    && CallsAreCurrent(cfg, s)
    && StandForSelf(s)
    && VotesAreCounted(cfg, s)
    && LeadersHaveMajorities(cfg, s)
    && LeadersAreRecorded(s)
    && OpenUntilWon(s)
  }

  // ---- Steps that take no part in the election ----

  ghost predicate QuietNode(st: NodeState, st': NodeState) {
    || (st'.currentTerm == st.currentTerm && st'.votedFor == st.votedFor && st'.role == st.role && st'.votes == st.votes)
    || (st'.currentTerm > st.currentTerm && st'.votedFor == NO_VOTE && st'.role == Follower)
  }

  ghost predicate Quiet(s: State, s': State) {
    && s'.nodes.Keys == s.nodes.Keys
    && s'.calls <= s.calls
    && s'.hist.ballots == s.hist.ballots
    && s'.hist.leaders == s.hist.leaders
    && (forall n :: n in s.nodes ==> QuietNode(s.nodes[n], s'.nodes[n]))
    && (forall m :: m in s'.network && m.VoteResponse? && m.voteReply.voteGranted && m !in s.network ==>
          VotedFor(s, m.src, m.reqTerm, m.dst))
  }

  lemma QuietKeepsBallots(cfg: Config, s: State, s': State)
    requires BallotsAreVotes(cfg, s) && Quiet(s, s')
    ensures BallotsAreVotes(cfg, s')
  {
    forall n | n in s'.nodes
      ensures (n, s'.nodes[n].currentTerm) in s'.hist.ballots <==> s'.nodes[n].votedFor != NO_VOTE
      ensures s'.nodes[n].votedFor != NO_VOTE ==>
                s'.hist.ballots[(n, s'.nodes[n].currentTerm)].candidate == s'.nodes[n].votedFor
    {
      assert QuietNode(s.nodes[n], s'.nodes[n]);
    }
    forall k | k in s'.hist.ballots ensures k.1 <= s'.nodes[k.0].currentTerm {
      assert QuietNode(s.nodes[k.0], s'.nodes[k.0]);
    }
  }

  lemma QuietKeepsCounts(cfg: Config, s: State, s': State)
    requires VotesAreCounted(cfg, s) && Quiet(s, s')
    ensures VotesAreCounted(cfg, s')
  {
    forall n | n in s'.nodes && s'.nodes[n].role == Candidate
      ensures s'.nodes[n].votes <= |Counted(cfg, s', n, s'.nodes[n].currentTerm)|
    {
      assert QuietNode(s.nodes[n], s'.nodes[n]);
      SubsetCount(Counted(cfg, s, n, s.nodes[n].currentTerm), Counted(cfg, s', n, s.nodes[n].currentTerm));
    }
  }

  lemma QuietKeepsMajorities(cfg: Config, s: State, s': State)
    requires LeadersHaveMajorities(cfg, s) && LeadersAreRecorded(s) && Quiet(s, s')
    ensures LeadersHaveMajorities(cfg, s') && LeadersAreRecorded(s')
  {
    forall t | t in s'.hist.leaders
      ensures s'.hist.leaders[t] in s'.nodes && t <= s'.nodes[s'.hist.leaders[t]].currentTerm
      ensures 2 * |Supporters(cfg, s', t)| > |cfg.peers|
    {
      assert QuietNode(s.nodes[s.hist.leaders[t]], s'.nodes[s.hist.leaders[t]]);
      assert Supporters(cfg, s', t) == Supporters(cfg, s, t);
    }
    forall n | n in s'.nodes && s'.nodes[n].role == Leader
      ensures s'.nodes[n].currentTerm in s'.hist.leaders && s'.hist.leaders[s'.nodes[n].currentTerm] == n
    {
      assert QuietNode(s.nodes[n], s'.nodes[n]);
    }
    forall t | t in s'.hist.leaders && s'.nodes[s'.hist.leaders[t]].currentTerm == t
      ensures s'.nodes[s'.hist.leaders[t]].role == Leader
    {
      assert QuietNode(s.nodes[s.hist.leaders[t]], s'.nodes[s.hist.leaders[t]]);
    }
  }

  lemma QuietKeepsElection(cfg: Config, s: State, s': State)
    requires ElectionInv(cfg, s) && Quiet(s, s') && Shape(cfg, s')
    ensures ElectionInv(cfg, s')
  {
    QuietKeepsBallots(cfg, s, s');
    QuietKeepsCounts(cfg, s, s');
    QuietKeepsMajorities(cfg, s, s');
    forall n | n in s'.nodes && s'.nodes[n].role != Follower ensures s'.nodes[n].votedFor == n {
      assert QuietNode(s.nodes[n], s'.nodes[n]);
    }
    forall c | c in s'.calls ensures c.1 <= s'.nodes[c.0].currentTerm {
      assert QuietNode(s.nodes[c.0], s'.nodes[c.0]);
    }
  }

  lemma ShapeKept(cfg: Config, s: State, step: Step)
    requires Shape(cfg, s) && Enabled(cfg, s, step)
    ensures Shape(cfg, Next(cfg, s, step))
  {}

  ghost predicate IsQuiet(step: Step) {
    step.SendAppend? || step.ReceiveAppend? || step.ReceiveAppendResponse? || step.ClientPropose? || step.Apply?
  }

  lemma QuietSteps(cfg: Config, s: State, step: Step)
    requires Enabled(cfg, s, step) && IsQuiet(step)
    ensures Quiet(s, Next(cfg, s, step))
  {
    match step
    case SendAppend(n, peer) =>
    case ReceiveAppend(m) => AppendQuiet(s, m);
    case ReceiveAppendResponse(m) => AppendReplyQuiet(cfg, s, m);
    case ClientPropose(n, command) => ProposeQuiet(s, n, command);
    case Apply(n) => ApplyQuiet(s, n);
  }

  lemma AppendQuiet(s: State, m: Message)
    requires m.AppendRequest? && Ready(s, m.dst)
    ensures Quiet(s, AppendNext(s, m))
  {
    assert QuietNode(s.nodes[m.dst], HandleAppendEntries(s.nodes[m.dst], m.app).0);
  }

  lemma AppendReplyQuiet(cfg: Config, s: State, m: Message)
    requires m.AppendResponse? && Ready(s, m.dst)
    ensures Quiet(s, AppendResponseNext(cfg, s, m))
  {
    assert QuietNode(s.nodes[m.dst], HandleAppendReply(cfg, m.dst, s.nodes[m.dst], m.src, m.app, m.appReply));
  }

  lemma ProposeQuiet(s: State, n: NodeId, command: Command)
    requires Ready(s, n)
    ensures Quiet(s, ProposeNext(s, n, command))
  {
    assert QuietNode(s.nodes[n], Propose(s.nodes[n], command).0);
  }

  lemma ApplyQuiet(s: State, n: NodeId)
    requires Ready(s, n)
    ensures Quiet(s, ApplyNext(s, n))
  {
    assert QuietNode(s.nodes[n], ApplyLogs(s.nodes[n]).0);
  }

  // ---- Steps that cast a vote ----

  /** One node moves to or stays in a term and casts its first vote there; nobody else moves. */
  ghost predicate Casts(cfg: Config, s: State, s': State, n: NodeId, term: int, b: Ballot) {
    && n in s.nodes && s'.nodes.Keys == s.nodes.Keys
    && term == s'.nodes[n].currentTerm && term >= s.nodes[n].currentTerm
    && (n, term) !in s.hist.ballots
    && s'.nodes[n].votedFor == b.candidate && b.candidate != NO_VOTE && b.candidate in cfg.Ids()
    && b.open == (term !in s.hist.leaders)
    && s'.hist.ballots == s.hist.ballots[(n, term) := b]
    && s'.hist.leaders == s.hist.leaders
    && (forall k :: k in s.nodes && k != n ==> s'.nodes[k] == s.nodes[k])
  }

  lemma CastKeepsBallots(cfg: Config, s: State, s': State, n: NodeId, term: int, b: Ballot)
    requires BallotsAreVotes(cfg, s) && Casts(cfg, s, s', n, term, b)
    ensures BallotsAreVotes(cfg, s')
  {
    forall k | k in s'.hist.ballots
      ensures k.0 in s'.nodes && k.1 <= s'.nodes[k.0].currentTerm && s'.hist.ballots[k].candidate in cfg.Ids()
    {
      if k != (n, term) { assert k in s.hist.ballots; }
    }
    forall k | k in s'.nodes
      ensures (k, s'.nodes[k].currentTerm) in s'.hist.ballots <==> s'.nodes[k].votedFor != NO_VOTE
      ensures s'.nodes[k].votedFor != NO_VOTE ==>
                s'.hist.ballots[(k, s'.nodes[k].currentTerm)].candidate == s'.nodes[k].votedFor
    {
      if k != n {
        assert s'.nodes[k] == s.nodes[k];
        assert (k, s.nodes[k].currentTerm) != (n, term);
      }
    }
  }

  /** Votes cast later never take support away from a recorded leader. */
  lemma CastKeepsMajorities(cfg: Config, s: State, s': State, n: NodeId, term: int, b: Ballot)
    requires LeadersHaveMajorities(cfg, s) && OpenUntilWon(s)
    requires Casts(cfg, s, s', n, term, b)
    ensures LeadersHaveMajorities(cfg, s') && OpenUntilWon(s')
  {
    forall t | t in s'.hist.leaders
      ensures s'.hist.leaders[t] in s'.nodes && t <= s'.nodes[s'.hist.leaders[t]].currentTerm
      ensures 2 * |Supporters(cfg, s', t)| > |cfg.peers|
    {
      forall p | p in Supporters(cfg, s, t) ensures p in Supporters(cfg, s', t) {
        assert (p, t) != (n, term);
      }
      SubsetCount(Supporters(cfg, s, t), Supporters(cfg, s', t));
    }
    forall k | k in s'.hist.ballots && k.1 !in s'.hist.leaders ensures s'.hist.ballots[k].open {
      if k != (n, term) { assert k in s.hist.ballots; }
    }
  }

  lemma CastKeepsGrants(cfg: Config, s: State, s': State, n: NodeId, term: int, b: Ballot)
    requires GrantsAreBallots(s) && Casts(cfg, s, s', n, term, b)
    requires forall m :: m in s'.network && m.VoteResponse? && m.voteReply.voteGranted && m !in s.network ==>
               m.src == n && m.reqTerm == term && m.dst == b.candidate
    ensures GrantsAreBallots(s')
  {
    forall m | m in s'.network && m.VoteResponse? && m.voteReply.voteGranted
      ensures (m.src, m.reqTerm) in s'.hist.ballots && s'.hist.ballots[(m.src, m.reqTerm)].candidate == m.dst
    {
      if m in s.network {
        assert (m.src, m.reqTerm) in s.hist.ballots;
        assert (m.src, m.reqTerm) != (n, term);
      }
    }
  }

  /** Other candidates keep the votes they counted. */
  lemma CastKeepsCount(cfg: Config, s: State, s': State, n: NodeId, term: int, b: Ballot, c: NodeId, t: int)
    requires Casts(cfg, s, s', n, term, b)
    requires forall p :: (c, t, p) in s'.calls ==> (c, t, p) in s.calls
    ensures |Counted(cfg, s, c, t)| <= |Counted(cfg, s', c, t)|
  {
    forall p | p in Counted(cfg, s, c, t) ensures p in Counted(cfg, s', c, t) {
      assert (p, t) != (n, term);
    }
    SubsetCount(Counted(cfg, s, c, t), Counted(cfg, s', c, t));
  }

  lemma TimeoutCasts(cfg: Config, s: State, n: NodeId) returns (term: int, b: Ballot)
    requires cfg.Valid() && Shape(cfg, s) && BallotsAreVotes(cfg, s) && Ready(s, n)
    ensures Casts(cfg, s, TimeoutNext(cfg, s, n), n, term, b)
    ensures term == s.nodes[n].currentTerm + 1 && b.candidate == n
  {
    var (st, args) := StartElection(n, s.nodes[n]);
    term := args.term;
    b := Ballot(n, st.log, args.lastLogIndex, args.lastLogTerm, term !in s.hist.leaders);
    assert (n, term) !in s.hist.ballots;
  }

  /** A new candidate counts its own vote. */
  lemma OwnVoteCounts(cfg: Config, s: State, n: NodeId)
    requires Ready(s, n) && n in cfg.Ids() && CallsAreCurrent(cfg, s)
    ensures n in Counted(cfg, TimeoutNext(cfg, s, n), n, s.nodes[n].currentTerm + 1)
  {
    var term := s.nodes[n].currentTerm + 1;
    assert VotedFor(TimeoutNext(cfg, s, n), n, term, n);
    assert (n, term, n) !in s.calls;
  }

  lemma TimeoutKeepsCounts(cfg: Config, s: State, n: NodeId)
    requires Enabled(cfg, s, Timeout(n)) && cfg.Valid()
    requires Shape(cfg, s) && BallotsAreVotes(cfg, s) && CallsAreCurrent(cfg, s) && VotesAreCounted(cfg, s)
    ensures VotesAreCounted(cfg, TimeoutNext(cfg, s, n))
  {
    var s' := TimeoutNext(cfg, s, n);
    var term, b := TimeoutCasts(cfg, s, n);
    OwnVoteCounts(cfg, s, n);
    forall c | c in s'.nodes && s'.nodes[c].role == Candidate
      ensures s'.nodes[c].votes <= |Counted(cfg, s', c, s'.nodes[c].currentTerm)|
    {
      if c == n {
        SubsetCount({n}, Counted(cfg, s', n, term));
      } else {
        CastKeepsCount(cfg, s, s', n, term, b, c, s.nodes[c].currentTerm);
      }
    }
  }

  lemma TimeoutKeepsElection(cfg: Config, s: State, n: NodeId)
    requires cfg.Valid() && ElectionInv(cfg, s) && Enabled(cfg, s, Timeout(n))
    ensures ElectionInv(cfg, Next(cfg, s, Timeout(n)))
  {
    var s' := TimeoutNext(cfg, s, n);
    ShapeKept(cfg, s, Timeout(n));
    var term, b := TimeoutCasts(cfg, s, n);
    CastKeepsBallots(cfg, s, s', n, term, b);
    CastKeepsMajorities(cfg, s, s', n, term, b);
    CastKeepsGrants(cfg, s, s', n, term, b);
    TimeoutKeepsCounts(cfg, s, n);
    TimeoutKeepsRecords(cfg, s, n);
  }

  lemma TimeoutKeepsRecords(cfg: Config, s: State, n: NodeId)
    requires cfg.Valid() && Shape(cfg, s) && Enabled(cfg, s, Timeout(n))
    requires CallsAreCurrent(cfg, s) && StandForSelf(s) && LeadersAreRecorded(s) && LeadersHaveMajorities(cfg, s)
    ensures CallsAreCurrent(cfg, TimeoutNext(cfg, s, n)) && StandForSelf(TimeoutNext(cfg, s, n))
    ensures LeadersAreRecorded(TimeoutNext(cfg, s, n))
  {}

  /** The vote a request draws, if it is the voter's first in that term. */
  function NewBallot(s: State, m: Message): Ballot
    requires m.VoteRequest? && Ready(s, m.dst)
  {
    Ballot(m.vote.candidateID, s.nodes[m.dst].log, m.vote.lastLogIndex, m.vote.lastLogTerm, m.vote.term !in s.hist.leaders)
  }

  predicate DrawsBallot(s: State, m: Message)
    requires m.VoteRequest? && Ready(s, m.dst)
  {
    HandleRequestVote(s.nodes[m.dst], m.vote).1.voteGranted && (m.dst, m.vote.term) !in s.hist.ballots
  }

  lemma VoteRequestCasts(cfg: Config, s: State, m: Message)
    requires cfg.Valid() && Shape(cfg, s) && BallotsAreVotes(cfg, s) && Enabled(cfg, s, ReceiveVoteRequest(m))
    requires DrawsBallot(s, m)
    ensures CastsForOther(cfg, s, VoteRequestNext(s, m), m.dst, m.vote.term, NewBallot(s, m))
  {
    GrantMovesVoter(s.nodes[m.dst], m.vote);
    DrawnIsCast(cfg, s, m);
  }

  lemma DrawnIsCast(cfg: Config, s: State, m: Message)
    requires m.VoteRequest? && Ready(s, m.dst) && DrawsBallot(s, m)
    requires m.vote.candidateID in cfg.Ids() && m.vote.candidateID != NO_VOTE
    ensures Casts(cfg, s, VoteRequestNext(s, m), m.dst, m.vote.term, NewBallot(s, m))
  {
    GrantMovesVoter(s.nodes[m.dst], m.vote);
    assert HandleRequestVote(s.nodes[m.dst], m.vote).0.log == s.nodes[m.dst].log;
  }

  lemma GrantMovesVoter(st: NodeState, a: RequestVoteArgs)
    requires HandleRequestVote(st, a).1.voteGranted
    ensures var st' := HandleRequestVote(st, a).0;
            && st'.currentTerm == a.term >= st.currentTerm && st'.votedFor == a.candidateID
            && (st'.role != Follower ==> st' == st.(votedFor := a.candidateID))
  {}

  lemma VoteRequestQuiet(cfg: Config, s: State, m: Message)
    requires cfg.Valid() && Shape(cfg, s) && BallotsAreVotes(cfg, s) && Enabled(cfg, s, ReceiveVoteRequest(m))
    requires !DrawsBallot(s, m)
    ensures Quiet(s, VoteRequestNext(s, m))
  {
    UndrawnChangesNothing(cfg, s, m);
    QuietAnswer(s, m);
  }

  /** Without a new ballot the voter is as it was: it refused, or repeated its earlier vote. */
  lemma UndrawnChangesNothing(cfg: Config, s: State, m: Message)
    requires m.VoteRequest? && Ready(s, m.dst) && !DrawsBallot(s, m) && m.vote.candidateID != NO_VOTE
    requires BallotsAreVotes(cfg, s)
    ensures var (st, reply) := HandleRequestVote(s.nodes[m.dst], m.vote);
            && st == s.nodes[m.dst]
            && (reply.voteGranted ==> VotedFor(s, m.dst, m.vote.term, m.vote.candidateID))
  {}

  lemma QuietAnswer(s: State, m: Message)
    requires m.VoteRequest? && Ready(s, m.dst) && m.vote.candidateID == m.src
    requires var (st, reply) := HandleRequestVote(s.nodes[m.dst], m.vote);
             && st == s.nodes[m.dst]
             && (reply.voteGranted ==> VotedFor(s, m.dst, m.vote.term, m.vote.candidateID))
    ensures Quiet(s, VoteRequestNext(s, m))
  {}

  lemma VoteRequestKeepsElection(cfg: Config, s: State, m: Message)
    requires cfg.Valid() && ElectionInv(cfg, s) && Enabled(cfg, s, ReceiveVoteRequest(m))
    ensures ElectionInv(cfg, Next(cfg, s, ReceiveVoteRequest(m)))
  {
    ShapeKept(cfg, s, ReceiveVoteRequest(m));
    var s' := VoteRequestNext(s, m);
    if DrawsBallot(s, m) {
      VoteRequestCasts(cfg, s, m);
      CastForOtherKeepsElection(cfg, s, s', m.dst, m.vote.term, NewBallot(s, m));
    } else {
      VoteRequestQuiet(cfg, s, m);
      QuietKeepsElection(cfg, s, s');
    }
  }

  ghost predicate CastsForOther(cfg: Config, s: State, s': State, n: NodeId, term: int, b: Ballot) {
    && Casts(cfg, s, s', n, term, b)
    && n != NO_VOTE && b.candidate != n && s'.calls == s.calls
    && (s'.nodes[n].role != Follower ==> s'.nodes[n] == s.nodes[n].(votedFor := b.candidate))
    && (forall m :: m in s'.network && m.VoteResponse? && m.voteReply.voteGranted && m !in s.network ==>
          m.src == n && m.reqTerm == term && m.dst == b.candidate)
  }

  lemma CastKeepsCounts(cfg: Config, s: State, s': State, n: NodeId, term: int, b: Ballot)
    requires VotesAreCounted(cfg, s) && CastsForOther(cfg, s, s', n, term, b) && s'.nodes[n].role == Follower
    ensures VotesAreCounted(cfg, s')
  {
    forall c | c in s'.nodes && s'.nodes[c].role == Candidate
      ensures s'.nodes[c].votes <= |Counted(cfg, s', c, s'.nodes[c].currentTerm)|
    {
      CastKeepsCount(cfg, s, s', n, term, b, c, s.nodes[c].currentTerm);
    }
  }

  lemma CastForOtherKeepsElection(cfg: Config, s: State, s': State, n: NodeId, term: int, b: Ballot)
    requires ElectionInv(cfg, s) && Shape(cfg, s')
    requires CastsForOther(cfg, s, s', n, term, b)
    ensures ElectionInv(cfg, s')
  {
    CastAsFollower(cfg, s, s', n, term, b);
    CastKeepsRecords(cfg, s, s', n, term, b);
    CastKeepsBallots(cfg, s, s', n, term, b);
    CastKeepsMajorities(cfg, s, s', n, term, b);
    CastKeepsGrants(cfg, s, s', n, term, b);
    CastKeepsCounts(cfg, s, s', n, term, b);
  }

  /** A node that votes for another one is a follower, and stood for nothing in that term. */
  lemma CastAsFollower(cfg: Config, s: State, s': State, n: NodeId, term: int, b: Ballot)
    requires StandForSelf(s) && BallotsAreVotes(cfg, s) && CastsForOther(cfg, s, s', n, term, b)
    ensures s'.nodes[n].role == Follower
    ensures s.nodes[n].role == Follower || s.nodes[n].currentTerm < term
  {
    assert s.nodes[n].role != Follower ==> (n, s.nodes[n].currentTerm) in s.hist.ballots;
  }

  lemma CastKeepsRecords(cfg: Config, s: State, s': State, n: NodeId, term: int, b: Ballot)
    requires StandForSelf(s) && LeadersAreRecorded(s) && LeadersHaveMajorities(cfg, s) && CallsAreCurrent(cfg, s)
    requires CastsForOther(cfg, s, s', n, term, b) && s'.nodes[n].role == Follower
    requires s.nodes[n].role == Follower || s.nodes[n].currentTerm < term
    ensures StandForSelf(s') && LeadersAreRecorded(s') && CallsAreCurrent(cfg, s')
  {
    CastKeepsLeaders(cfg, s, s', n, term, b);
  }

  lemma CastKeepsLeaders(cfg: Config, s: State, s': State, n: NodeId, term: int, b: Ballot)
    requires LeadersAreRecorded(s) && LeadersHaveMajorities(cfg, s) && Casts(cfg, s, s', n, term, b)
    requires s'.nodes[n].role == Follower && (s.nodes[n].role == Follower || s.nodes[n].currentTerm < term)
    ensures LeadersAreRecorded(s')
  {
    assert forall t :: t in s.hist.leaders && s.hist.leaders[t] == n ==> t < term;
  }

  // ---- Counting a vote ----

  /** What a vote goroutine does with its reply: it stops waiting, and either nothing else of
      the election changes for good, or one granted vote is added and possibly wins. */
  ghost predicate Replies(cfg: Config, s: State, s': State, m: Message, won: bool) {
    && m in s.network && m.VoteResponse? && (m.dst, m.reqTerm, m.src) in s.calls
    && m.dst in s.nodes && s'.nodes.Keys == s.nodes.Keys
    && (forall k :: k in s.nodes && k != m.dst ==> s'.nodes[k] == s.nodes[k])
    && s'.calls == s.calls - {(m.dst, m.reqTerm, m.src)}
    && s'.network == s.network
    && s'.hist.ballots == s.hist.ballots
    && s'.hist.leaders == (if won then s.hist.leaders[m.reqTerm := m.dst] else s.hist.leaders)
    && (if won || !QuietNode(s.nodes[m.dst], s'.nodes[m.dst]) then
          && m.voteReply.voteGranted
          && s.nodes[m.dst].role == Candidate && s.nodes[m.dst].currentTerm == m.reqTerm == s'.nodes[m.dst].currentTerm
          && s'.nodes[m.dst].votedFor == s.nodes[m.dst].votedFor
          && s'.nodes[m.dst].votes == s.nodes[m.dst].votes + 1
          && s'.nodes[m.dst].role == (if won then Leader else Candidate)
          && won == cfg.Majority(s'.nodes[m.dst].votes)
        else true)
  }

  ghost predicate Wins(s: State, s': State, m: Message)
    requires m.VoteResponse? && m.dst in s.nodes && m.dst in s'.nodes
  {
    s.nodes[m.dst].role != Leader && s'.nodes[m.dst].role == Leader
  }

  lemma VoteResponseReplies(cfg: Config, s: State, m: Message)
    requires Shape(cfg, s) && Enabled(cfg, s, ReceiveVoteResponse(m))
    ensures var s' := VoteResponseNext(cfg, s, m);
            m.dst in s'.nodes && Replies(cfg, s, s', m, Wins(s, s', m))
  {}

  /** The reply of a waiting call adds one voter that was not counted before. */
  lemma ReplyAddsVoter(cfg: Config, s: State, s': State, m: Message, won: bool)
    requires Shape(cfg, s) && GrantsAreBallots(s) && Replies(cfg, s, s', m, won)
    requires m.voteReply.voteGranted
    ensures |Counted(cfg, s, m.dst, m.reqTerm)| + 1 <= |Counted(cfg, s', m.dst, m.reqTerm)|
  {
    var before, after := Counted(cfg, s, m.dst, m.reqTerm), Counted(cfg, s', m.dst, m.reqTerm);
    assert m.src !in before;
    assert VotedFor(s', m.src, m.reqTerm, m.dst) && (m.dst, m.reqTerm, m.src) !in s'.calls;
    forall p | p in before + {m.src} ensures p in after {
      if p in before { assert VotedFor(s', p, m.reqTerm, m.dst); }
    }
    SubsetCount(before + {m.src}, after);
  }

  /** A candidate that reached a majority stands in a term nobody has won. */
  lemma NoSecondLeader(cfg: Config, s: State, n: NodeId, term: int, voters: set<NodeId>)
    requires cfg.Valid() && LeadersHaveMajorities(cfg, s) && LeadersAreRecorded(s)
    requires n in s.nodes && s.nodes[n].role == Candidate && s.nodes[n].currentTerm == term
    requires voters <= cfg.Ids() && 2 * |voters| > |cfg.peers|
    requires forall p :: p in voters ==> VotedFor(s, p, term, n)
    ensures term !in s.hist.leaders
  {
    if term in s.hist.leaders {
      var p := MajoritiesMeet(cfg, voters, Supporters(cfg, s, term));
    }
  }

  lemma WinnersVoters(cfg: Config, s: State, s': State, m: Message) returns (voters: set<NodeId>)
    requires Shape(cfg, s) && GrantsAreBallots(s) && VotesAreCounted(cfg, s) && Replies(cfg, s, s', m, true)
    ensures voters <= cfg.Ids() && 2 * |voters| > |cfg.peers|
    ensures forall p :: p in voters ==> VotedFor(s, p, m.reqTerm, m.dst)
  {
    voters := Counted(cfg, s', m.dst, m.reqTerm);
    ReplyAddsVoter(cfg, s, s', m, true);
    forall p | p in voters ensures VotedFor(s, p, m.reqTerm, m.dst) {
      assert VotedFor(s', p, m.reqTerm, m.dst);
    }
  }

  /** The votes were cast while the term had no leader. */
  lemma VotersWereEarly(cfg: Config, s: State, s': State, m: Message, voters: set<NodeId>)
    requires OpenUntilWon(s) && Replies(cfg, s, s', m, true) && m.reqTerm !in s.hist.leaders
    requires voters <= cfg.Ids() && forall p :: p in voters ==> VotedFor(s, p, m.reqTerm, m.dst)
    ensures voters <= Supporters(cfg, s', m.reqTerm)
  {
    forall p | p in voters ensures p in Supporters(cfg, s', m.reqTerm) {
      assert s.hist.ballots[(p, m.reqTerm)].open;
    }
  }

  lemma WinnerHasMajority(cfg: Config, s: State, s': State, m: Message)
    requires cfg.Valid() && ElectionInv(cfg, s) && Replies(cfg, s, s', m, true)
    ensures m.reqTerm !in s.hist.leaders && 2 * |Supporters(cfg, s', m.reqTerm)| > |cfg.peers|
  {
    var voters := WinnersVoters(cfg, s, s', m);
    NoSecondLeader(cfg, s, m.dst, m.reqTerm, voters);
    VotersWereEarly(cfg, s, s', m, voters);
    SubsetCount(voters, Supporters(cfg, s', m.reqTerm));
  }

  lemma ReplyKeepsMajorities(cfg: Config, s: State, s': State, m: Message, won: bool)
    requires LeadersHaveMajorities(cfg, s) && LeadersAreRecorded(s) && Replies(cfg, s, s', m, won)
    requires won ==> m.reqTerm !in s.hist.leaders && 2 * |Supporters(cfg, s', m.reqTerm)| > |cfg.peers|
    ensures LeadersHaveMajorities(cfg, s') && LeadersAreRecorded(s')
  {
    forall t | t in s'.hist.leaders
      ensures s'.hist.leaders[t] in s'.nodes && t <= s'.nodes[s'.hist.leaders[t]].currentTerm
      ensures 2 * |Supporters(cfg, s', t)| > |cfg.peers|
    {
      if t in s.hist.leaders {
        assert Supporters(cfg, s', t) == Supporters(cfg, s, t);
      }
    }
    ReplyKeepsRecords(cfg, s, s', m, won);
  }

  lemma ReplyKeepsRecords(cfg: Config, s: State, s': State, m: Message, won: bool)
    requires LeadersHaveMajorities(cfg, s) && LeadersAreRecorded(s) && Replies(cfg, s, s', m, won)
    requires won ==> m.reqTerm !in s.hist.leaders
    ensures LeadersAreRecorded(s')
  {}

  /** Whatever the reply, nobody's counter gets ahead of its counted voters. */
  lemma ReplyKeepsCounts(cfg: Config, s: State, s': State, m: Message, won: bool)
    requires Shape(cfg, s) && GrantsAreBallots(s) && VotesAreCounted(cfg, s) && Replies(cfg, s, s', m, won)
    ensures VotesAreCounted(cfg, s')
  {
    if m.voteReply.voteGranted {
      ReplyAddsVoter(cfg, s, s', m, won);
    }
    forall c | c in s'.nodes && s'.nodes[c].role == Candidate
      ensures s'.nodes[c].votes <= |Counted(cfg, s', c, s'.nodes[c].currentTerm)|
    {
      var t := s.nodes[c].currentTerm;
      forall p | p in Counted(cfg, s, c, t) ensures p in Counted(cfg, s', c, t) {
        assert VotedFor(s', p, t, c);
      }
      SubsetCount(Counted(cfg, s, c, t), Counted(cfg, s', c, t));
    }
  }

  lemma ReplyKeepsBallots(cfg: Config, s: State, s': State, m: Message, won: bool)
    requires BallotsAreVotes(cfg, s) && GrantsAreBallots(s) && CallsAreCurrent(cfg, s) && StandForSelf(s) && OpenUntilWon(s)
    requires Replies(cfg, s, s', m, won)
    ensures BallotsAreVotes(cfg, s') && GrantsAreBallots(s') && CallsAreCurrent(cfg, s') && StandForSelf(s') && OpenUntilWon(s')
  {
    ReplyKeepsVotes(cfg, s, s', m, won);
    forall k | k in s'.hist.ballots && k.1 !in s'.hist.leaders ensures s'.hist.ballots[k].open {
      assert k.1 !in s.hist.leaders;
    }
  }

  lemma ReplyKeepsVotes(cfg: Config, s: State, s': State, m: Message, won: bool)
    requires BallotsAreVotes(cfg, s) && Replies(cfg, s, s', m, won)
    ensures BallotsAreVotes(cfg, s')
  {}

  lemma VoteResponseKeepsElection(cfg: Config, s: State, m: Message)
    requires cfg.Valid() && ElectionInv(cfg, s) && Enabled(cfg, s, ReceiveVoteResponse(m))
    ensures ElectionInv(cfg, Next(cfg, s, ReceiveVoteResponse(m)))
  {
    ShapeKept(cfg, s, ReceiveVoteResponse(m));
    VoteResponseReplies(cfg, s, m);
    var s' := VoteResponseNext(cfg, s, m);
    ReplyKeepsElection(cfg, s, s', m, Wins(s, s', m));
  }

  lemma ReplyKeepsElection(cfg: Config, s: State, s': State, m: Message, won: bool)
    requires cfg.Valid() && ElectionInv(cfg, s) && Shape(cfg, s') && Replies(cfg, s, s', m, won)
    ensures ElectionInv(cfg, s')
  {
    ReplyKeepsBallots(cfg, s, s', m, won);
    ReplyKeepsCounts(cfg, s, s', m, won);
    if won {
      WinnerHasMajority(cfg, s, s', m);
    }
    ReplyKeepsMajorities(cfg, s, s', m, won);
  }

  lemma StepKeepsElection(cfg: Config, s: State, step: Step)
    requires cfg.Valid() && ElectionInv(cfg, s) && Enabled(cfg, s, step)
    ensures ElectionInv(cfg, Next(cfg, s, step))
  {
    if IsQuiet(step) {
      ShapeKept(cfg, s, step);
      QuietSteps(cfg, s, step);
      QuietKeepsElection(cfg, s, Next(cfg, s, step));
    } else {
      match step
      case Timeout(n) => TimeoutKeepsElection(cfg, s, n);
      case ReceiveVoteRequest(m) => VoteRequestKeepsElection(cfg, s, m);
      case ReceiveVoteResponse(m) => VoteResponseKeepsElection(cfg, s, m);
    }
  }

  lemma InitElection(cfg: Config)
    ensures ElectionInv(cfg, Init(cfg))
  {}

  // ---- Over runs ----

  lemma TransitionKeepsElection(cfg: Config, s: State, step: Step, s': State)
    requires cfg.Valid() && ElectionInv(cfg, s) && Transition(cfg, s, step, s')
    ensures ElectionInv(cfg, s')
  {
    StepKeepsElection(cfg, s, step);
  }

  lemma RunKeepsElection(cfg: Config, b: seq<State>, steps: seq<Step>, i: nat)
    requires cfg.Valid() && Run(cfg, b, steps) && i < |b|
    ensures ElectionInv(cfg, b[i])
  {
    InitElection(cfg);
    forall s, step, s' | ElectionInv(cfg, s) && Transition(cfg, s, step, s') ensures ElectionInv(cfg, s') {
      TransitionKeepsElection(cfg, s, step, s');
    }
    AlongRun(cfg, s => ElectionInv(cfg, s), b, steps, i);
  }

  /** Only a reply that wins an election records a leader, and never over another one. */
  lemma StepKeepsWinners(cfg: Config, s: State, step: Step)
    requires cfg.Valid() && ElectionInv(cfg, s) && Enabled(cfg, s, step)
    ensures Extends(s.hist.leaders, Next(cfg, s, step).hist.leaders)
  {
    if step.ReceiveVoteResponse? {
      VoteResponseReplies(cfg, s, step.m);
      var s' := VoteResponseNext(cfg, s, step.m);
      ReplyKeepsWinners(cfg, s, s', step.m, Wins(s, s', step.m));
    } else {
      LeadersUntouched(cfg, s, step);
    }
  }

  lemma ReplyKeepsWinners(cfg: Config, s: State, s': State, m: Message, won: bool)
    requires cfg.Valid() && ElectionInv(cfg, s) && Replies(cfg, s, s', m, won)
    ensures Extends(s.hist.leaders, s'.hist.leaders)
  {
    if won { WinnerHasMajority(cfg, s, s', m); }
  }

  lemma LeadersUntouched(cfg: Config, s: State, step: Step)
    requires Enabled(cfg, s, step) && !step.ReceiveVoteResponse?
    ensures Next(cfg, s, step).hist.leaders == s.hist.leaders
  {}

  ghost predicate Extends<K(!new), V>(a: map<K, V>, b: map<K, V>) {
    forall k :: k in a ==> k in b && b[k] == a[k]
  }

  /** A term once won stays won by the same node. */
  lemma WinnersAreForever(cfg: Config, b: seq<State>, steps: seq<Step>, i: nat, j: nat, term: int)
    requires cfg.Valid() && Run(cfg, b, steps) && i <= j < |b|
    requires term in b[i].hist.leaders
    ensures term in b[j].hist.leaders && b[j].hist.leaders[term] == b[i].hist.leaders[term]
  {
    forall k | 0 < k < |b| ensures Extends(b[k - 1].hist.leaders, b[k].hist.leaders) {
      RunStepKeepsWinners(cfg, b, steps, k);
    }
    ExtendsFrom(b, i, j);
  }

  lemma {:induction false} ExtendsFrom(b: seq<State>, i: nat, j: nat)
    requires i <= j < |b| && forall k :: 0 < k < |b| ==> Extends(b[k - 1].hist.leaders, b[k].hist.leaders)
    ensures Extends(b[i].hist.leaders, b[j].hist.leaders)
    decreases j
  {
    if i < j {
      ExtendsFrom(b, i, j - 1);
    }
  }

  lemma RunStepKeepsWinners(cfg: Config, b: seq<State>, steps: seq<Step>, j: nat)
    requires cfg.Valid() && Run(cfg, b, steps) && 0 < j < |b|
    ensures Extends(b[j - 1].hist.leaders, b[j].hist.leaders)
  {
    RunKeepsElection(cfg, b, steps, j - 1);
    RunStep(cfg, b, steps, j);
    TransitionKeepsWinners(cfg, b[j - 1], steps[j - 1], b[j]);
  }

  lemma TransitionKeepsWinners(cfg: Config, s: State, step: Step, s': State)
    requires cfg.Valid() && ElectionInv(cfg, s) && Transition(cfg, s, step, s')
    ensures Extends(s.hist.leaders, s'.hist.leaders)
  {
    StepKeepsWinners(cfg, s, step);
  }

  /** Election Safety: over a whole run, whoever leads a term at any time is the same node. */
  lemma ElectionSafety(cfg: Config, b: seq<State>, steps: seq<Step>, i: nat, j: nat, n: NodeId, k: NodeId)
    requires cfg.Valid() && Run(cfg, b, steps) && i < |b| && j < |b|
    requires n in b[i].nodes && b[i].nodes[n].role == Leader
    requires k in b[j].nodes && b[j].nodes[k].role == Leader
    requires b[i].nodes[n].currentTerm == b[j].nodes[k].currentTerm
    ensures n == k
  {
    RunKeepsElection(cfg, b, steps, i);
    RunKeepsElection(cfg, b, steps, j);
    var term := b[i].nodes[n].currentTerm;
    if i <= j {
      WinnersAreForever(cfg, b, steps, i, j, term);
    } else {
      WinnersAreForever(cfg, b, steps, j, i, term);
    }
  }
}
