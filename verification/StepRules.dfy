/** What each step of a run does to the node it addresses, told by what the run did before and by
    what the messages carry. */
module StepRules {
  import opened RaftLog
  import opened RaftNode
  import opened AppendMerge
  import opened Cluster
  import opened ElectionSafety
  import opened Elections
  import opened LogMatching
  import opened CommitQuorum
  import Delivery

  function Min(a: int, b: int): int {
    if a < b then a else b
  }

  // ---- Terms and roles ----

  /** The message the step delivers to n speaks of the term, and n heeds it: it heeds every
      request, and a reply while it still is in the role and the term it asked in. */
  predicate Hears(s: State, step: Step, n: NodeId, term: int) {
    n in s.nodes &&
    match step
    case ReceiveVoteRequest(m) => m.VoteRequest? && m.dst == n && m.vote.term == term
    case ReceiveAppend(m) => m.AppendRequest? && m.dst == n && m.app.term == term
    case ReceiveVoteResponse(m) =>
      m.VoteResponse? && m.dst == n && m.voteReply.term == term
      && s.nodes[n].role == Candidate && s.nodes[n].currentTerm == m.reqTerm
    case ReceiveAppendResponse(m) =>
      m.AppendResponse? && m.dst == n && m.appReply.term == term
      && s.nodes[n].role == Leader && s.nodes[n].currentTerm == m.app.term
    case _ => false
  }

  /** A node that hears of a later term moves to it, as a follower that has voted for nobody but
      the candidate that just asked. Otherwise it stays in its term and role, unless a vote makes
      it the leader, and keeps the vote it has cast. */
  ghost predicate Adopts(step: Step, st: NodeState, st': NodeState, term: int) {
    && st'.currentTerm == Max(st.currentTerm, term)
    && (term > st.currentTerm ==>
          && st'.role == Follower
          && (st'.votedFor == NO_VOTE || (step.ReceiveVoteRequest? && step.m.VoteRequest? && st'.votedFor == step.m.vote.candidateID)))
    && (term <= st.currentTerm && st'.role != st.role ==> step.ReceiveVoteResponse? && st.role == Candidate && st'.role == Leader)
    && (term <= st.currentTerm && st'.votedFor != st.votedFor ==> step.ReceiveVoteRequest? && st.votedFor == NO_VOTE)
  }

  lemma HeardIsAdopted(cfg: Config, s: State, step: Step, s': State, n: NodeId, term: int)
    requires Transition(cfg, s, step, s') && Hears(s, step, n, term)
    ensures n in s'.nodes && Adopts(step, s.nodes[n], s'.nodes[n], term)
  {
    if step.ReceiveVoteRequest? {
      VoterAdopts(s.nodes[n], step.m.vote);
    } else if step.ReceiveAppend? {
      HandlerAdopts(s.nodes[n], step.m.app);
    } else if step.ReceiveVoteResponse? {
      CandidateAdopts(cfg, n, s.nodes[n], step.m.reqTerm, step.m.voteReply);
    } else {
      LeaderAdopts(cfg, n, s.nodes[n], step.m.src, step.m.app, step.m.appReply);
    }
  }

  lemma VoterAdopts(st: NodeState, args: RequestVoteArgs)
    ensures var st' := HandleRequestVote(st, args).0;
            && st'.currentTerm == Max(st.currentTerm, args.term)
            && (args.term > st.currentTerm ==> st'.role == Follower && (st'.votedFor == NO_VOTE || st'.votedFor == args.candidateID))
            && (args.term <= st.currentTerm ==> st'.role == st.role && (st.votedFor != NO_VOTE ==> st'.votedFor == st.votedFor))
  {}

  lemma HandlerAdopts(st: NodeState, a: AppendEntriesArgs)
    requires |st.log| > 0
    ensures var st' := HandleAppendEntries(st, a).0;
            && st'.currentTerm == Max(st.currentTerm, a.term)
            && (a.term > st.currentTerm ==> st'.role == Follower && st'.votedFor == NO_VOTE)
            && (a.term <= st.currentTerm ==> st'.role == st.role && st'.votedFor == st.votedFor)
  {}

  lemma CandidateAdopts(cfg: Config, n: NodeId, st: NodeState, reqTerm: int, reply: RequestVoteReply)
    requires |st.log| > 0 && st.role == Candidate && st.currentTerm == reqTerm
    ensures var st' := HandleVoteReply(cfg, n, st, reqTerm, reply);
            && st'.currentTerm == Max(st.currentTerm, reply.term)
            && (reply.term > st.currentTerm ==> st'.role == Follower && st'.votedFor == NO_VOTE)
            && (reply.term <= st.currentTerm ==> st'.role != Follower && st'.votedFor == st.votedFor)
  {}

  lemma LeaderAdopts(cfg: Config, n: NodeId, st: NodeState, peer: NodeId, a: AppendEntriesArgs, reply: AppendEntriesReply)
    requires |st.log| > 0 && st.role == Leader && st.currentTerm == a.term
    ensures var st' := HandleAppendReply(cfg, n, st, peer, a, reply);
            && st'.currentTerm == Max(st.currentTerm, reply.term)
            && (reply.term > st.currentTerm ==> st'.role == Follower && st'.votedFor == NO_VOTE)
            && (reply.term <= st.currentTerm ==> st'.role == st.role && st'.votedFor == st.votedFor)
  {}

  lemma OthersKeepTerm(cfg: Config, s: State, step: Step, s': State, n: NodeId)
    requires Transition(cfg, s, step, s') && n in s.nodes && step != Timeout(n)
    requires forall term :: !Hears(s, step, n, term)
    ensures n in s'.nodes && s'.nodes[n].currentTerm == s.nodes[n].currentTerm
    ensures s'.nodes[n].role == s.nodes[n].role && s'.nodes[n].votedFor == s.nodes[n].votedFor
  {
    if step.ReceiveVoteRequest? {
      assert !Hears(s, step, n, step.m.vote.term);
    } else if step.ReceiveAppend? {
      assert !Hears(s, step, n, step.m.app.term);
    } else if step.ReceiveVoteResponse? {
      assert !Hears(s, step, n, step.m.voteReply.term);
    } else if step.ReceiveAppendResponse? {
      assert !Hears(s, step, n, step.m.appReply.term);
    }
  }

  /** On every run, the term a node hears of is adopted if it is later, by whatever message it
      comes, and nothing but that and the node's own timeout moves its term, role or vote. */
  lemma TermsAreAdopted(cfg: Config, b: seq<State>, steps: seq<Step>, i: nat, n: NodeId)
    requires cfg.Valid() && Run(cfg, b, steps) && i < |steps| && n in b[i].nodes
    ensures n in b[i + 1].nodes
    ensures forall term :: Hears(b[i], steps[i], n, term) ==> Adopts(steps[i], b[i].nodes[n], b[i + 1].nodes[n], term)
    ensures steps[i] != Timeout(n) && (forall term :: !Hears(b[i], steps[i], n, term)) ==>
              && b[i + 1].nodes[n].currentTerm == b[i].nodes[n].currentTerm
              && b[i + 1].nodes[n].role == b[i].nodes[n].role && b[i + 1].nodes[n].votedFor == b[i].nodes[n].votedFor
  {
    assert Transition(cfg, b[i], steps[i], b[i + 1]);
    NodesStay(cfg, b[i], steps[i], b[i + 1]);
    forall term | Hears(b[i], steps[i], n, term) ensures Adopts(steps[i], b[i].nodes[n], b[i + 1].nodes[n], term) {
      HeardIsAdopted(cfg, b[i], steps[i], b[i + 1], n, term);
    }
    if steps[i] != Timeout(n) && forall term :: !Hears(b[i], steps[i], n, term) {
      OthersKeepTerm(cfg, b[i], steps[i], b[i + 1], n);
    }
  }

  lemma NodesStay(cfg: Config, s: State, step: Step, s': State)
    requires Transition(cfg, s, step, s')
    ensures forall n :: n in s.nodes ==> n in s'.nodes
  {}

  /** Which steps may move what: nothing of a node but what its own step is for, and no message is
      ever taken back. */
  ghost predicate MovesOnly(s: State, step: Step, s': State, n: NodeId) {
    && n in s.nodes && n in s'.nodes && n in s.delivered && n in s'.delivered
    && var st, st' := s.nodes[n], s'.nodes[n];
       && (Actor(step) != n ==> st' == st && s'.delivered[n] == s.delivered[n])
       && (st'.log != st.log ==> step.ReceiveAppend? || step.ClientPropose?)
       && (st'.leaderID != st.leaderID ==> step.ReceiveAppend?)
       && (st'.commitIndex != st.commitIndex ==> step.ReceiveAppend? || step.ReceiveAppendResponse?)
       && (st'.lastApplied != st.lastApplied || s'.delivered[n] != s.delivered[n] ==> step.Apply?)
       && (st'.nextIndex != st.nextIndex || st'.matchIndex != st.matchIndex ==>
             step.ReceiveAppendResponse? || (st'.role == Leader && st.role == Candidate))
       && s.network <= s'.network
  }

  function Actor(step: Step): NodeId {
    match step
    case Timeout(n) => n
    case SendAppend(n, _) => n
    case ClientPropose(n, _) => n
    case Apply(n) => n
    case ReceiveVoteRequest(m) => m.dst
    case ReceiveVoteResponse(m) => m.dst
    case ReceiveAppend(m) => m.dst
    case ReceiveAppendResponse(m) => m.dst
  }

  lemma VoteReplyMovesOnly(cfg: Config, n: NodeId, st: NodeState, reqTerm: int, reply: RequestVoteReply)
    requires |st.log| > 0
    ensures var st' := HandleVoteReply(cfg, n, st, reqTerm, reply);
            && st'.log == st.log && st'.leaderID == st.leaderID
            && st'.commitIndex == st.commitIndex && st'.lastApplied == st.lastApplied
            && (st'.nextIndex != st.nextIndex || st'.matchIndex != st.matchIndex ==> st'.role == Leader && st.role == Candidate)
  {}

  lemma HandlerMovesOnly(st: NodeState, a: AppendEntriesArgs)
    requires |st.log| > 0
    ensures var st' := HandleAppendEntries(st, a).0;
            st'.lastApplied == st.lastApplied && st'.nextIndex == st.nextIndex && st'.matchIndex == st.matchIndex
  {}

  lemma ReplyMovesOnly(cfg: Config, n: NodeId, st: NodeState, peer: NodeId, a: AppendEntriesArgs, reply: AppendEntriesReply)
    requires |st.log| > 0
    ensures var st' := HandleAppendReply(cfg, n, st, peer, a, reply);
            st'.log == st.log && st'.leaderID == st.leaderID && st'.lastApplied == st.lastApplied
  {}

  lemma TransitionMovesOnly(cfg: Config, s: State, step: Step, s': State, n: NodeId)
    requires Transition(cfg, s, step, s') && n in s.nodes && n in s.delivered
    ensures MovesOnly(s, step, s', n)
  {
    if step.ReceiveVoteResponse? {
      VoteReplyMovesOnly(cfg, step.m.dst, s.nodes[step.m.dst], step.m.reqTerm, step.m.voteReply);
    } else if step.ReceiveAppend? {
      HandlerMovesOnly(s.nodes[step.m.dst], step.m.app);
    } else if step.ReceiveAppendResponse? {
      ReplyMovesOnly(cfg, step.m.dst, s.nodes[step.m.dst], step.m.src, step.m.app, step.m.appReply);
    }
  }

  /** On every run each step leaves alone what it is not for. */
  lemma StepsKeepApart(cfg: Config, b: seq<State>, steps: seq<Step>, i: nat, n: NodeId)
    requires cfg.Valid() && Run(cfg, b, steps) && i < |steps| && n in cfg.peers
    ensures MovesOnly(b[i], steps[i], b[i + 1], n)
  {
    RunKeepsElection(cfg, b, steps, i);
    assert Transition(cfg, b[i], steps[i], b[i + 1]);
    assert n in cfg.Ids() && n in b[i].nodes.Keys && n in b[i].delivered.Keys;
    TransitionMovesOnly(cfg, b[i], steps[i], b[i + 1], n);
  }

  // ---- Elections ----

  ghost function VoteCalls(cfg: Config, n: NodeId, args: RequestVoteArgs): set<Message> {
    set p | p in cfg.Ids() && p != n :: VoteRequest(n, p, args)
  }

  /** A timeout stands for the next term: the node votes for itself and asks every other peer,
      naming the last entry of its log. */
  lemma TimeoutStands(cfg: Config, b: seq<State>, steps: seq<Step>, i: nat, n: NodeId)
    requires cfg.Valid() && Run(cfg, b, steps) && i < |steps| && steps[i] == Timeout(n)
    ensures n in b[i].nodes && n in b[i + 1].nodes && |b[i].nodes[n].log| > 0
    ensures var st, st', last := b[i].nodes[n], b[i + 1].nodes[n], |b[i].nodes[n].log| - 1;
            && st'.role == Candidate && st'.currentTerm == st.currentTerm + 1 && st'.votedFor == n && st'.log == st.log
            && b[i + 1].network == b[i].network + VoteCalls(cfg, n, RequestVoteArgs(st'.currentTerm, n, last, st.log[last].term))
            && forall p :: p in cfg.peers && p != n ==> (n, st'.currentTerm, p) in b[i + 1].calls
  {
    RunKeepsInv(cfg, b, steps, i);
    assert Transition(cfg, b[i], steps[i], b[i + 1]);
    WellFormedIsContiguous(b[i].nodes[n].log);
  }

  /** A vote is granted exactly when the term is not past and the node has given the term's vote
      to nobody else, at any moment of the run; the answer names the term the node is in then. */
  ghost predicate AnswersCandidate(s: State, s': State, m: Message) {
    && m.VoteRequest? && m.dst in s.nodes && m.dst in s'.nodes
    && var granted := m.vote.term >= s.nodes[m.dst].currentTerm
                      && ((m.dst, m.vote.term) in s.hist.ballots ==> VotedFor(s, m.dst, m.vote.term, m.src));
       && s'.network == s.network + {VoteResponse(m.dst, m.src, m.vote.term, RequestVoteReply(s'.nodes[m.dst].currentTerm, granted))}
       && (granted ==> s'.nodes[m.dst].votedFor == m.src && VotedFor(s', m.dst, m.vote.term, m.src))
       && (!granted ==> s'.hist.ballots == s.hist.ballots)
  }

  lemma VoteIsGrantedIff(cfg: Config, b: seq<State>, steps: seq<Step>, i: nat, m: Message)
    requires cfg.Valid() && Run(cfg, b, steps) && i < |steps| && steps[i] == ReceiveVoteRequest(m)
    ensures AnswersCandidate(b[i], b[i + 1], m)
  {
    RunKeepsElection(cfg, b, steps, i);
    assert Transition(cfg, b[i], steps[i], b[i + 1]);
    VoteRequestGrants(cfg, b[i], m);
  }

  lemma VoteRequestGrants(cfg: Config, s: State, m: Message)
    requires Enabled(cfg, s, ReceiveVoteRequest(m)) && cfg.Valid() && Shape(cfg, s) && BallotsAreVotes(cfg, s)
    ensures AnswersCandidate(s, VoteRequestNext(s, m), m)
  {
    VoterGrants(s.nodes[m.dst], m.vote);
    if m.vote.term >= s.nodes[m.dst].currentTerm { FreeVote(cfg, s, m); }
  }

  lemma VoterGrants(st: NodeState, args: RequestVoteArgs)
    ensures var (st', reply) := HandleRequestVote(st, args);
            var free := args.term > st.currentTerm || st.votedFor == NO_VOTE || st.votedFor == args.candidateID;
            && reply == RequestVoteReply(st'.currentTerm, args.term >= st.currentTerm && free)
            && (reply.voteGranted ==> st'.votedFor == args.candidateID)
  {}

  /** The vote of a term is free exactly when the run has not given it to another candidate. */
  lemma FreeVote(cfg: Config, s: State, m: Message)
    requires cfg.Valid() && Shape(cfg, s) && BallotsAreVotes(cfg, s) && m in s.network && m.VoteRequest?
    requires m.dst in s.nodes && m.vote.term >= s.nodes[m.dst].currentTerm
    ensures var st := s.nodes[m.dst];
            m.vote.term > st.currentTerm || st.votedFor == NO_VOTE || st.votedFor == m.vote.candidateID
            <==> ((m.dst, m.vote.term) in s.hist.ballots ==> VotedFor(s, m.dst, m.vote.term, m.src))
  {
    assert (m.dst, m.vote.term) in s.hist.ballots ==> m.vote.term <= s.nodes[m.dst].currentTerm;
  }

  /** Whoever hears back from the peers in the term it stands for leads from then on exactly when
      its own vote and those it was sent are more than half of the peers. */
  lemma ElectedIff(cfg: Config, b: seq<State>, steps: seq<Step>, i: nat, m: Message)
    requires cfg.Valid() && Run(cfg, b, steps) && i < |steps| && steps[i] == ReceiveVoteResponse(m) && m.VoteResponse?
    requires m.dst in b[i].nodes && b[i].nodes[m.dst].role == Candidate
    requires b[i].nodes[m.dst].currentTerm == m.reqTerm && m.voteReply.term <= m.reqTerm
    ensures m.dst in b[i + 1].nodes
    ensures b[i + 1].nodes[m.dst].role ==
              if 2 * (1 + Grants(steps[..i + 1], m.dst, m.reqTerm)) > |cfg.peers| then Leader else Candidate
  {
    assert Transition(cfg, b[i], steps[i], b[i + 1]);
    RunKeepsElection(cfg, b, steps, i);
    MessageHasTwoEnds(cfg, b[i], m);
    CountIsExact(cfg, b, steps, i, m.dst);
    CandidateLacksMajority(cfg, b, steps, i, m.dst);
    GrantsSnoc(steps, i, m.dst, m.reqTerm);
    ReplyElects(cfg, m.dst, b[i].nodes[m.dst], m.voteReply);
  }

  lemma MessageHasTwoEnds(cfg: Config, s: State, m: Message)
    requires Shape(cfg, s) && m in s.network
    ensures |cfg.peers| >= 2
  {
    if |cfg.peers| < 2 {
      assert m.src in cfg.Ids() && m.dst in cfg.Ids();
      if |cfg.peers| == 1 { OnlyPeer(cfg, m.src, m.dst); }
      assert false;
    }
  }

  lemma ReplyElects(cfg: Config, n: NodeId, st: NodeState, reply: RequestVoteReply)
    requires |st.log| > 0 && st.role == Candidate && reply.term <= st.currentTerm
    requires 2 * st.votes <= |cfg.peers|
    ensures HandleVoteReply(cfg, n, st, st.currentTerm, reply).role ==
              if 2 * (st.votes + if reply.voteGranted then 1 else 0) > |cfg.peers| then Leader else Candidate
  {}

  /** A new leader starts every peer at the end of its own log, with nothing known of it. */
  ghost predicate StartsAfresh(st: NodeState, st': NodeState, p: NodeId) {
    && st'.log == st.log
    && p in st'.nextIndex && st'.nextIndex[p] == |st.log|
    && p in st'.matchIndex && st'.matchIndex[p] == 0
  }

  lemma WinnerStartsAfresh(cfg: Config, b: seq<State>, steps: seq<Step>, i: nat, n: NodeId, p: NodeId)
    requires cfg.Valid() && Run(cfg, b, steps) && i < |steps| && n in b[i].nodes && n in b[i + 1].nodes
    requires b[i].nodes[n].role != Leader && b[i + 1].nodes[n].role == Leader && p in cfg.peers && p != n
    ensures StartsAfresh(b[i].nodes[n], b[i + 1].nodes[n], p)
  {
    RunKeepsInv(cfg, b, steps, i);
    assert Transition(cfg, b[i], steps[i], b[i + 1]);
    NewLeaderStartsAfresh(cfg, b[i], steps[i], b[i + 1], n, p);
  }

  lemma NewLeaderStartsAfresh(cfg: Config, s: State, step: Step, s': State, n: NodeId, p: NodeId)
    requires Transition(cfg, s, step, s') && n in s.nodes && n in s'.nodes && NodeLogsOk(s)
    requires s.nodes[n].role != Leader && s'.nodes[n].role == Leader && p in cfg.peers && p != n
    ensures StartsAfresh(s.nodes[n], s'.nodes[n], p)
  {
    if step.ReceiveVoteResponse? {
      ReplyStartsAfresh(cfg, n, s.nodes[n], step.m.reqTerm, step.m.voteReply, p);
    } else if step.ReceiveAppend? {
      HandlerKeepsRole(s.nodes[step.m.dst], step.m.app);
    } else if step.ReceiveAppendResponse? {
      LeaderTallies(cfg, step.m.dst, s.nodes[step.m.dst], step.m.src, step.m.app, step.m.appReply);
    } else {
      NobodyElse(cfg, s, step, n);
    }
  }

  lemma NobodyElse(cfg: Config, s: State, step: Step, n: NodeId)
    requires Enabled(cfg, s, step) && n in s.nodes && n in Next(cfg, s, step).nodes
    requires !step.ReceiveVoteResponse? && !step.ReceiveAppend? && !step.ReceiveAppendResponse?
    ensures Next(cfg, s, step).nodes[n].role == Leader ==> s.nodes[n].role == Leader
  {}

  lemma HandlerKeepsRole(st: NodeState, a: AppendEntriesArgs)
    requires |st.log| > 0
    ensures HandleAppendEntries(st, a).0.role == Leader ==> st.role == Leader
  {}

  lemma ReplyStartsAfresh(cfg: Config, n: NodeId, st: NodeState, reqTerm: int, reply: RequestVoteReply, p: NodeId)
    requires WellFormed(st.log) && st.role != Leader && p in cfg.peers && p != n
    requires HandleVoteReply(cfg, n, st, reqTerm, reply).role == Leader
    ensures StartsAfresh(st, HandleVoteReply(cfg, n, st, reqTerm, reply), p)
  {
    WellFormedIsContiguous(st.log);
    ResetIsTotal(st.nextIndex, cfg.peers, n, |st.log|, p);
    ResetIsTotal(st.matchIndex, cfg.peers, n, 0, p);
  }

  lemma {:induction false} ResetIsTotal(m: map<NodeId, int>, peers: seq<NodeId>, me: NodeId, v: int, p: NodeId)
    requires p in peers && p != me
    ensures p in ResetPeers(m, peers, me, v) && ResetPeers(m, peers, me, v)[p] == v
    decreases |peers|
  {
    var init, last := peers[..|peers| - 1], peers[|peers| - 1];
    assert peers == init + [last];
    if p != last { ResetIsTotal(m, init, me, v, p); }
  }

  // ---- Replication ----

  /** A request to a peer starts at the peer's next index, or at the end of the log if that is
      less, names the entry before, and carries everything from there on. */
  ghost predicate SendsRest(s: State, s': State, n: NodeId, p: NodeId) {
    && n in s.nodes && p in s.nodes[n].nextIndex && s'.nodes == s.nodes
    && var st := s.nodes[n];
       var prev := Min(st.nextIndex[p], |st.log|) - 1;
       && 0 <= prev < |st.log|
       && s'.network == s.network
            + {AppendRequest(n, p, AppendEntriesArgs(st.currentTerm, n, prev, st.log[prev].term, st.log[prev + 1..], st.commitIndex))}
  }

  lemma RequestCarriesRest(cfg: Config, b: seq<State>, steps: seq<Step>, i: nat, n: NodeId, p: NodeId)
    requires cfg.Valid() && Run(cfg, b, steps) && i < |steps| && steps[i] == SendAppend(n, p)
    ensures SendsRest(b[i], b[i + 1], n, p)
  {
    RunKeepsInv(cfg, b, steps, i);
    assert Transition(cfg, b[i], steps[i], b[i + 1]);
    SentAt(cfg, b[i], n, p);
  }

  lemma SentAt(cfg: Config, s: State, n: NodeId, p: NodeId)
    requires Enabled(cfg, s, SendAppend(n, p)) && NodeLogsOk(s) && NextIndexOk(cfg, s)
    ensures SendsRest(s, SendAppendNext(s, n, p), n, p)
  {
    assert Lookup(s.nodes[n].nextIndex, p) >= 1;
    RequestFromNext(s.nodes[n], n, p);
  }

  lemma RequestFromNext(st: NodeState, n: NodeId, p: NodeId)
    requires WellFormed(st.log) && Lookup(st.nextIndex, p) >= 1
    ensures var prev := Min(Lookup(st.nextIndex, p), |st.log|) - 1;
            BuildAppendEntries(n, st, p)
              == AppendEntriesArgs(st.currentTerm, n, prev, st.log[prev].term, st.log[prev + 1..], st.commitIndex)
  {
    WellFormedIsContiguous(st.log);
    EntriesFromIsSlice(st.log, Min(Lookup(st.nextIndex, p), |st.log|));
  }

  /** The request's entry before its window is in the log. */
  predicate HoldsPrev(log: Log, a: AppendEntriesArgs) {
    0 <= a.prevLogIndex < |log| && log[a.prevLogIndex].term == a.prevLogTerm
  }

  /** A request is accepted exactly when its term is not past and the log holds the entry before
      its window. The answer names the term the node was in when the request came, even if the
      request moved it on. An accepted request may move the commit index, up to the log's end. */
  ghost predicate AnswersLeader(st: NodeState, st': NodeState, a: AppendEntriesArgs, reply: AppendEntriesReply) {
    var accepted := a.term >= st.currentTerm && HoldsPrev(st.log, a);
    && reply == AppendEntriesReply(st.currentTerm, accepted)
    && st'.leaderID == (if a.term >= st.currentTerm then a.leaderID else st.leaderID)
    && (!accepted ==> st'.log == st.log)
    && st'.commitIndex ==
         (if accepted && a.leaderCommit > st.commitIndex then Min(a.leaderCommit, |st'.log| - 1) else st.commitIndex)
  }

  lemma AppendIsAnswered(cfg: Config, b: seq<State>, steps: seq<Step>, i: nat, m: Message) returns (reply: AppendEntriesReply)
    requires cfg.Valid() && Run(cfg, b, steps) && i < |steps| && steps[i] == ReceiveAppend(m)
    ensures m.AppendRequest? && m.dst in b[i].nodes && m.dst in b[i + 1].nodes
    ensures b[i + 1].network == b[i].network + {AppendResponse(m.dst, m.src, m.app, reply)}
    ensures AnswersLeader(b[i].nodes[m.dst], b[i + 1].nodes[m.dst], m.app, reply)
  {
    RunKeepsInv(cfg, b, steps, i);
    RunKeepsInv(cfg, b, steps, i + 1);
    assert Transition(cfg, b[i], steps[i], b[i + 1]);
    AnsweredAt(cfg, b[i], m);
    reply := HandleAppendEntries(b[i].nodes[m.dst], m.app).1;
  }

  lemma AnsweredAt(cfg: Config, s: State, m: Message)
    requires Enabled(cfg, s, ReceiveAppend(m)) && NodeLogsOk(s) && RequestsOk(s) && NodeLogsOk(AppendNext(s, m))
    ensures var (st', reply) := HandleAppendEntries(s.nodes[m.dst], m.app);
            && AppendNext(s, m).network == s.network + {AppendResponse(m.dst, m.src, m.app, reply)}
            && AnswersLeader(s.nodes[m.dst], st', m.app, reply)
  {
    assert RequestOk(s, m.src, m.app);
    assert HandleAppendEntries(s.nodes[m.dst], m.app).0 == AppendNext(s, m).nodes[m.dst];
    HandlerAnswers(s.nodes[m.dst], m.app);
  }

  lemma HandlerAnswers(st: NodeState, a: AppendEntriesArgs)
    requires WellFormed(st.log) && a.prevLogIndex >= 0 && WellFormed(HandleAppendEntries(st, a).0.log)
    ensures AnswersLeader(st, HandleAppendEntries(st, a).0, a, HandleAppendEntries(st, a).1)
  {
    WellFormedIsContiguous(st.log);
    WellFormedIsContiguous(HandleAppendEntries(st, a).0.log);
  }

  /** A leader that hears back from a peer of no later term notes how far the peer confirmed, or
      starts one index earlier next time, never before the first. What this lets it commit is
      said by CommitProgress.NothingLeftBehind and CommitQuorum.CommitIsQuorumBacked. */
  ghost predicate Notes(st: NodeState, st': NodeState, peer: NodeId, end: int, success: bool) {
    && st'.role == Leader && st'.log == st.log
    && peer in st.nextIndex
    && st'.matchIndex == (if success then st.matchIndex[peer := end] else st.matchIndex)
    && st'.nextIndex == st.nextIndex[peer := if success then end + 1 else Max(1, st.nextIndex[peer] - 1)]
    && (!success ==> st'.commitIndex == st.commitIndex)
  }

  lemma ReplyIsNoted(cfg: Config, b: seq<State>, steps: seq<Step>, i: nat, m: Message)
    requires cfg.Valid() && Run(cfg, b, steps) && i < |steps| && steps[i] == ReceiveAppendResponse(m) && m.AppendResponse?
    requires m.dst in b[i].nodes && b[i].nodes[m.dst].role == Leader
    requires m.app.term == b[i].nodes[m.dst].currentTerm && m.appReply.term <= m.app.term
    ensures m.dst in b[i + 1].nodes
    ensures Notes(b[i].nodes[m.dst], b[i + 1].nodes[m.dst], m.src, m.app.prevLogIndex + |m.app.entries|, m.appReply.success)
  {
    RunKeepsInv(cfg, b, steps, i);
    assert Transition(cfg, b[i], steps[i], b[i + 1]);
    NotedAt(cfg, b[i], m);
  }

  lemma NotedAt(cfg: Config, s: State, m: Message)
    requires Enabled(cfg, s, ReceiveAppendResponse(m)) && s.nodes[m.dst].role == Leader
    requires m.app.term == s.nodes[m.dst].currentTerm && m.appReply.term <= m.app.term
    requires Shape(cfg, s) && NextIndexOk(cfg, s)
    ensures m.dst in AppendResponseNext(cfg, s, m).nodes
    ensures Notes(s.nodes[m.dst], AppendResponseNext(cfg, s, m).nodes[m.dst],
                  m.src, m.app.prevLogIndex + |m.app.entries|, m.appReply.success)
  {
    NextIndexKnown(cfg, s, m);
    TallyNotes(cfg, m.dst, s.nodes[m.dst], m.src, m.app, m.appReply);
  }

  lemma NextIndexKnown(cfg: Config, s: State, m: Message)
    requires Enabled(cfg, s, ReceiveAppendResponse(m)) && Shape(cfg, s) && NextIndexOk(cfg, s)
    requires s.nodes[m.dst].role == Leader
    ensures m.src in s.nodes[m.dst].nextIndex
  {
    assert Lookup(s.nodes[m.dst].nextIndex, m.src) >= 1;
  }

  lemma TallyNotes(cfg: Config, n: NodeId, st: NodeState, peer: NodeId, a: AppendEntriesArgs, reply: AppendEntriesReply)
    requires |st.log| > 0 && st.role == Leader && a.term == st.currentTerm && reply.term <= a.term && peer in st.nextIndex
    ensures Notes(st, HandleAppendReply(cfg, n, st, peer, a, reply), peer, a.prevLogIndex + |a.entries|, reply.success)
  {}

  // ---- Clients ----

  /** What Propose returns identifies the command for good: the leader stores it there, and
      whatever node ever holds an entry of that index and term holds that command. */
  lemma ProposalIsIdentified(cfg: Config, b: seq<State>, steps: seq<Step>, i: nat, n: NodeId, command: Command)
    requires cfg.Valid() && Run(cfg, b, steps) && i < |steps| && steps[i] == ClientPropose(n, command)
    ensures n in b[i].nodes && |b[i].nodes[n].log| > 0
    ensures var st, r := b[i].nodes[n], Propose(b[i].nodes[n], command).1;
            if st.role != Leader then b[i + 1] == b[i] && r == ProposeResult(-1, -1, false)
            else
              && r == ProposeResult(|st.log|, st.currentTerm, true)
              && b[i + 1].nodes == b[i].nodes[n := st.(log := st.log + [LogEntry(r.term, r.index, command)])]
              && forall j, p :: CarriesAt(b, j, p, r.index, r.term) ==> b[j].nodes[p].log[r.index].command == command
  {
    RunKeepsInv(cfg, b, steps, i);
    assert Transition(cfg, b[i], steps[i], b[i + 1]);
    ProposalIsStored(cfg, b[i], n, command);
    if b[i].nodes[n].role == Leader {
      var x, term := |b[i].nodes[n].log|, b[i].nodes[n].currentTerm;
      forall j, p | CarriesAt(b, j, p, x, term) ensures b[j].nodes[p].log[x].command == command {
        SameCommand(cfg, b, steps, i + 1, n, j, p, x);
      }
    }
  }

  lemma ProposalIsStored(cfg: Config, s: State, n: NodeId, command: Command)
    requires Enabled(cfg, s, ClientPropose(n, command)) && NodeLogsOk(s)
    ensures var s', st, r := ProposeNext(s, n, command), s.nodes[n], Propose(s.nodes[n], command).1;
            if st.role != Leader then s' == s && r == ProposeResult(-1, -1, false)
            else
              && r == ProposeResult(|st.log|, st.currentTerm, true)
              && s'.nodes == s.nodes[n := st.(log := st.log + [LogEntry(r.term, r.index, command)])]
  {
    WellFormedIsContiguous(s.nodes[n].log);
    assert s.nodes[n := s.nodes[n]] == s.nodes;
  }

  lemma SameCommand(cfg: Config, b: seq<State>, steps: seq<Step>, i: nat, n: NodeId, j: nat, p: NodeId, x: nat)
    requires cfg.Valid() && Run(cfg, b, steps) && i < |b| && n in b[i].nodes && x < |b[i].nodes[n].log|
    requires CarriesAt(b, j, p, x, b[i].nodes[n].log[x].term)
    ensures b[j].nodes[p].log[x].command == b[i].nodes[n].log[x].command
  {
    LogMatching.LogMatching(cfg, b, steps, i, j, n, p, x);
    assert b[i].nodes[n].log[..x + 1][x] == b[j].nodes[p].log[..x + 1][x];
  }

  ghost predicate CarriesAt(b: seq<State>, j: int, p: NodeId, index: int, term: int) {
    0 <= j < |b| && p in b[j].nodes && 0 <= index < |b[j].nodes[p].log| && b[j].nodes[p].log[index].term == term
  }

  /** The messages of the entries at those of the indices lo + 1 .. hi that the log holds. */
  function Messages(log: Log, lo: nat, hi: int): seq<ApplyMsg> {
    seq(Max(0, Min(hi, |log| - 1) - lo), (k: nat) requires lo + 1 + k < |log| => ApplyMsg(log[lo + 1 + k].command, lo + 1 + k))
  }

  lemma MessagesSnoc(log: Log, lo: nat, hi: int)
    requires lo < hi
    ensures Messages(log, lo, hi) == Messages(log, lo, hi - 1) + if hi < |log| then [ApplyMsg(log[hi].command, hi)] else []
  {}

  lemma {:induction false} DeliveredMessages(log: Log, lo: nat, hi: int)
    requires WellFormed(log)
    ensures Deliver(log, lo, hi) == Messages(log, lo, hi)
    decreases hi - lo
  {
    if lo < hi {
      WellFormedIsContiguous(log);
      DeliveredMessages(log, lo, hi - 1);
      MessagesSnoc(log, lo, hi);
    }
  }

  /** An apply step leaves nothing committed unapplied: it sends the entries from the first
      unapplied index up to the commit index, in order, each with its own index. */
  lemma ApplyCatchesUp(cfg: Config, b: seq<State>, steps: seq<Step>, i: nat, n: NodeId)
    requires cfg.Valid() && Run(cfg, b, steps) && i < |steps| && steps[i] == Apply(n)
    ensures n in b[i].nodes && n in b[i].delivered && b[i].nodes[n].lastApplied >= 0
    ensures var st := b[i].nodes[n];
            && b[i + 1].nodes == b[i].nodes[n := st.(lastApplied := Max(st.lastApplied, st.commitIndex))]
            && b[i + 1].delivered == b[i].delivered[n := b[i].delivered[n] + Messages(st.log, st.lastApplied, st.commitIndex)]
  {
    RunKeepsInv(cfg, b, steps, i);
    assert Transition(cfg, b[i], steps[i], b[i + 1]);
    assert n in b[i].nodes.Keys;
    Delivery.RunDelivers(cfg, b, steps, i, n);
    ApplyAt(b[i], n);
  }

  lemma ApplyAt(s: State, n: NodeId)
    requires Ready(s, n) && WellFormed(s.nodes[n].log) && s.nodes[n].lastApplied >= 0
    ensures var s', st := ApplyNext(s, n), s.nodes[n];
            && s'.nodes == s.nodes[n := st.(lastApplied := Max(st.lastApplied, st.commitIndex))]
            && s'.delivered == s.delivered[n := s.delivered[n] + Messages(st.log, st.lastApplied, st.commitIndex)]
  {
    var st := s.nodes[n];
    DeliveredMessages(st.log, st.lastApplied, st.commitIndex);
    if st.commitIndex <= st.lastApplied { assert s.delivered[n] + [] == s.delivered[n]; }
  }
}
