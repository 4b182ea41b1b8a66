/** Section 5.4.3 of the Raft paper: an entry once chosen is in the log of every later leader,
    on the runs whose deciding votes respect the log comparison of section 5.4.1. */
module LeaderCompleteness {
  import opened RaftLog
  import opened RaftNode
  import opened AppendMerge
  import opened Cluster
  import opened ElectionSafety
  import opened LogMatching
  import opened CommitQuorum

  /** Some leader after term t, up to term `upto`, never had the prefix of t's log through j. */
  ghost predicate LostBy(s: State, t: int, upto: int, j: int) {
    exists u :: u in s.hist.leaders && u in s.hist.termLogs && t in s.hist.termLogs
                && t < u <= upto && !Agree(s.hist.termLogs[u], s.hist.termLogs[t], j)
  }

  ghost predicate Carries(s: State, log: Log, t: int, upto: int, j: int) {
    t in s.hist.termLogs && (Agree(log, s.hist.termLogs[t], j) || LostBy(s, t, upto, j))
  }

  /** What a node ever confirmed it still holds, unless some leader in between lacked it. */
  ghost predicate NodesCarry(s: State) {
    forall k, j :: k in s.hist.acks && 0 <= j <= s.hist.acks[k] && k.0 in s.nodes ==>
      Carries(s, s.nodes[k.0].log, k.1, s.nodes[k.0].currentTerm, j)
  }

  ghost predicate BallotCarries(s: State, p: NodeId, u: int, t: int, j: int) {
    (p, u) in s.hist.ballots && s.hist.ballots[(p, u)].open
    && (p, t) in s.hist.acks && t < u && 0 <= j <= s.hist.acks[(p, t)] ==>
      Carries(s, s.hist.ballots[(p, u)].voterLog, t, u - 1, j)
  }

  /** The same for the log a node had when it voted in a term nobody had won yet. */
  ghost predicate BallotsCarry(s: State) {
    forall p, u, t, j :: BallotCarries(s, p, u, t, j)
  }

  ghost predicate BallotLogsOk(s: State) {
    forall k :: k in s.hist.ballots ==>
      WellFormed(s.hist.ballots[k].voterLog) && Sound(s.hist.ballots[k].voterLog, s.hist.termLogs)
  }

  // ---- Stability under growth ----

  /** A leader's log only grows by entries of its own term. */
  ghost predicate GrowsByTerm(E: TermLogs, E': TermLogs) {
    Grows(E, E') && NewEntriesByTerm(E, E')
  }

  ghost predicate NewEntriesByTerm(E: TermLogs, E': TermLogs)
  {
    forall t, i :: t in E && t in E' && |E[t]| <= i < |E'[t]| ==> E'[t][i].term == t
  }

  /** Two leader logs that agree now through an index the earlier one already had agreed there
      before: what a leader lacked it never gets. */
  lemma AgreementIsOld(E: TermLogs, E': TermLogs, t: int, u: int, j: int)
    requires GrowsByTerm(E, E') && t in E && u in E && t < u && TermsUpTo(E'[t], t)
    requires 0 <= j < |E[t]| && Agree(E'[u], E'[t], j)
    ensures Agree(E[u], E[t], j)
  {
    if j >= |E[u]| {
      AgreeDown(E'[u], E'[t], j, |E[u]|);
    } else {
      assert E'[u][..|E[u]|][..j + 1] == E'[u][..j + 1] && E'[t][..|E[t]|][..j + 1] == E'[t][..j + 1];
    }
  }

  lemma CarriesGrows(s: State, s': State, log: Log, log': Log, t: int, upto: int, upto': int, j: int)
    requires Carries(s, log, t, upto, j) && Prefix(log, log') && upto <= upto'
    requires GrowsByTerm(s.hist.termLogs, s'.hist.termLogs) && Extends(s.hist.leaders, s'.hist.leaders)
    requires t in s'.hist.termLogs && TermsUpTo(s'.hist.termLogs[t], t) && 0 <= j < |s.hist.termLogs[t]|
    ensures Carries(s', log', t, upto', j)
  {
    var E, E' := s.hist.termLogs, s'.hist.termLogs;
    if Agree(log, E[t], j) {
      AgreeGrows(log, log', E[t], E'[t], j);
    } else {
      var u :| u in s.hist.leaders && u in E && t < u <= upto && !Agree(E[u], E[t], j);
      if Agree(E'[u], E'[t], j) { AgreementIsOld(E, E', t, u, j); }
    }
  }

  // ---- NodesCarry ----

  /** How a node's log may move in a step: it grows, or it takes over the log of its term's leader. */
  ghost predicate LogMoves(s: State, st: NodeState, st': NodeState) {
    && st'.currentTerm >= st.currentTerm
    && (Prefix(st.log, st'.log)
        || (st'.currentTerm in s.hist.leaders && st'.currentTerm in s.hist.termLogs
            && exists end :: TakesOver(st.log, s.hist.termLogs[st'.currentTerm], end, st'.log)))
  }

  ghost predicate Moves(s: State, s': State) {
    && s'.nodes.Keys == s.nodes.Keys
    && (forall n :: n in s.nodes ==> LogMoves(s, s.nodes[n], s'.nodes[n]))
    && GrowsByTerm(s.hist.termLogs, s'.hist.termLogs) && Extends(s.hist.leaders, s'.hist.leaders)
    && NewAcksCurrent(s, s')
  }

  lemma TakeoverCarries(s: State, log: Log, log': Log, t: int, term: int, end: int, j: int)
    requires term in s.hist.leaders && term in s.hist.termLogs && t < term
    requires TakesOver(log, s.hist.termLogs[term], end, log')
    requires Carries(s, log, t, term, j)
    ensures Carries(s, log', t, term, j)
  {
    var E := s.hist.termLogs;
    if Agree(log, E[t], j) && Agree(E[term], E[t], j) {
      AgreeTrans(log, E[t], E[term], j);
      assert Agree(log', E[term], j);
    }
  }

  lemma MovedNodeCarries(s: State, s': State, n: NodeId, t: int, j: int)
    requires NodesCarry(s) && AcksOk(s) && Moves(s, s') && TermLogsOk(s')
    requires n in s.nodes && (n, t) in s.hist.acks && 0 <= j <= s.hist.acks[(n, t)]
    requires t < s'.nodes[n].currentTerm
    ensures Carries(s', s'.nodes[n].log, t, s'.nodes[n].currentTerm, j)
  {
    var st, st' := s.nodes[n], s'.nodes[n];
    assert Carries(s, st.log, t, st.currentTerm, j);
    assert LogMoves(s, st, st');
    if Prefix(st.log, st'.log) {
      CarriesGrows(s, s', st.log, st'.log, t, st.currentTerm, st'.currentTerm, j);
    } else {
      var end :| TakesOver(st.log, s.hist.termLogs[st'.currentTerm], end, st'.log);
      CarriesUpTo(s, st.log, t, st.currentTerm, st'.currentTerm, j);
      TakeoverCarries(s, st.log, st'.log, t, st'.currentTerm, end, j);
      CarriesGrows(s, s', st'.log, st'.log, t, st'.currentTerm, st'.currentTerm, j);
    }
  }

  lemma CarriesUpTo(s: State, log: Log, t: int, upto: int, upto': int, j: int)
    requires Carries(s, log, t, upto, j) && upto <= upto'
    ensures Carries(s, log, t, upto', j)
  {}

  lemma MovesKeepNodesCarry(s: State, s': State)
    requires NodesCarry(s) && AcksOk(s) && Moves(s, s') && TermLogsOk(s')
    requires AcksOk(s') && AcksAreHeld(s')
    ensures NodesCarry(s')
  {
    forall k, j | k in s'.hist.acks && 0 <= j <= s'.hist.acks[k] && k.0 in s'.nodes
      ensures Carries(s', s'.nodes[k.0].log, k.1, s'.nodes[k.0].currentTerm, j)
    {
      assert k == (k.0, k.1);
      if k.1 == s'.nodes[k.0].currentTerm {
        AgreeDown(s'.nodes[k.0].log, s'.hist.termLogs[k.1], s'.hist.acks[k], j);
      } else {
        MovedNodeCarries(s, s', k.0, k.1, j);
      }
    }
  }

  // ---- BallotsCarry ----

  ghost predicate NewBallotsFromLogs(s: State, s': State) {
    forall k :: k in s'.hist.ballots && !(k in s.hist.ballots && s.hist.ballots[k] == s'.hist.ballots[k]) ==>
      && k !in s.hist.ballots && k.0 in s.nodes && k.0 in s'.nodes && k.1 >= s.nodes[k.0].currentTerm
      && s'.hist.ballots[k].voterLog == s.nodes[k.0].log
      && s'.hist.ballots[k].open == (k.1 !in s.hist.leaders)
      && k.1 <= s'.nodes[k.0].currentTerm
  }

  lemma FreshBallotCarries(s: State, s': State, p: NodeId, t: int, u: int, j: int)
    requires NodesCarry(s) && AcksOk(s) && Moves(s, s') && TermLogsOk(s')
    requires p in s.nodes && (p, t) in s.hist.acks && 0 <= j <= s.hist.acks[(p, t)]
    requires u >= s.nodes[p].currentTerm && u !in s.hist.leaders && t < u
    ensures Carries(s', s.nodes[p].log, t, u - 1, j)
  {
    var log, upto := s.nodes[p].log, s.nodes[p].currentTerm;
    assert Carries(s, log, t, upto, j);
    CarriesBelow(s, log, t, upto, u, j);
    CarriesGrows(s, s', log, log, t, u - 1, u - 1, j);
  }

  /** The term itself has no leader yet, so whoever lacked the prefix led an earlier one. */
  lemma CarriesBelow(s: State, log: Log, t: int, upto: int, u: int, j: int)
    requires Carries(s, log, t, upto, j) && upto <= u && u !in s.hist.leaders
    ensures Carries(s, log, t, u - 1, j)
  {
    if !Agree(log, s.hist.termLogs[t], j) {
      var w :| w in s.hist.leaders && w in s.hist.termLogs && t < w <= upto && !Agree(s.hist.termLogs[w], s.hist.termLogs[t], j);
      assert w <= u - 1;
    }
  }

  lemma MovesKeepBallotsCarry(cfg: Config, s: State, s': State)
    requires BallotsCarry(s) && NodesCarry(s) && AcksOk(s) && Moves(s, s') && TermLogsOk(s')
    requires NewBallotsFromLogs(s, s') && BallotsAreVotes(cfg, s)
    ensures BallotsCarry(s')
  {
    forall p, u, t, j ensures BallotCarries(s', p, u, t, j) {
      if (p, u) in s'.hist.ballots && s'.hist.ballots[(p, u)].open
         && (p, t) in s'.hist.acks && t < u && 0 <= j <= s'.hist.acks[(p, t)] {
        OldAck(cfg, s, s', p, t, u);
        if (p, u) in s.hist.ballots && s.hist.ballots[(p, u)] == s'.hist.ballots[(p, u)] {
          OldBallotCarries(s, s', p, u, t, j);
        } else {
          FreshBallotCarries(s, s', p, t, u, j);
        }
      }
    }
  }

  lemma OldBallotCarries(s: State, s': State, p: NodeId, u: int, t: int, j: int)
    requires BallotsCarry(s) && AcksOk(s) && Moves(s, s') && TermLogsOk(s')
    requires (p, u) in s.hist.ballots && s.hist.ballots[(p, u)].open
    requires (p, t) in s.hist.acks && t < u && 0 <= j <= s.hist.acks[(p, t)]
    ensures Carries(s', s.hist.ballots[(p, u)].voterLog, t, u - 1, j)
  {
    var log := s.hist.ballots[(p, u)].voterLog;
    assert BallotCarries(s, p, u, t, j);
    CarriesGrows(s, s', log, log, t, u - 1, u - 1, j);
  }

  /** A node that voted in u confirms nothing new about earlier terms. */
  lemma OldAck(cfg: Config, s: State, s': State, p: NodeId, t: int, u: int)
    requires Moves(s, s') && NewBallotsFromLogs(s, s') && BallotsAreVotes(cfg, s)
    requires (p, u) in s'.hist.ballots && (p, t) in s'.hist.acks && t < u
    ensures (p, t) in s.hist.acks && s.hist.acks[(p, t)] == s'.hist.acks[(p, t)]
  {
    if (p, u) in s.hist.ballots {
      assert u <= s.nodes[p].currentTerm;
      assert LogMoves(s, s.nodes[p], s'.nodes[p]);
    }
  }

  lemma BallotLogsStayOk(s: State, s': State)
    requires BallotLogsOk(s) && NodeLogsOk(s) && NewBallotsFromLogs(s, s') && Grows(s.hist.termLogs, s'.hist.termLogs)
    ensures BallotLogsOk(s')
  {
    forall k | k in s'.hist.ballots
      ensures WellFormed(s'.hist.ballots[k].voterLog) && Sound(s'.hist.ballots[k].voterLog, s'.hist.termLogs)
    {
      if k in s.hist.ballots && s.hist.ballots[k] == s'.hist.ballots[k] {
        SoundGrows(s.hist.ballots[k].voterLog, s.hist.termLogs, s'.hist.termLogs);
      } else {
        assert LogOk(s.nodes[k.0].log, s.nodes[k.0].currentTerm, s.hist.termLogs);
        SoundGrows(s.nodes[k.0].log, s.hist.termLogs, s'.hist.termLogs);
      }
    }
  }

  // ---- Every step moves logs this way ----

  lemma StepGrowsByTerm(cfg: Config, s: State, step: Step)
    requires cfg.Valid() && Inv(cfg, s) && Enabled(cfg, s, step)
    ensures GrowsByTerm(s.hist.termLogs, Next(cfg, s, step).hist.termLogs)
  {
    StepGrows(cfg, s, step);
    if step.ReceiveVoteResponse? {
      WinGrowsByTerm(cfg, s, step.m);
    } else if step.ClientPropose? {
      ProposeGrowsByTerm(cfg, s, step.n, step.command);
    } else {
      TermLogsUntouched(cfg, s, step);
    }
  }

  lemma ProposeGrowsByTerm(cfg: Config, s: State, n: NodeId, command: Command)
    requires Shape(cfg, s) && NodeLogsOk(s) && LeaderOwnsLog(s) && Enabled(cfg, s, ClientPropose(n, command))
    ensures NewEntriesByTerm(s.hist.termLogs, ProposeNext(s, n, command).hist.termLogs)
  {
    if s.nodes[n].role == Leader {
      ProposeProposes(cfg, s, n, command);
      ProposalGrowsByTerm(cfg, s, ProposeNext(s, n, command), n,
                          LogEntry(s.nodes[n].currentTerm, |s.nodes[n].log|, command));
    }
  }

  lemma WinGrowsByTerm(cfg: Config, s: State, m: Message)
    requires cfg.Valid() && Inv(cfg, s) && Enabled(cfg, s, ReceiveVoteResponse(m))
    ensures NewEntriesByTerm(s.hist.termLogs, VoteResponseNext(cfg, s, m).hist.termLogs)
  {
    var s' := VoteResponseNext(cfg, s, m);
    VoteResponseReplies(cfg, s, m);
    if Wins(s, s', m) {
      WinnerHasMajority(cfg, s, s', m);
      WinStepWinsWithLog(cfg, s, m);
      WonTermIsNew(cfg, s, s', m.dst);
    } else {
      ReplyUntouched(cfg, s, m);
    }
  }

  lemma WonTermIsNew(cfg: Config, s: State, s': State, n: NodeId)
    requires WinsWithLog(cfg, s, s', n) && TermLogsOk(s) && NodeLogsOk(s) && s.nodes[n].currentTerm !in s.hist.leaders
    ensures NewEntriesByTerm(s.hist.termLogs, s'.hist.termLogs)
  {}

  lemma ProposalGrowsByTerm(cfg: Config, s: State, s': State, n: NodeId, e: LogEntry)
    requires LeaderOwnsLog(s) && Proposes(cfg, s, s', n, e)
    ensures NewEntriesByTerm(s.hist.termLogs, s'.hist.termLogs)
  {}

  lemma AppendMovesLog(cfg: Config, s: State, m: Message)
    requires Shape(cfg, s) && LogInv(cfg, s) && Enabled(cfg, s, ReceiveAppend(m))
    ensures forall n :: n in s.nodes ==> n in AppendNext(s, m).nodes && LogMoves(s, s.nodes[n], AppendNext(s, m).nodes[n])
  {
    var (st', reply) := HandleAppendEntries(s.nodes[m.dst], m.app);
    AppendAnswers(cfg, s, m);
    HandledMoves(s, s.nodes[m.dst], st', m.src, m.app, reply.success);
  }

  lemma HandledMoves(s: State, st: NodeState, st': NodeState, leader: NodeId, a: AppendEntriesArgs, accepted: bool)
    requires RequestOk(s, leader, a) && HandlesRequest(st, st', a, s.hist.termLogs[a.term], accepted)
    ensures LogMoves(s, st, st')
  {
    if accepted {
      assert TakesOver(st.log, s.hist.termLogs[a.term], a.prevLogIndex + |a.entries|, st'.log);
    }
  }

  lemma SteadyMovesLog(cfg: Config, s: State, s': State)
    requires Steady(cfg, s, s')
    ensures forall n :: n in s.nodes ==> LogMoves(s, s.nodes[n], s'.nodes[n])
  {}

  lemma StepMovesLogs(cfg: Config, s: State, step: Step)
    requires cfg.Valid() && Inv(cfg, s) && Enabled(cfg, s, step)
    ensures forall n :: n in s.nodes ==> n in Next(cfg, s, step).nodes && LogMoves(s, s.nodes[n], Next(cfg, s, step).nodes[n])
  {
    if step.ReceiveAppend? {
      AppendMovesLog(cfg, s, step.m);
    } else if step.ReceiveAppendResponse? {
      AppendResponseMovesLog(cfg, s, step.m);
    } else if step.ReceiveVoteResponse? {
      VoteResponseMovesLog(cfg, s, step.m);
    } else if step.ClientPropose? {
      ProposeMovesLog(cfg, s, step.n, step.command);
    } else {
      OtherStepsMoveLogs(cfg, s, step);
    }
  }

  lemma AppendResponseMovesLog(cfg: Config, s: State, m: Message)
    requires Shape(cfg, s) && Enabled(cfg, s, ReceiveAppendResponse(m))
    ensures forall n :: n in s.nodes ==> n in AppendResponseNext(cfg, s, m).nodes
                                         && LogMoves(s, s.nodes[n], AppendResponseNext(cfg, s, m).nodes[n])
  {
    AppendResponseTallies(cfg, s, m);
    SteadyMovesLog(cfg, s, AppendResponseNext(cfg, s, m));
  }

  lemma OtherStepsMoveLogs(cfg: Config, s: State, step: Step)
    requires Shape(cfg, s) && Enabled(cfg, s, step)
    requires step.Timeout? || step.ReceiveVoteRequest? || step.SendAppend? || step.Apply?
    ensures forall n :: n in s.nodes ==> n in Next(cfg, s, step).nodes && LogMoves(s, s.nodes[n], Next(cfg, s, step).nodes[n])
  {
    OtherStepsAreSteady(cfg, s, step);
    SteadyMovesLog(cfg, s, Next(cfg, s, step));
  }

  lemma VoteResponseMovesLog(cfg: Config, s: State, m: Message)
    requires Shape(cfg, s) && Enabled(cfg, s, ReceiveVoteResponse(m))
    ensures forall n :: n in s.nodes ==> n in VoteResponseNext(cfg, s, m).nodes
                                         && LogMoves(s, s.nodes[n], VoteResponseNext(cfg, s, m).nodes[n])
  {}

  lemma ProposeMovesLog(cfg: Config, s: State, n: NodeId, command: Command)
    requires Shape(cfg, s) && Enabled(cfg, s, ClientPropose(n, command))
    ensures forall k :: k in s.nodes ==> k in ProposeNext(s, n, command).nodes
                                         && LogMoves(s, s.nodes[k], ProposeNext(s, n, command).nodes[k])
  {}

  lemma StepMoves(cfg: Config, s: State, step: Step)
    requires cfg.Valid() && FullInv(cfg, s) && Enabled(cfg, s, step)
    ensures Moves(s, Next(cfg, s, step))
  {
    StepGrowsByTerm(cfg, s, step);
    StepMovesLogs(cfg, s, step);
    StepKeepsWinners(cfg, s, step);
    NewAcksAreCurrent(cfg, s, step);
    ShapeKept(cfg, s, step);
  }

  lemma BallotsUntouched(cfg: Config, s: State, step: Step)
    requires Enabled(cfg, s, step) && !step.Timeout? && !step.ReceiveVoteRequest?
    ensures Next(cfg, s, step).hist.ballots == s.hist.ballots
    ensures Next(cfg, s, step).hist.candidateLogs == s.hist.candidateLogs
  {}

  lemma StepNewBallots(cfg: Config, s: State, step: Step)
    requires cfg.Valid() && ElectionInv(cfg, s) && Enabled(cfg, s, step)
    ensures NewBallotsFromLogs(s, Next(cfg, s, step))
  {
    match step
    case Timeout(n) => TimeoutNewBallots(cfg, s, n);
    case ReceiveVoteRequest(m) => VoteRequestNewBallots(cfg, s, m);
    case _ => BallotsUntouched(cfg, s, step);
  }

  lemma TimeoutNewBallots(cfg: Config, s: State, n: NodeId)
    requires cfg.Valid() && Shape(cfg, s) && BallotsAreVotes(cfg, s) && Enabled(cfg, s, Timeout(n))
    ensures NewBallotsFromLogs(s, TimeoutNext(cfg, s, n))
  {
    var term, b := TimeoutCasts(cfg, s, n);
  }

  lemma VoteRequestNewBallots(cfg: Config, s: State, m: Message)
    requires cfg.Valid() && Shape(cfg, s) && BallotsAreVotes(cfg, s) && Enabled(cfg, s, ReceiveVoteRequest(m))
    ensures NewBallotsFromLogs(s, VoteRequestNext(s, m))
  {
    if DrawsBallot(s, m) {
      VoteRequestCasts(cfg, s, m);
      CastFromLog(cfg, s, VoteRequestNext(s, m), m.dst, m.vote.term, NewBallot(s, m));
    } else {
      VoteRequestQuiet(cfg, s, m);
    }
  }

  lemma CastFromLog(cfg: Config, s: State, s': State, n: NodeId, term: int, b: Ballot)
    requires Casts(cfg, s, s', n, term, b) && b.voterLog == s.nodes[n].log
    ensures NewBallotsFromLogs(s, s')
  {}

  // ---- Candidates ----

  /** What a node claims about its log when it asks for votes is what its log was. */
  ghost predicate ClaimOk(s: State, c: NodeId, term: int, lastIndex: int, lastTerm: int) {
    && (c, term) in s.hist.candidateLogs
    && var log := s.hist.candidateLogs[(c, term)];
       |log| > 0 && lastIndex == |log| - 1 && lastTerm == log[|log| - 1].term
  }

  ghost predicate ClaimsOk(s: State) {
    && (forall m :: m in s.network && m.VoteRequest? ==>
          ClaimOk(s, m.src, m.vote.term, m.vote.lastLogIndex, m.vote.lastLogTerm))
    && (forall k :: k in s.hist.ballots ==>
          ClaimOk(s, s.hist.ballots[k].candidate, k.1, s.hist.ballots[k].lastIndex, s.hist.ballots[k].lastTerm))
  }

  ghost predicate CandidateLogsOk(s: State) {
    forall k :: k in s.hist.candidateLogs ==>
      && k.0 in s.nodes && k.1 <= s.nodes[k.0].currentTerm
      && |s.hist.candidateLogs[k]| > 0 && TermsUpTo(s.hist.candidateLogs[k], k.1 - 1)
  }

  /** Until its term is won by someone, a candidate still has the log it stood with. */
  ghost predicate CandidatesKeepLogs(s: State) {
    forall n :: n in s.nodes && s.nodes[n].role == Candidate && s.nodes[n].currentTerm !in s.hist.leaders ==>
      (n, s.nodes[n].currentTerm) in s.hist.candidateLogs
      && s.hist.candidateLogs[(n, s.nodes[n].currentTerm)] == s.nodes[n].log
  }

  /** A term's log starts with the log its leader stood with. */
  ghost predicate LeadersKeepLogs(s: State) {
    forall t :: t in s.hist.leaders ==>
      t in s.hist.termLogs && (s.hist.leaders[t], t) in s.hist.candidateLogs
      && Prefix(s.hist.candidateLogs[(s.hist.leaders[t], t)], s.hist.termLogs[t])
  }

  ghost predicate CandidateInv(s: State) {
    ClaimsOk(s) && CandidateLogsOk(s) && CandidatesKeepLogs(s) && LeadersKeepLogs(s)
  }

  /** Frame: nobody stands for election, and a candidate's log changes only in a won term. */
  ghost predicate NobodyStands(s: State, s': State) {
    && s'.nodes.Keys == s.nodes.Keys
    && s'.hist.candidateLogs == s.hist.candidateLogs
    && (forall m :: m in s'.network && m.VoteRequest? ==> m in s.network)
    && (forall k :: k in s'.hist.ballots && !(k in s.hist.ballots && s.hist.ballots[k] == s'.hist.ballots[k]) ==>
          ClaimOk(s, s'.hist.ballots[k].candidate, k.1, s'.hist.ballots[k].lastIndex, s'.hist.ballots[k].lastTerm))
    && (forall n :: n in s.nodes ==>
          && s'.nodes[n].currentTerm >= s.nodes[n].currentTerm
          && (s'.nodes[n].role == Candidate && s'.nodes[n].currentTerm !in s.hist.leaders ==>
                s.nodes[n].role == Candidate && s'.nodes[n].currentTerm == s.nodes[n].currentTerm
                && s'.nodes[n].log == s.nodes[n].log))
    && Extends(s.hist.leaders, s'.hist.leaders) && Grows(s.hist.termLogs, s'.hist.termLogs)
    && (forall t :: t in s'.hist.leaders && t !in s.hist.leaders ==>
          var n := s'.hist.leaders[t];
          n in s.nodes && s.nodes[n].role == Candidate && s.nodes[n].currentTerm == t
          && t in s'.hist.termLogs && s'.hist.termLogs[t] == s.nodes[n].log)
  }

  lemma PrefixTrans(a: Log, b: Log, c: Log)
    requires Prefix(a, b) && Prefix(b, c)
    ensures Prefix(a, c)
  {
    assert c[..|a|] == c[..|b|][..|a|];
  }

  lemma FrameKeepsCandidates(s: State, s': State)
    requires CandidateInv(s) && NobodyStands(s, s')
    ensures CandidateInv(s')
  {
    forall t | t in s'.hist.leaders
      ensures t in s'.hist.termLogs && (s'.hist.leaders[t], t) in s'.hist.candidateLogs
      ensures Prefix(s'.hist.candidateLogs[(s'.hist.leaders[t], t)], s'.hist.termLogs[t])
    {
      if t in s.hist.leaders {
        PrefixTrans(s.hist.candidateLogs[(s.hist.leaders[t], t)], s.hist.termLogs[t], s'.hist.termLogs[t]);
      }
    }
    FrameKeepsClaims(s, s');
  }

  lemma FrameKeepsClaims(s: State, s': State)
    requires ClaimsOk(s) && NobodyStands(s, s')
    ensures ClaimsOk(s')
  {
    forall k | k in s'.hist.ballots
      ensures ClaimOk(s', s'.hist.ballots[k].candidate, k.1, s'.hist.ballots[k].lastIndex, s'.hist.ballots[k].lastTerm)
    {
      if k in s.hist.ballots && s.hist.ballots[k] == s'.hist.ballots[k] {
        assert ClaimOk(s, s.hist.ballots[k].candidate, k.1, s.hist.ballots[k].lastIndex, s.hist.ballots[k].lastTerm);
      }
    }
    forall m | m in s'.network && m.VoteRequest?
      ensures ClaimOk(s', m.src, m.vote.term, m.vote.lastLogIndex, m.vote.lastLogTerm)
    {
      assert ClaimOk(s, m.src, m.vote.term, m.vote.lastLogIndex, m.vote.lastLogTerm);
    }
  }

  /** A node moves to its next term and stands there with its log. */
  ghost predicate Stands(cfg: Config, s: State, s': State, n: NodeId, args: RequestVoteArgs) {
    && n in s.nodes && s'.nodes.Keys == s.nodes.Keys
    && args.term == s.nodes[n].currentTerm + 1 && args.candidateID == n
    && s'.nodes[n].currentTerm == args.term && s'.nodes[n].log == s.nodes[n].log
    && (forall k :: k in s.nodes && k != n ==> s'.nodes[k] == s.nodes[k])
    && (forall m :: m in s'.network && m.VoteRequest? && m !in s.network ==> m.src == n && m.vote == args)
    && s'.hist.candidateLogs == s.hist.candidateLogs[(n, args.term) := s.nodes[n].log]
    && |s.nodes[n].log| > 0 && args.lastLogIndex == |s.nodes[n].log| - 1
    && args.lastLogTerm == s.nodes[n].log[|s.nodes[n].log| - 1].term
    && (forall k :: k in s'.hist.ballots && k != (n, args.term) ==> k in s.hist.ballots && s.hist.ballots[k] == s'.hist.ballots[k])
    && (n, args.term) in s'.hist.ballots
    && s'.hist.ballots[(n, args.term)].candidate == n
    && s'.hist.ballots[(n, args.term)].lastIndex == args.lastLogIndex
    && s'.hist.ballots[(n, args.term)].lastTerm == args.lastLogTerm
    && s'.hist.leaders == s.hist.leaders && s'.hist.termLogs == s.hist.termLogs
  }

  lemma TimeoutStands(cfg: Config, s: State, n: NodeId)
    requires Shape(cfg, s) && NodeLogsOk(s) && Enabled(cfg, s, Timeout(n))
    ensures Stands(cfg, s, TimeoutNext(cfg, s, n), n, StartElection(n, s.nodes[n]).1)
  {
    assert LogOk(s.nodes[n].log, s.nodes[n].currentTerm, s.hist.termLogs);
    CandidateClaims(n, s.nodes[n]);
  }

  lemma CandidateClaims(n: NodeId, st: NodeState)
    requires WellFormed(st.log) && Get(st.log, LastIndex(st.log)).Some?
    ensures var (st', args) := StartElection(n, st);
            && args.term == st'.currentTerm == st.currentTerm + 1 && args.candidateID == n && st'.log == st.log
            && args.lastLogIndex == |st.log| - 1 && args.lastLogTerm == st.log[|st.log| - 1].term
  {
    WellFormedIsContiguous(st.log);
  }

  lemma StandingKeepsClaims(cfg: Config, s: State, s': State, n: NodeId, args: RequestVoteArgs)
    requires ClaimsOk(s) && CandidateLogsOk(s) && Stands(cfg, s, s', n, args)
    ensures ClaimsOk(s')
  {
    forall m | m in s'.network && m.VoteRequest?
      ensures ClaimOk(s', m.src, m.vote.term, m.vote.lastLogIndex, m.vote.lastLogTerm)
    {
      if m in s.network {
        assert ClaimOk(s, m.src, m.vote.term, m.vote.lastLogIndex, m.vote.lastLogTerm);
        assert (m.src, m.vote.term) != (n, args.term);
      }
    }
    forall k | k in s'.hist.ballots
      ensures ClaimOk(s', s'.hist.ballots[k].candidate, k.1, s'.hist.ballots[k].lastIndex, s'.hist.ballots[k].lastTerm)
    {
      if k != (n, args.term) {
        assert ClaimOk(s, s.hist.ballots[k].candidate, k.1, s.hist.ballots[k].lastIndex, s.hist.ballots[k].lastTerm);
        assert (s.hist.ballots[k].candidate, k.1) != (n, args.term);
      }
    }
  }

  lemma StandingKeepsLogs(cfg: Config, s: State, s': State, n: NodeId, args: RequestVoteArgs)
    requires NodeLogsOk(s) && CandidateLogsOk(s) && CandidatesKeepLogs(s) && Stands(cfg, s, s', n, args)
    ensures CandidateLogsOk(s') && CandidatesKeepLogs(s')
  {
    forall k | k in s'.hist.candidateLogs
      ensures k.0 in s'.nodes && k.1 <= s'.nodes[k.0].currentTerm
      ensures |s'.hist.candidateLogs[k]| > 0 && TermsUpTo(s'.hist.candidateLogs[k], k.1 - 1)
    {
      if k != (n, args.term) {
        assert k in s.hist.candidateLogs;
      } else {
        assert LogOk(s.nodes[n].log, s.nodes[n].currentTerm, s.hist.termLogs);
      }
    }
    forall k | k in s'.nodes && s'.nodes[k].role == Candidate && s'.nodes[k].currentTerm !in s'.hist.leaders
      ensures (k, s'.nodes[k].currentTerm) in s'.hist.candidateLogs
      ensures s'.hist.candidateLogs[(k, s'.nodes[k].currentTerm)] == s'.nodes[k].log
    {
      assert k != n ==> (k, s.nodes[k].currentTerm) != (n, args.term);
    }
  }

  lemma StandingKeepsLeaders(cfg: Config, s: State, s': State, n: NodeId, args: RequestVoteArgs)
    requires CandidateLogsOk(s) && LeadersKeepLogs(s) && Stands(cfg, s, s', n, args)
    ensures LeadersKeepLogs(s')
  {
    forall t | t in s'.hist.leaders
      ensures t in s'.hist.termLogs && (s'.hist.leaders[t], t) in s'.hist.candidateLogs
      ensures Prefix(s'.hist.candidateLogs[(s'.hist.leaders[t], t)], s'.hist.termLogs[t])
    {
      assert (s.hist.leaders[t], t) in s.hist.candidateLogs;
      assert (s.hist.leaders[t], t) != (n, args.term);
    }
  }

  lemma StandingKeepsCandidates(cfg: Config, s: State, s': State, n: NodeId, args: RequestVoteArgs)
    requires NodeLogsOk(s) && CandidateInv(s) && Stands(cfg, s, s', n, args)
    ensures CandidateInv(s')
  {
    StandingKeepsClaims(cfg, s, s', n, args);
    StandingKeepsLogs(cfg, s, s', n, args);
    StandingKeepsLeaders(cfg, s, s', n, args);
  }

  lemma VoteRequestStandsNot(cfg: Config, s: State, m: Message)
    requires Enabled(cfg, s, ReceiveVoteRequest(m)) && m.dst in s.nodes
    requires m.vote.candidateID == m.src && ClaimOk(s, m.src, m.vote.term, m.vote.lastLogIndex, m.vote.lastLogTerm)
    ensures NobodyStands(s, VoteRequestNext(s, m))
  {
    VoterStandsNot(s.nodes[m.dst], m.vote);
  }

  lemma VoterStandsNot(st: NodeState, args: RequestVoteArgs)
    ensures var st' := HandleRequestVote(st, args).0;
            && st'.currentTerm >= st.currentTerm && st'.log == st.log
            && (st'.role == Candidate ==> st.role == Candidate && st'.currentTerm == st.currentTerm)
  {}

  lemma VoteResponseStandsNot(cfg: Config, s: State, m: Message)
    requires Enabled(cfg, s, ReceiveVoteResponse(m)) && Shape(cfg, s) && NodeLogsOk(s)
    requires Extends(s.hist.leaders, VoteResponseNext(cfg, s, m).hist.leaders)
    requires Grows(s.hist.termLogs, VoteResponseNext(cfg, s, m).hist.termLogs)
    ensures NobodyStands(s, VoteResponseNext(cfg, s, m))
  {
    var s' := VoteResponseNext(cfg, s, m);
    BallotsUntouched(cfg, s, ReceiveVoteResponse(m));
    VoteResponseReplies(cfg, s, m);
    if Wins(s, s', m) {
      WinStepWinsWithLog(cfg, s, m);
      WinnerStandsNot(cfg, s, s', m.dst);
    } else {
      LostReplyIsSteady(cfg, s, m);
      LoserStandsNot(cfg, s, s', m);
    }
  }

  lemma WinnerStandsNot(cfg: Config, s: State, s': State, n: NodeId)
    requires WinsWithLog(cfg, s, s', n)
    requires s'.hist.ballots == s.hist.ballots && s'.hist.candidateLogs == s.hist.candidateLogs
    requires Extends(s.hist.leaders, s'.hist.leaders) && Grows(s.hist.termLogs, s'.hist.termLogs)
    ensures NobodyStands(s, s')
  {}

  lemma LoserStandsNot(cfg: Config, s: State, s': State, m: Message)
    requires Replies(cfg, s, s', m, false) && SteadyStep(cfg, s, s')
    requires s'.hist.candidateLogs == s.hist.candidateLogs
    ensures NobodyStands(s, s')
  {}

  lemma AppendStandsNot(cfg: Config, s: State, m: Message)
    requires Enabled(cfg, s, ReceiveAppend(m)) && Shape(cfg, s) && LogInv(cfg, s)
    ensures NobodyStands(s, AppendNext(s, m))
  {
    var (st', reply) := HandleAppendEntries(s.nodes[m.dst], m.app);
    AppendAnswers(cfg, s, m);
    BallotsUntouched(cfg, s, ReceiveAppend(m));
    AnswerStandsNot(s, AppendNext(s, m), m, st', reply);
  }

  lemma AnswerStandsNot(s: State, s': State, m: Message, st': NodeState, reply: AppendEntriesReply)
    requires Answers(s, s', m, st', reply)
    requires s'.hist.ballots == s.hist.ballots && s'.hist.candidateLogs == s.hist.candidateLogs
    ensures NobodyStands(s, s')
  {}

  lemma AppendResponseStandsNot(cfg: Config, s: State, m: Message)
    requires Enabled(cfg, s, ReceiveAppendResponse(m)) && m.dst in s.nodes
    ensures NobodyStands(s, AppendResponseNext(cfg, s, m))
  {
    LeaderStandsNot(cfg, m.dst, s.nodes[m.dst], m.src, m.app, m.appReply);
  }

  lemma LeaderStandsNot(cfg: Config, n: NodeId, st: NodeState, peer: NodeId, a: AppendEntriesArgs, reply: AppendEntriesReply)
    requires |st.log| > 0
    ensures var st' := HandleAppendReply(cfg, n, st, peer, a, reply);
            && st'.currentTerm >= st.currentTerm && st'.log == st.log
            && (st'.role == Candidate ==> st.role == Candidate && st'.currentTerm == st.currentTerm)
  {}

  lemma ProposeStandsNot(cfg: Config, s: State, n: NodeId, command: Command)
    requires Enabled(cfg, s, ClientPropose(n, command))
    requires Grows(s.hist.termLogs, ProposeNext(s, n, command).hist.termLogs)
    ensures NobodyStands(s, ProposeNext(s, n, command))
  {}

  lemma SendAppendStandsNot(cfg: Config, s: State, n: NodeId, peer: NodeId)
    requires Enabled(cfg, s, SendAppend(n, peer))
    ensures NobodyStands(s, SendAppendNext(s, n, peer))
  {}

  lemma ApplyStandsNot(cfg: Config, s: State, n: NodeId)
    requires Enabled(cfg, s, Apply(n))
    ensures NobodyStands(s, ApplyNext(s, n))
  {}

  lemma StepStandsNot(cfg: Config, s: State, step: Step)
    requires Enabled(cfg, s, step) && !step.Timeout? && Shape(cfg, s) && ClaimsOk(s)
    requires Extends(s.hist.leaders, Next(cfg, s, step).hist.leaders)
    requires Grows(s.hist.termLogs, Next(cfg, s, step).hist.termLogs)
    requires LogInv(cfg, s)
    ensures NobodyStands(s, Next(cfg, s, step))
  {
    if step.ReceiveVoteRequest? {
      VoteRequestStandsNot(cfg, s, step.m);
    } else if step.ReceiveVoteResponse? {
      VoteResponseStandsNot(cfg, s, step.m);
    } else if step.SendAppend? {
      SendAppendStandsNot(cfg, s, step.n, step.peer);
    } else if step.ReceiveAppend? {
      AppendStandsNot(cfg, s, step.m);
    } else if step.ReceiveAppendResponse? {
      AppendResponseStandsNot(cfg, s, step.m);
    } else if step.ClientPropose? {
      ProposeStandsNot(cfg, s, step.n, step.command);
    } else {
      ApplyStandsNot(cfg, s, step.n);
    }
  }

  lemma StandingStep(cfg: Config, s: State, n: NodeId)
    requires Enabled(cfg, s, Timeout(n)) && Shape(cfg, s) && NodeLogsOk(s) && CandidateInv(s)
    ensures CandidateInv(TimeoutNext(cfg, s, n))
  {
    TimeoutStands(cfg, s, n);
    StandingKeepsCandidates(cfg, s, TimeoutNext(cfg, s, n), n, StartElection(n, s.nodes[n]).1);
  }

  lemma StepKeepsCandidates(cfg: Config, s: State, step: Step)
    requires cfg.Valid() && Inv(cfg, s) && CandidateInv(s) && Enabled(cfg, s, step)
    ensures CandidateInv(Next(cfg, s, step))
  {
    if step.Timeout? {
      StandingStep(cfg, s, step.n);
    } else {
      StepGrows(cfg, s, step);
      StepKeepsWinners(cfg, s, step);
      StepStandsNot(cfg, s, step);
      FrameKeepsCandidates(s, Next(cfg, s, step));
    }
  }

  // ---- The theorem ----

  /** The comparison of section 5.4.1: later last term, or same last term and no shorter log. */
  predicate UpToDate(lastIndex: int, lastTerm: int, voterLog: Log)
    requires |voterLog| > 0
  {
    var mine := voterLog[|voterLog| - 1].term;
    lastTerm > mine || (lastTerm == mine && lastIndex >= |voterLog| - 1)
  }

  /** Every vote cast while its term was still open went to a candidate at least as up to date
      as the voter. The handler does not check this; it is a hypothesis on runs. */
  ghost predicate VotesUpToDate(s: State) {
    forall k :: k in s.hist.ballots && s.hist.ballots[k].open && |s.hist.ballots[k].voterLog| > 0 ==>
      UpToDate(s.hist.ballots[k].lastIndex, s.hist.ballots[k].lastTerm, s.hist.ballots[k].voterLog)
  }

  ghost predicate CarryInv(cfg: Config, s: State) {
    && FullInv(cfg, s) && CandidateInv(s)
    && NodesCarry(s) && BallotsCarry(s) && BallotLogsOk(s)
  }

  lemma TermsAscend(log: Log, E: TermLogs, i: int, j: int)
    requires Sound(log, E) && 0 <= i <= j < |log|
    requires forall t :: t in E ==> TermsUpTo(E[t], t)
    ensures log[i].term <= log[j].term
  {
    var t := log[j].term;
    assert Agree(log, E[t], j);
    AgreeDown(log, E[t], j, i);
  }

  /** One voter's log with the prefix, one candidate at least as up to date: the candidate has
      the prefix too, provided all leaders in between do. */
  lemma UpToDateHasPrefix(E: TermLogs, voterLog: Log, candidateLog: Log, t: int, x: int)
    requires forall u :: u in E ==> TermsUpTo(E[u], u)
    requires t in E && 0 <= x < |E[t]| && E[t][x].term == t
    requires |voterLog| > 0 && Sound(voterLog, E) && Agree(voterLog, E[t], x)
    requires |candidateLog| > 0 && Sound(candidateLog, E)
    requires UpToDate(|candidateLog| - 1, candidateLog[|candidateLog| - 1].term, voterLog)
    requires var u := candidateLog[|candidateLog| - 1].term; u > t ==> u in E && Agree(E[u], E[t], x)
    ensures Agree(candidateLog, E[t], x)
  {
    var last := |candidateLog| - 1;
    var u := candidateLog[last].term;
    AgreeDown(voterLog, E[t], x, x);
    TermsAscend(voterLog, E, x, |voterLog| - 1);
    assert Agree(candidateLog, E[u], last);
    if u == t {
      AgreeDown(candidateLog, E[t], last, x);
    } else {
      LaterEndIsBehind(E, candidateLog, t, u, x);
      AgreeDown(candidateLog, E[u], last, x);
      AgreeTrans(candidateLog, E[u], E[t], x);
    }
  }

  /** A log ending in a later term's entry reaches past a prefix that this term's leader holds
      from an earlier term. */
  lemma LaterEndIsBehind(E: TermLogs, log: Log, t: int, u: int, x: int)
    requires t in E && u in E && u > t && TermsUpTo(E[t], t) && Agree(E[u], E[t], x)
    requires |log| > 0 && Agree(log, E[u], |log| - 1) && log[|log| - 1].term == u
    ensures x < |log|
  {
    if |log| - 1 < x {
      AgreeDown(E[u], E[t], x, |log| - 1);
    }
  }

  /** The leader of term w has the log of term c.0 through index c.1. */
  ghost predicate HasChosen(s: State, w: int, c: (int, int)) {
    w in s.hist.termLogs && c.0 in s.hist.termLogs && Agree(s.hist.termLogs[w], s.hist.termLogs[c.0], c.1)
  }

  /** A member both of the majority behind the choice and of the one behind the election. */
  lemma CommonVoter(cfg: Config, s: State, c: (int, int), u: int) returns (p: NodeId)
    requires cfg.Valid() && LeadersHaveMajorities(cfg, s) && CommitsAreBacked(cfg, s)
    requires c in s.hist.commits && u in s.hist.leaders
    ensures Acked(s, p, c.0, c.1) && VotedFor(s, p, u, s.hist.leaders[u]) && s.hist.ballots[(p, u)].open
  {
    p := MajoritiesMeet(cfg, Backers(cfg, s, c.0, c.1), Supporters(cfg, s, u));
  }

  /** What the argument needs to know about the recorded history. */
  ghost predicate ChoiceInv(cfg: Config, s: State) {
    && LeadersHaveMajorities(cfg, s) && CommitsAreBacked(cfg, s) && TermLogsOk(s)
    && BallotsCarry(s) && BallotLogsOk(s) && CandidateInv(s) && VotesUpToDate(s)
  }

  lemma CarryGivesChoice(cfg: Config, s: State)
    requires CarryInv(cfg, s) && VotesUpToDate(s)
    ensures ChoiceInv(cfg, s)
  {}

  /** Leader Completeness: every leader of a later term has the chosen prefix. */
  lemma {:induction false} ChosenInLaterLeaders(cfg: Config, s: State, c: (int, int), u: int)
    requires cfg.Valid() && ChoiceInv(cfg, s)
    requires c in s.hist.commits && u in s.hist.leaders && c.0 < u
    ensures HasChosen(s, u, c)
    decreases u - c.0
  {
    var p := CommonVoter(cfg, s, c, u);
    if exists w :: w in s.hist.leaders && c.0 < w < u && !HasChosen(s, w, c) {
      var w :| w in s.hist.leaders && c.0 < w < u && !HasChosen(s, w, c);
      ChosenInLaterLeaders(cfg, s, c, w);
    }
    WinnerHasChosen(cfg, s, c, u, p);
  }

  lemma VoterHadChosen(cfg: Config, s: State, c: (int, int), u: int, p: NodeId)
    requires TermLogsOk(s) && BallotsCarry(s) && CommitsAreBacked(cfg, s) && c in s.hist.commits
    requires c.0 < u && Acked(s, p, c.0, c.1) && (p, u) in s.hist.ballots && s.hist.ballots[(p, u)].open
    requires forall w :: w in s.hist.leaders && c.0 < w < u ==> HasChosen(s, w, c)
    ensures Agree(s.hist.ballots[(p, u)].voterLog, s.hist.termLogs[c.0], c.1)
  {
    assert BallotCarries(s, p, u, c.0, c.1);
  }

  lemma WinnerHasChosen(cfg: Config, s: State, c: (int, int), u: int, p: NodeId)
    requires TermLogsOk(s) && BallotsCarry(s) && BallotLogsOk(s) && CandidateInv(s) && CommitsAreBacked(cfg, s)
    requires VotesUpToDate(s) && c in s.hist.commits && u in s.hist.leaders && c.0 < u
    requires Acked(s, p, c.0, c.1) && VotedFor(s, p, u, s.hist.leaders[u]) && s.hist.ballots[(p, u)].open
    requires forall w :: w in s.hist.leaders && c.0 < w < u ==> HasChosen(s, w, c)
    ensures HasChosen(s, u, c)
  {
    var E := s.hist.termLogs;
    var b := s.hist.ballots[(p, u)];
    var candidateLog := s.hist.candidateLogs[(s.hist.leaders[u], u)];
    VoterHadChosen(cfg, s, c, u, p);
    assert ClaimOk(s, b.candidate, u, b.lastIndex, b.lastTerm);
    PrefixSound(candidateLog, E[u], E);
    CandidateTermOk(s, u, candidateLog);
    var last := candidateLog[|candidateLog| - 1].term;
    if last > c.0 { assert HasChosen(s, last, c); }
    UpToDateHasPrefix(E, b.voterLog, candidateLog, c.0, c.1);
    AgreeGrows(candidateLog, E[u], E[c.0], E[c.0], c.1);
  }

  lemma PrefixSound(a: Log, b: Log, E: TermLogs)
    requires Prefix(a, b) && Sound(b, E)
    ensures Sound(a, E)
  {
    forall i | 0 <= i < |a| ensures a[i].term in E && Agree(a, E[a[i].term], i) {
      assert b[..|a|][i] == b[i];
      assert Agree(b, E[b[i].term], i);
      assert a[..i + 1] == b[..|a|][..i + 1] == b[..i + 1];
    }
  }

  /** A winner's own log, before its term, ends in an earlier term that was itself won. */
  lemma CandidateTermOk(s: State, u: int, candidateLog: Log)
    requires TermLogsOk(s) && CandidateLogsOk(s) && u in s.hist.leaders
    requires (s.hist.leaders[u], u) in s.hist.candidateLogs && candidateLog == s.hist.candidateLogs[(s.hist.leaders[u], u)]
    requires Sound(candidateLog, s.hist.termLogs)
    ensures |candidateLog| > 0
    ensures var last := candidateLog[|candidateLog| - 1].term;
            last < u && last in s.hist.termLogs && (last > 0 ==> last in s.hist.leaders)
  {
    var last := |candidateLog| - 1;
    assert candidateLog[last].term <= u - 1;
  }

  /** Every leader of the term of a choice or of a later term has the chosen prefix. */
  ghost predicate LeadersComplete(s: State) {
    forall c, u :: c in s.hist.commits && u in s.hist.leaders && c.0 <= u ==> HasChosen(s, u, c)
  }

  lemma ChosenInOwnTerm(cfg: Config, s: State, c: (int, int), u: int)
    requires c in s.hist.commits && u == c.0 && CommitsAreBacked(cfg, s)
    ensures HasChosen(s, u, c)
  {
    assert Backed(cfg, s, c);
  }

  lemma ChosenInLeaders(cfg: Config, s: State, c: (int, int), u: int)
    requires cfg.Valid() && ChoiceInv(cfg, s)
    requires c in s.hist.commits && u in s.hist.leaders && c.0 <= u
    ensures HasChosen(s, u, c)
  {
    if c.0 < u {
      ChosenInLaterLeaders(cfg, s, c, u);
    } else {
      ChosenInOwnTerm(cfg, s, c, u);
    }
  }

  /** Leader Completeness, from the recorded history of a reachable state. */
  lemma LeadersAreComplete(cfg: Config, s: State)
    requires cfg.Valid() && ChoiceInv(cfg, s)
    ensures LeadersComplete(s)
  {
    forall c, u | c in s.hist.commits && u in s.hist.leaders && c.0 <= u ensures HasChosen(s, u, c) {
      ChosenInLeaders(cfg, s, c, u);
    }
  }
}
