/** The election from the candidate's side: its counter is exact, and nobody stays a candidate
    with more than half of the votes in hand. */
module Elections {
  import opened RaftLog
  import opened RaftNode
  import opened Cluster
  import opened ElectionSafety

  /** The majority test is that of more than half, for every number of peers. */
  lemma MajorityIsHalf(cfg: Config, n: int)
    ensures cfg.Majority(n) <==> 2 * n > |cfg.peers|
  {}

  /** A step by which n receives a vote for the term. */
  predicate GrantTo(step: Step, n: NodeId, term: int) {
    step.ReceiveVoteResponse? && step.m.VoteResponse? && step.m.dst == n && step.m.reqTerm == term
    && step.m.voteReply.voteGranted
  }

  function Grants(steps: seq<Step>, n: NodeId, term: int): nat
    decreases |steps|
  {
    if steps == [] then 0
    else Grants(steps[..|steps| - 1], n, term) + if GrantTo(steps[|steps| - 1], n, term) then 1 else 0
  }

  lemma GrantsSnoc(steps: seq<Step>, i: nat, n: NodeId, term: int)
    requires i < |steps|
    ensures Grants(steps[..i + 1], n, term) == Grants(steps[..i], n, term) + if GrantTo(steps[i], n, term) then 1 else 0
  {
    assert steps[..i + 1][..i] == steps[..i];
  }

  // ---- One step ----

  /** A vote granted carries the term it was asked for. */
  ghost predicate GrantsCarryTerm(s: State) {
    forall m :: m in s.network && m.VoteResponse? && m.voteReply.voteGranted ==> m.voteReply.term == m.reqTerm
  }

  ghost predicate CountingInv(cfg: Config, s: State) {
    ElectionInv(cfg, s) && GrantsCarryTerm(s)
  }

  lemma RequestKeepsGrants(s: State, m: Message)
    requires m.VoteRequest? && Ready(s, m.dst) && GrantsCarryTerm(s)
    ensures GrantsCarryTerm(VoteRequestNext(s, m))
  {}

  lemma OthersSendNoVote(cfg: Config, s: State, step: Step)
    requires Enabled(cfg, s, step) && !step.ReceiveVoteRequest?
    ensures forall m :: m in Next(cfg, s, step).network && m.VoteResponse? ==> m in s.network
  {}

  lemma TransitionKeepsCounting(cfg: Config, s: State, step: Step, s': State)
    requires cfg.Valid() && CountingInv(cfg, s) && Transition(cfg, s, step, s')
    ensures CountingInv(cfg, s')
  {
    StepKeepsElection(cfg, s, step);
    if step.ReceiveVoteRequest? {
      RequestKeepsGrants(s, step.m);
    } else {
      OthersSendNoVote(cfg, s, step);
    }
  }

  /** Whoever is a candidate after a step that is not its own timeout was one before, in the same
      term, and has counted the vote the step brought it, if it brought one. */
  ghost predicate Counts(cfg: Config, s: State, step: Step, s': State, n: NodeId) {
    && n in s.nodes && n in s'.nodes && s.nodes[n].role == Candidate && s'.nodes[n].currentTerm == s.nodes[n].currentTerm
    && s'.nodes[n].votes == s.nodes[n].votes + (if GrantTo(step, n, s.nodes[n].currentTerm) then 1 else 0)
  }

  lemma QuietCounts(cfg: Config, s: State, step: Step, n: NodeId)
    requires Enabled(cfg, s, step) && IsQuiet(step) && n in s.nodes
    ensures var s' := Next(cfg, s, step);
            n in s'.nodes && (s'.nodes[n].role == Candidate ==> Counts(cfg, s, step, s', n))
  {
    QuietSteps(cfg, s, step);
    assert QuietNode(s.nodes[n], Next(cfg, s, step).nodes[n]);
  }

  lemma VoterCounts(cfg: Config, s: State, m: Message, n: NodeId)
    requires Enabled(cfg, s, ReceiveVoteRequest(m)) && n in s.nodes
    ensures var s' := VoteRequestNext(s, m);
            n in s'.nodes && (s'.nodes[n].role == Candidate ==> Counts(cfg, s, ReceiveVoteRequest(m), s', n))
  {}

  lemma ReplyCounts(cfg: Config, s: State, m: Message, n: NodeId)
    requires Shape(cfg, s) && GrantsCarryTerm(s) && Enabled(cfg, s, ReceiveVoteResponse(m)) && n in s.nodes
    ensures var s' := VoteResponseNext(cfg, s, m);
            n in s'.nodes && (s'.nodes[n].role == Candidate ==> Counts(cfg, s, ReceiveVoteResponse(m), s', n))
  {
    if m.dst == n { CounterMoves(cfg, n, s.nodes[n], m.reqTerm, m.voteReply); }
  }

  lemma CounterMoves(cfg: Config, n: NodeId, st: NodeState, reqTerm: int, reply: RequestVoteReply)
    requires |st.log| > 0 && (reply.voteGranted ==> reply.term == reqTerm)
    ensures var st' := HandleVoteReply(cfg, n, st, reqTerm, reply);
            st'.role == Candidate ==>
              && st.role == Candidate && st'.currentTerm == st.currentTerm
              && st'.votes == st.votes + (if reqTerm == st.currentTerm && reply.voteGranted then 1 else 0)
  {}

  lemma StepCounts(cfg: Config, s: State, step: Step, s': State, n: NodeId)
    requires CountingInv(cfg, s) && Transition(cfg, s, step, s') && n in s.nodes && step != Timeout(n)
    ensures n in s'.nodes && (s'.nodes[n].role == Candidate ==> Counts(cfg, s, step, s', n))
  {
    if IsQuiet(step) {
      QuietCounts(cfg, s, step, n);
    } else if step.ReceiveVoteRequest? {
      VoterCounts(cfg, s, step.m, n);
    } else if step.ReceiveVoteResponse? {
      ReplyCounts(cfg, s, step.m, n);
    }
  }

  lemma TimeoutCounts(cfg: Config, s: State, n: NodeId)
    requires Enabled(cfg, s, Timeout(n))
    ensures var st, st' := s.nodes[n], TimeoutNext(cfg, s, n).nodes[n];
            st'.role == Candidate && st'.currentTerm == st.currentTerm + 1 && st'.votes == 1
  {}

  // ---- Over runs ----

  ghost function CountingOf(cfg: Config): State -> bool {
    s => CountingInv(cfg, s)
  }

  lemma CountingIsKept(cfg: Config)
    requires cfg.Valid()
    ensures CountingOf(cfg)(Init(cfg)) && KeptByAll(cfg, CountingOf(cfg))
  {
    InitElection(cfg);
    forall s, step, s' | CountingInv(cfg, s) && Transition(cfg, s, step, s') ensures CountingInv(cfg, s') {
      TransitionKeepsCounting(cfg, s, step, s');
    }
  }

  /** All that a step means for the candidacy of n. */
  ghost predicate Candidacy(cfg: Config, s: State, step: Step, s': State, n: NodeId) {
    && (n in s'.nodes ==> n in s.nodes && s'.nodes[n].currentTerm >= s.nodes[n].currentTerm)
    && (n in s.nodes ==> forall term :: GrantTo(step, n, term) ==> term <= s.nodes[n].currentTerm)
    && (n in s'.nodes && s'.nodes[n].role == Candidate ==>
          if step == Timeout(n) then s'.nodes[n].currentTerm == s.nodes[n].currentTerm + 1 && s'.nodes[n].votes == 1
          else Counts(cfg, s, step, s', n))
  }

  lemma TermsRise(cfg: Config, s: State, step: Step, s': State, n: NodeId)
    requires Transition(cfg, s, step, s') && n in s'.nodes
    ensures n in s.nodes && s'.nodes[n].currentTerm >= s.nodes[n].currentTerm
  {}

  /** A vote comes in only for a term the candidate has reached. */
  lemma GrantIsNotEarly(cfg: Config, s: State, step: Step, n: NodeId, term: int)
    requires CallsAreCurrent(cfg, s) && Enabled(cfg, s, step) && n in s.nodes && GrantTo(step, n, term)
    ensures term <= s.nodes[n].currentTerm
  {
    assert (n, term, step.m.src) in s.calls;
  }

  lemma TransitionCandidacy(cfg: Config, s: State, step: Step, s': State, n: NodeId)
    requires CountingInv(cfg, s) && Transition(cfg, s, step, s')
    ensures Candidacy(cfg, s, step, s', n)
  {
    if n in s'.nodes {
      TermsRise(cfg, s, step, s', n);
      if step == Timeout(n) { TimeoutCounts(cfg, s, n); } else { StepCounts(cfg, s, step, s', n); }
    }
    if n in s.nodes {
      forall term | GrantTo(step, n, term) ensures term <= s.nodes[n].currentTerm {
        GrantIsNotEarly(cfg, s, step, n, term);
      }
    }
  }

  lemma RunCandidacy(cfg: Config, b: seq<State>, steps: seq<Step>, i: nat, n: NodeId)
    requires cfg.Valid() && Run(cfg, b, steps) && 0 < i < |b|
    ensures Candidacy(cfg, b[i - 1], steps[i - 1], b[i], n)
  {
    CountingIsKept(cfg);
    forall s, step, s' | CountingInv(cfg, s) && Transition(cfg, s, step, s') ensures Candidacy(cfg, s, step, s', n) {
      TransitionCandidacy(cfg, s, step, s', n);
    }
    EachStep(cfg, CountingOf(cfg), (s: State, step: Step, s': State) => Candidacy(cfg, s, step, s', n), b, steps, i);
  }

  lemma {:induction false} NoVotesYet(cfg: Config, b: seq<State>, steps: seq<Step>, i: nat, n: NodeId, term: int)
    requires cfg.Valid() && Run(cfg, b, steps) && i < |b| && n in b[i].nodes && term > b[i].nodes[n].currentTerm
    ensures Grants(steps[..i], n, term) == 0
  {
    if i > 0 {
      RunCandidacy(cfg, b, steps, i, n);
      NoVotesYet(cfg, b, steps, i - 1, n, term);
      GrantsSnoc(steps, i - 1, n, term);
    }
  }

  /** The counter of a candidate over one step of a run. */
  lemma CounterMovesBy(cfg: Config, b: seq<State>, steps: seq<Step>, i: nat, n: NodeId)
    requires cfg.Valid() && Run(cfg, b, steps) && 0 < i < |b| && n in b[i].nodes && b[i].nodes[n].role == Candidate
    ensures n in b[i - 1].nodes
    ensures var st, st' := b[i - 1].nodes[n], b[i].nodes[n];
            if steps[i - 1] == Timeout(n) then st'.currentTerm == st.currentTerm + 1 && st'.votes == 1
            else
              && st.role == Candidate && st'.currentTerm == st.currentTerm
              && st'.votes == st.votes + (if GrantTo(steps[i - 1], n, st.currentTerm) then 1 else 0)
  {
    RunCandidacy(cfg, b, steps, i, n);
  }

  /** At every moment of every run a candidate has counted its own vote and each one it was sent
      in its term, no more and no less. */
  lemma {:induction false} CountIsExact(cfg: Config, b: seq<State>, steps: seq<Step>, i: nat, n: NodeId)
    requires cfg.Valid() && Run(cfg, b, steps) && i < |b| && n in b[i].nodes && b[i].nodes[n].role == Candidate
    ensures b[i].nodes[n].votes == 1 + Grants(steps[..i], n, b[i].nodes[n].currentTerm)
  {
    if i > 0 {
      CounterMovesBy(cfg, b, steps, i, n);
      GrantsSnoc(steps, i - 1, n, b[i].nodes[n].currentTerm);
      if steps[i - 1] == Timeout(n) {
        NoVotesYet(cfg, b, steps, i - 1, n, b[i].nodes[n].currentTerm);
      } else {
        CountIsExact(cfg, b, steps, i - 1, n);
      }
    }
  }

  // ---- The threshold ----

  ghost predicate StillShort(cfg: Config, s: State) {
    forall n :: n in s.nodes && s.nodes[n].role == Candidate ==> 2 * s.nodes[n].votes <= |cfg.peers|
  }

  lemma CounterStaysShort(cfg: Config, n: NodeId, st: NodeState, reqTerm: int, reply: RequestVoteReply)
    requires |st.log| > 0 && (st.role == Candidate ==> 2 * st.votes <= |cfg.peers|)
    ensures var st' := HandleVoteReply(cfg, n, st, reqTerm, reply); st'.role == Candidate ==> 2 * st'.votes <= |cfg.peers|
  {}

  lemma TransitionKeepsShort(cfg: Config, s: State, step: Step, s': State)
    requires |cfg.peers| >= 2 && CountingInv(cfg, s) && StillShort(cfg, s) && Transition(cfg, s, step, s')
    ensures StillShort(cfg, s')
  {
    ShapeKept(cfg, s, step);
    forall n | n in s'.nodes && s'.nodes[n].role == Candidate ensures 2 * s'.nodes[n].votes <= |cfg.peers| {
      NodeStaysShort(cfg, s, step, s', n);
    }
  }

  lemma NodeStaysShort(cfg: Config, s: State, step: Step, s': State, n: NodeId)
    requires |cfg.peers| >= 2 && CountingInv(cfg, s) && StillShort(cfg, s) && Transition(cfg, s, step, s')
    requires n in s.nodes && n in s'.nodes && s'.nodes[n].role == Candidate
    ensures 2 * s'.nodes[n].votes <= |cfg.peers|
  {
    if step == Timeout(n) {
      TimeoutCounts(cfg, s, n);
    } else {
      StepCounts(cfg, s, step, s', n);
      if GrantTo(step, n, s.nodes[n].currentTerm) {
        CounterStaysShort(cfg, n, s.nodes[n], step.m.reqTerm, step.m.voteReply);
      }
    }
  }

  lemma RunKeepsShort(cfg: Config, b: seq<State>, steps: seq<Step>, i: nat)
    requires cfg.Valid() && |cfg.peers| >= 2 && Run(cfg, b, steps) && i < |b|
    ensures StillShort(cfg, b[i])
  {
    InitElection(cfg);
    forall s, step, s' | CountingInv(cfg, s) && StillShort(cfg, s) && Transition(cfg, s, step, s')
      ensures CountingInv(cfg, s') && StillShort(cfg, s')
    {
      TransitionKeepsCounting(cfg, s, step, s');
      TransitionKeepsShort(cfg, s, step, s');
    }
    AlongRun(cfg, s => CountingInv(cfg, s) && StillShort(cfg, s), b, steps, i);
  }

  /** Among two or more peers nobody stays a candidate once its own vote and those it was sent in
      its term are more than half: on every reachable state, whoever still is one has not got
      them. */
  lemma CandidateLacksMajority(cfg: Config, b: seq<State>, steps: seq<Step>, i: nat, n: NodeId)
    requires cfg.Valid() && |cfg.peers| >= 2 && Run(cfg, b, steps) && i < |b|
    requires n in b[i].nodes && b[i].nodes[n].role == Candidate
    ensures 2 * (1 + Grants(steps[..i], n, b[i].nodes[n].currentTerm)) <= |cfg.peers|
  {
    CountIsExact(cfg, b, steps, i, n);
    RunKeepsShort(cfg, b, steps, i);
  }

  /** Whoever leads was given the votes of its term by more than half of the peers. */
  lemma LeaderWasElected(cfg: Config, b: seq<State>, steps: seq<Step>, i: nat, n: NodeId) returns (voters: set<NodeId>)
    requires cfg.Valid() && Run(cfg, b, steps) && i < |b| && n in b[i].nodes && b[i].nodes[n].role == Leader
    ensures voters <= cfg.Ids() && 2 * |voters| > |cfg.peers|
    ensures forall p :: p in voters ==> VotedFor(b[i], p, b[i].nodes[n].currentTerm, n)
  {
    RunKeepsElection(cfg, b, steps, i);
    voters := Supporters(cfg, b[i], b[i].nodes[n].currentTerm);
  }

  /** A node that is its own only peer holds a majority from the start and is never elected, since
      the test is made on replies alone. */
  lemma SingleNodeNeverLeads(cfg: Config, b: seq<State>, steps: seq<Step>, i: nat, n: NodeId)
    requires cfg.Valid() && |cfg.peers| == 1 && Run(cfg, b, steps) && i < |b| && n in b[i].nodes
    ensures b[i].nodes[n].role != Leader
  {
    InitElection(cfg);
    forall s, step, s' | ElectionInv(cfg, s) && NoLeader(s) && Transition(cfg, s, step, s')
      ensures ElectionInv(cfg, s') && NoLeader(s')
    {
      TransitionKeepsElection(cfg, s, step, s');
      AloneNobodyWins(cfg, s, step, s');
    }
    AlongRun(cfg, s => ElectionInv(cfg, s) && NoLeader(s), b, steps, i);
  }

  ghost predicate NoLeader(s: State) {
    forall n :: n in s.nodes ==> s.nodes[n].role != Leader
  }

  lemma OnlyPeer(cfg: Config, p: NodeId, q: NodeId)
    requires |cfg.peers| == 1 && p in cfg.peers && q in cfg.peers
    ensures p == q
  {}

  lemma AloneNoMessages(cfg: Config, s: State)
    requires |cfg.peers| == 1 && Shape(cfg, s)
    ensures s.network == {}
  {
    forall m ensures m !in s.network {
      if m in s.network { OnlyPeer(cfg, m.src, m.dst); }
    }
  }

  lemma AloneNobodyWins(cfg: Config, s: State, step: Step, s': State)
    requires |cfg.peers| == 1 && Shape(cfg, s) && NoLeader(s) && Transition(cfg, s, step, s')
    ensures NoLeader(s')
  {
    AloneNoMessages(cfg, s);
    if IsQuiet(step) {
      QuietSteps(cfg, s, step);
      forall n | n in s'.nodes ensures s'.nodes[n].role != Leader {
        assert QuietNode(s.nodes[n], s'.nodes[n]);
      }
    }
  }
}
