/** No reachable state is a dead end: any majority that can talk among itself can elect, commit and
    deliver, whatever came before. */
module Availability {
  import opened RaftLog
  import opened RaftNode
  import opened AppendMerge
  import opened Cluster
  import opened ElectionSafety
  import opened LogMatching
  import opened CommitQuorum
  import opened CommitProgress
  import opened LogRepair
  import Delivery
  import opened StepRules

  // ---- Paths among some of the nodes ----

  /** The step is taken by a node of q, on a message from a node of q if on any. */
  predicate Within(step: Step, q: set<NodeId>) {
    match step
    case Timeout(n) => n in q
    case SendAppend(n, peer) => n in q && peer in q
    case ClientPropose(n, _) => n in q
    case Apply(n) => n in q
    case ReceiveVoteRequest(m) => m.src in q && m.dst in q
    case ReceiveVoteResponse(m) => m.src in q && m.dst in q
    case ReceiveAppend(m) => m.src in q && m.dst in q
    case ReceiveAppendResponse(m) => m.src in q && m.dst in q
  }

  ghost predicate Path(cfg: Config, q: set<NodeId>, b: seq<State>, steps: seq<Step>) {
    && |b| == |steps| + 1
    && forall i :: 0 <= i < |steps| ==> Within(steps[i], q) && Transition(cfg, b[i], steps[i], b[i + 1])
  }

  ghost predicate Reaches(cfg: Config, q: set<NodeId>, s: State, s': State) {
    exists b, steps :: Path(cfg, q, b, steps) && b[0] == s && b[|steps|] == s'
  }

  lemma StepReaches(cfg: Config, q: set<NodeId>, s: State, step: Step)
    requires Enabled(cfg, s, step) && Within(step, q)
    ensures Reaches(cfg, q, s, Next(cfg, s, step))
  {
    assert Path(cfg, q, [s, Next(cfg, s, step)], [step]);
  }

  lemma SelfReaches(cfg: Config, q: set<NodeId>, s: State)
    ensures Reaches(cfg, q, s, s)
  {
    assert Path(cfg, q, [s], []);
  }

  lemma PathsJoin(cfg: Config, q: set<NodeId>, b: seq<State>, steps: seq<Step>, c: seq<State>, more: seq<Step>)
    requires Path(cfg, q, b, steps) && Path(cfg, q, c, more) && b[|steps|] == c[0]
    ensures Path(cfg, q, b + c[1..], steps + more) && (b + c[1..])[0] == b[0] && (b + c[1..])[|steps + more|] == c[|more|]
  {
    var all, acts := b + c[1..], steps + more;
    forall i | 0 <= i < |acts| ensures Within(acts[i], q) && Transition(cfg, all[i], acts[i], all[i + 1]) {
      if i < |steps| {
        assert Transition(cfg, b[i], steps[i], b[i + 1]);
      } else {
        assert Transition(cfg, c[i - |steps|], more[i - |steps|], c[i - |steps| + 1]);
      }
    }
  }

  lemma ReachesTrans(cfg: Config, q: set<NodeId>, s: State, s1: State, s2: State)
    requires Reaches(cfg, q, s, s1) && Reaches(cfg, q, s1, s2)
    ensures Reaches(cfg, q, s, s2)
  {
    var b, steps :| Path(cfg, q, b, steps) && b[0] == s && b[|steps|] == s1;
    var c, more :| Path(cfg, q, c, more) && c[0] == s1 && c[|more|] == s2;
    PathsJoin(cfg, q, b, steps, c, more);
  }

  /** Some run gets there. */
  ghost predicate Reachable(cfg: Config, s: State) {
    exists b, steps :: Run(cfg, b, steps) && b[|steps|] == s
  }

  lemma StepIsReachable(cfg: Config, s: State, step: Step)
    requires Reachable(cfg, s) && Enabled(cfg, s, step)
    ensures Reachable(cfg, Next(cfg, s, step))
  {
    var b, steps :| Run(cfg, b, steps) && b[|steps|] == s;
    RunSnoc(cfg, b, steps, step, Next(cfg, s, step));
  }

  lemma RunSnoc(cfg: Config, b: seq<State>, steps: seq<Step>, step: Step, s': State)
    requires Run(cfg, b, steps) && Transition(cfg, b[|steps|], step, s')
    ensures Run(cfg, b + [s'], steps + [step]) && (b + [s'])[|steps + [step]|] == s'
  {
    var all, every := b + [s'], steps + [step];
    forall i | 0 <= i < |every| ensures Transition(cfg, all[i], every[i], all[i + 1]) {
      if i < |steps| { assert Transition(cfg, b[i], steps[i], b[i + 1]); }
    }
  }

  lemma MomentIsReachable(cfg: Config, b: seq<State>, steps: seq<Step>, i: nat)
    requires Run(cfg, b, steps) && i < |b|
    ensures Reachable(cfg, b[i])
  {
    var c, some := b[..i + 1], steps[..i];
    forall k | 0 <= k < |some| ensures Transition(cfg, c[k], some[k], c[k + 1]) {
      assert Transition(cfg, b[k], steps[k], b[k + 1]);
    }
    assert Run(cfg, c, some) && c[|some|] == b[i];
  }

  lemma ReachableIsFull(cfg: Config, s: State)
    requires cfg.Valid() && Reachable(cfg, s)
    ensures FullInv(cfg, s)
  {
    var b, steps :| Run(cfg, b, steps) && b[|steps|] == s;
    RunKeepsFull(cfg, b, steps, |steps|);
  }

  lemma ReachableIsReady(cfg: Config, s: State, n: NodeId)
    requires cfg.Valid() && Reachable(cfg, s) && n in cfg.Ids()
    ensures n in s.nodes && WellFormed(s.nodes[n].log) && Ready(s, n) && s.nodes[n].lastApplied >= 0
  {
    var b, steps :| Run(cfg, b, steps) && b[|steps|] == s;
    RunKeepsFull(cfg, b, steps, |steps|);
    Delivery.RunDelivers(cfg, b, steps, |steps|, n);
    WellFormedIsContiguous(s.nodes[n].log);
  }

  // ---- Electing ----

  /** Nobody in q is ahead of the term. */
  ghost predicate NoneAhead(s: State, q: set<NodeId>, term: int) {
    forall p :: p in q ==> p in s.nodes && s.nodes[p].currentTerm <= term
  }

  /** What an election leaves of a node but its term and role. */
  predicate SameWork(st: NodeState, st': NodeState) {
    st'.log == st.log && st'.commitIndex == st.commitIndex && st'.lastApplied == st.lastApplied
  }

  /** The election of n for the term, with the peers in r still to be asked. */
  ghost predicate Gathering(cfg: Config, q: set<NodeId>, s: State, n: NodeId, args: RequestVoteArgs, r: set<NodeId>) {
    && n in q && n in s.nodes && s.nodes[n].currentTerm == args.term && args.candidateID == n
    && NoneAhead(s, q, args.term)
    && r <= q && n !in r
    && (forall p :: p in r ==>
          s.nodes[p].currentTerm < args.term && VoteRequest(n, p, args) in s.network && (n, args.term, p) in s.calls)
    && (s.nodes[n].role == Leader
        || (s.nodes[n].role == Candidate && s.nodes[n].votes + |r| >= |q| && 2 * s.nodes[n].votes <= |cfg.peers|))
  }

  /** The peer grants its vote, since the term is new to it. */
  lemma PeerVotes(cfg: Config, q: set<NodeId>, s: State, n: NodeId, args: RequestVoteArgs, r: set<NodeId>, p: NodeId)
    returns (s1: State)
    requires cfg.Valid() && |cfg.peers| >= 2 && Reachable(cfg, s) && q <= cfg.Ids()
    requires Gathering(cfg, q, s, n, args, r) && p in r
    ensures Reaches(cfg, q, s, s1) && Reachable(cfg, s1) && PeerVoted(s, s1, n, p, args.term)
  {
    var m := VoteRequest(n, p, args);
    ReachableIsReady(cfg, s, p);
    s1 := VoteRequestNext(s, m);
    StepReaches(cfg, q, s, ReceiveVoteRequest(m));
    StepIsReachable(cfg, s, ReceiveVoteRequest(m));
    LateVoterGrants(s, m);
  }

  ghost predicate PeerVoted(s: State, s1: State, n: NodeId, p: NodeId, term: int) {
    && s1.network == s.network + {VoteResponse(p, n, term, RequestVoteReply(term, true))}
    && s1.calls == s.calls && s1.delivered == s.delivered
    && (forall k :: k != p && k in s.nodes ==> k in s1.nodes && s1.nodes[k] == s.nodes[k])
    && p in s1.nodes && s1.nodes[p].currentTerm == term
  }

  /** One peer is asked and answers. */
  lemma AskOne(cfg: Config, q: set<NodeId>, s: State, n: NodeId, args: RequestVoteArgs, r: set<NodeId>, p: NodeId)
    returns (s': State)
    requires cfg.Valid() && |cfg.peers| >= 2 && Reachable(cfg, s) && q <= cfg.Ids()
    requires Gathering(cfg, q, s, n, args, r) && p in r
    ensures Reaches(cfg, q, s, s') && Reachable(cfg, s') && Gathering(cfg, q, s', n, args, r - {p})
    ensures SameWork(s.nodes[n], s'.nodes[n]) && s'.delivered == s.delivered
  {
    var s1 := PeerVotes(cfg, q, s, n, args, r, p);
    var a := VoteResponse(p, n, args.term, RequestVoteReply(args.term, true));
    ReachableIsReady(cfg, s1, n);
    s' := VoteResponseNext(cfg, s1, a);
    StepReaches(cfg, q, s1, ReceiveVoteResponse(a));
    StepIsReachable(cfg, s1, ReceiveVoteResponse(a));
    ReachesTrans(cfg, q, s, s1, s');
    VoteComesIn(cfg, q, s, s1, s', n, args, r, p);
  }

  lemma LateVoterGrants(s: State, m: Message)
    requires m.VoteRequest? && Ready(s, m.dst) && s.nodes[m.dst].currentTerm < m.vote.term
    ensures var s1 := VoteRequestNext(s, m);
            PeerVoted(s, s1, m.src, m.dst, m.vote.term)
  {}

  lemma VoteComesIn(cfg: Config, q: set<NodeId>, s: State, s1: State, s': State, n: NodeId, args: RequestVoteArgs,
                    r: set<NodeId>, p: NodeId)
    requires Gathering(cfg, q, s, n, args, r) && p in r && Ready(s1, n)
    requires PeerVoted(s, s1, n, p, args.term)
    requires s' == VoteResponseNext(cfg, s1, VoteResponse(p, n, args.term, RequestVoteReply(args.term, true)))
    ensures Gathering(cfg, q, s', n, args, r - {p}) && SameWork(s.nodes[n], s'.nodes[n]) && s'.delivered == s.delivered
  {
    VoteIsCounted(cfg, n, s1.nodes[n], args.term);
    assert |r - {p}| == |r| - 1;
  }

  lemma VoteIsCounted(cfg: Config, n: NodeId, st: NodeState, term: int)
    requires |st.log| > 0 && st.currentTerm == term
    requires st.role == Leader || (st.role == Candidate && 2 * st.votes <= |cfg.peers|)
    ensures var st' := HandleVoteReply(cfg, n, st, term, RequestVoteReply(term, true));
            && SameWork(st, st') && st'.currentTerm == term
            && (st'.role == Leader || (st'.role == Candidate && st'.votes == st.votes + 1 && 2 * st'.votes <= |cfg.peers|))
  {}

  lemma {:induction false} AskAll(cfg: Config, q: set<NodeId>, s: State, n: NodeId, args: RequestVoteArgs, r: set<NodeId>)
    returns (s': State)
    requires cfg.Valid() && |cfg.peers| >= 2 && Reachable(cfg, s) && q <= cfg.Ids() && 2 * |q| > |cfg.peers|
    requires Gathering(cfg, q, s, n, args, r)
    ensures Reaches(cfg, q, s, s') && Reachable(cfg, s') && Gathering(cfg, q, s', n, args, {})
    ensures s'.nodes[n].role == Leader && SameWork(s.nodes[n], s'.nodes[n]) && s'.delivered == s.delivered
    decreases r
  {
    if r == {} {
      SelfReaches(cfg, q, s);
      s' := s;
    } else {
      var p :| p in r;
      var s1 := AskOne(cfg, q, s, n, args, r, p);
      s' := AskAll(cfg, q, s1, n, args, r - {p});
      ReachesTrans(cfg, q, s, s1, s');
    }
  }

  lemma TimeoutGathers(cfg: Config, q: set<NodeId>, s: State, n: NodeId)
    requires Ready(s, n) && s.nodes[n].role != Leader && q <= cfg.Ids() && n in q
    requires |cfg.peers| >= 2 && |q| >= 1 && NoneAhead(s, q, s.nodes[n].currentTerm)
    ensures var args := StartElection(n, s.nodes[n]).1;
            Gathering(cfg, q, TimeoutNext(cfg, s, n), n, args, q - {n}) && args.term == s.nodes[n].currentTerm + 1
    ensures SameWork(s.nodes[n], TimeoutNext(cfg, s, n).nodes[n]) && TimeoutNext(cfg, s, n).delivered == s.delivered
  {
    var s1, args := TimeoutNext(cfg, s, n), StartElection(n, s.nodes[n]).1;
    assert |q - {n}| == |q| - 1;
    forall p | p in q - {n}
      ensures s1.nodes[p].currentTerm < args.term && VoteRequest(n, p, args) in s1.network && (n, args.term, p) in s1.calls
    {}
  }

  /** A node that nobody in a majority is ahead of can become its leader. */
  lemma CanBeElected(cfg: Config, q: set<NodeId>, s: State, n: NodeId) returns (s': State)
    requires cfg.Valid() && |cfg.peers| >= 2 && Reachable(cfg, s) && q <= cfg.Ids() && 2 * |q| > |cfg.peers| && n in q
    requires n in s.nodes && NoneAhead(s, q, s.nodes[n].currentTerm)
    ensures Reaches(cfg, q, s, s') && Reachable(cfg, s') && n in s'.nodes && s'.nodes[n].role == Leader
    ensures NoneAhead(s', q, s'.nodes[n].currentTerm) && SameWork(s.nodes[n], s'.nodes[n]) && s'.delivered == s.delivered
  {
    if s.nodes[n].role == Leader {
      SelfReaches(cfg, q, s);
      s' := s;
    } else {
      ReachableIsReady(cfg, s, n);
      var s1, args := TimeoutNext(cfg, s, n), StartElection(n, s.nodes[n]).1;
      StepReaches(cfg, q, s, Timeout(n));
      StepIsReachable(cfg, s, Timeout(n));
      TimeoutGathers(cfg, q, s, n);
      s' := AskAll(cfg, q, s1, n, args, q - {n});
      ReachesTrans(cfg, q, s, s1, s');
    }
  }

  // ---- Replicating ----

  /** n leads q, with the given log. */
  ghost predicate Leads(s: State, q: set<NodeId>, n: NodeId, log: Log) {
    && n in s.nodes && s.nodes[n].role == Leader && s.nodes[n].log == log
    && NoneAhead(s, q, s.nodes[n].currentTerm)
  }

  /** The leader's view of the others but p, and its own place, are as they were. */
  ghost predicate SameView(st: NodeState, st': NodeState, p: NodeId) {
    && st'.lastApplied == st.lastApplied && st'.currentTerm == st.currentTerm
    && (forall k :: k != p ==> (k in st'.matchIndex <==> k in st.matchIndex))
    && (forall k :: k != p && k in st.matchIndex ==> st'.matchIndex[k] == st.matchIndex[k])
  }

  /** The three steps of one round: the request is sent, handled and answered. */
  lemma OneRound(cfg: Config, q: set<NodeId>, s: State, n: NodeId, p: NodeId) returns (s': State)
    requires cfg.Valid() && |cfg.peers| >= 2 && Reachable(cfg, s) && q <= cfg.Ids() && n in q && p in q && p != n
    requires n in s.nodes && Leads(s, q, n, s.nodes[n].log)
    ensures Reaches(cfg, q, s, s') && Reachable(cfg, s') && p in s.nodes && |s.nodes[p].log| > 0 && |s.nodes[n].log| > 0
    ensures RoundDone(cfg, s, s', n, p)
  {
    ReachableIsReady(cfg, s, n);
    ReachableIsReady(cfg, s, p);
    var args := BuildAppendEntries(n, s.nodes[n], p);
    var m := AppendRequest(n, p, args);
    var s1 := SendAppendNext(s, n, p);
    StepReaches(cfg, q, s, SendAppend(n, p));
    StepIsReachable(cfg, s, SendAppend(n, p));
    s' := AnsweredRound(cfg, q, s1, n, p, args);
    ReachesTrans(cfg, q, s, s1, s');
  }

  ghost predicate RoundDone(cfg: Config, s: State, s': State, n: NodeId, p: NodeId)
    requires n in s.nodes && p in s.nodes && |s.nodes[n].log| > 0 && |s.nodes[p].log| > 0
  {
    var round := ReplicationRound(cfg, n, p, s.nodes[n], s.nodes[p]);
    && s'.nodes == s.nodes[p := round.follower][n := round.leader] && s'.delivered == s.delivered
  }

  lemma AnsweredRound(cfg: Config, q: set<NodeId>, s: State, n: NodeId, p: NodeId, args: AppendEntriesArgs) returns (s': State)
    requires cfg.Valid() && |cfg.peers| >= 2 && Reachable(cfg, s) && q <= cfg.Ids() && n in q && p in q && p != n
    requires Ready(s, n) && Ready(s, p) && AppendRequest(n, p, args) in s.network
    ensures Reaches(cfg, q, s, s') && Reachable(cfg, s') && s'.delivered == s.delivered
    ensures var (st, reply) := HandleAppendEntries(s.nodes[p], args);
            s'.nodes == s.nodes[p := st][n := HandleAppendReply(cfg, n, s.nodes[n], p, args, reply)]
  {
    var m := AppendRequest(n, p, args);
    var (st, reply) := HandleAppendEntries(s.nodes[p], args);
    var s1 := AppendNext(s, m);
    StepReaches(cfg, q, s, ReceiveAppend(m));
    StepIsReachable(cfg, s, ReceiveAppend(m));
    var a := AppendResponse(p, n, args, reply);
    ReachableIsReady(cfg, s1, n);
    s' := AppendResponseNext(cfg, s1, a);
    StepReaches(cfg, q, s1, ReceiveAppendResponse(a));
    StepIsReachable(cfg, s1, ReceiveAppendResponse(a));
    ReachesTrans(cfg, q, s, s1, s');
  }

  /** One round from a good state: the follower has the whole log and the leader knows, or the
      next try starts one index earlier. */
  ghost predicate RoundMoves(s: State, s': State, q: set<NodeId>, n: NodeId, p: NodeId, accepted: bool) {
    && n in s.nodes && Leads(s', q, n, s.nodes[n].log) && SameView(s.nodes[n], s'.nodes[n], p) && s'.delivered == s.delivered
    && (accepted ==> p in s'.nodes[n].matchIndex && s'.nodes[n].matchIndex[p] == |s.nodes[n].log| - 1)
    && (!accepted ==>
          1 <= Lookup(s'.nodes[n].nextIndex, p) < Lookup(s.nodes[n].nextIndex, p))
  }

  lemma PairIsStable(cfg: Config, s: State, n: NodeId, p: NodeId)
    requires cfg.Valid() && Reachable(cfg, s) && n in s.nodes && p in s.nodes && p != n
    requires s.nodes[n].role == Leader && s.nodes[p].currentTerm <= s.nodes[n].currentTerm
    ensures Stable(p, s.nodes[n], s.nodes[p])
  {
    ReachableIsFull(cfg, s);
    ReachableIsStable(cfg, s, n, p);
  }

  lemma RoundIsMove(cfg: Config, q: set<NodeId>, s: State, s': State, n: NodeId, p: NodeId)
    requires cfg.Valid() && Reachable(cfg, s) && q <= cfg.Ids() && n in q && p in q && p != n
    requires n in s.nodes && Leads(s, q, n, s.nodes[n].log)
    requires p in s.nodes && |s.nodes[p].log| > 0 && |s.nodes[n].log| > 0 && RoundDone(cfg, s, s', n, p)
    ensures RoundMoves(s, s', q, n, p, !ReplicationRound(cfg, n, p, s.nodes[n], s.nodes[p]).rejected)
  {
    var st, fl := s.nodes[n], s.nodes[p];
    PairIsStable(cfg, s, n, p);
    RoundEffect(cfg, n, p, st, fl);
    RoundTallies(cfg, n, p, st, fl);
    RoundTerms(cfg, n, p, st, fl);
  }

  lemma RoundTallies(cfg: Config, n: NodeId, p: NodeId, st: NodeState, fl: NodeState)
    requires Stable(p, st, fl)
    ensures var r := ReplicationRound(cfg, n, p, st, fl);
            && r.leader.role == Leader && SameView(st, r.leader, p)
            && (!r.rejected ==> p in r.leader.matchIndex && r.leader.matchIndex[p] == |st.log| - 1)
  {
    BuiltRequestIsWindow(st, n, p);
    var args := BuildAppendEntries(n, st, p);
    var reply := HandleAppendEntries(fl, args).1;
    HandlerTerm(fl, args);
    LeaderTallied(cfg, n, st, p, args, reply);
  }

  lemma LeaderTallied(cfg: Config, n: NodeId, st: NodeState, p: NodeId, a: AppendEntriesArgs, reply: AppendEntriesReply)
    requires |st.log| > 0 && st.role == Leader && a.term == st.currentTerm && reply.term <= a.term
    ensures var st' := HandleAppendReply(cfg, n, st, p, a, reply);
            && st'.role == Leader && st'.lastApplied == st.lastApplied && st'.currentTerm == st.currentTerm
            && st'.matchIndex == if reply.success then st.matchIndex[p := a.prevLogIndex + |a.entries|] else st.matchIndex
  {}

  lemma RoundTerms(cfg: Config, n: NodeId, p: NodeId, st: NodeState, fl: NodeState)
    requires |st.log| > 0 && |fl.log| > 0 && fl.currentTerm <= st.currentTerm
    ensures ReplicationRound(cfg, n, p, st, fl).follower.currentTerm <= st.currentTerm
  {
    HandlerAdopts(fl, BuildAppendEntries(n, st, p));
  }

  /** A leader can bring a peer of its majority up to the end of its log. */
  lemma {:induction false} CanReplicate(cfg: Config, q: set<NodeId>, s: State, n: NodeId, p: NodeId) returns (s': State)
    requires cfg.Valid() && |cfg.peers| >= 2 && Reachable(cfg, s) && q <= cfg.Ids() && n in q && p in q && p != n
    requires n in s.nodes && Leads(s, q, n, s.nodes[n].log)
    ensures Reaches(cfg, q, s, s') && Reachable(cfg, s') && RoundMoves(s, s', q, n, p, true)
    decreases Lookup(s.nodes[n].nextIndex, p)
  {
    var s1 := OneRound(cfg, q, s, n, p);
    RoundIsMove(cfg, q, s, s1, n, p);
    if ReplicationRound(cfg, n, p, s.nodes[n], s.nodes[p]).rejected {
      s' := CanReplicate(cfg, q, s1, n, p);
      ReachesTrans(cfg, q, s, s1, s');
    } else {
      s' := s1;
    }
  }

  /** The leader knows each peer in done to have its whole log. */
  ghost predicate Known(st: NodeState, done: set<NodeId>) {
    forall p :: p in done ==> p in st.matchIndex && st.matchIndex[p] == |st.log| - 1
  }

  lemma {:induction false} CanReplicateToAll(cfg: Config, q: set<NodeId>, s: State, n: NodeId, r: set<NodeId>) returns (s': State)
    requires cfg.Valid() && |cfg.peers| >= 2 && Reachable(cfg, s) && q <= cfg.Ids() && n in q && r <= q - {n}
    requires n in s.nodes && Leads(s, q, n, s.nodes[n].log) && Known(s.nodes[n], q - {n} - r)
    ensures Reaches(cfg, q, s, s') && Reachable(cfg, s') && Leads(s', q, n, s.nodes[n].log) && Known(s'.nodes[n], q - {n})
    ensures s'.nodes[n].lastApplied == s.nodes[n].lastApplied && s'.nodes[n].currentTerm == s.nodes[n].currentTerm
    ensures s'.delivered == s.delivered
    decreases r
  {
    if r == {} {
      SelfReaches(cfg, q, s);
      assert q - {n} - r == q - {n};
      s' := s;
    } else {
      var p :| p in r;
      var s1 := CanReplicate(cfg, q, s, n, p);
      StaysKnown(s.nodes[n], s1.nodes[n], q - {n} - r, p);
      assert q - {n} - (r - {p}) == (q - {n} - r) + {p};
      s' := CanReplicateToAll(cfg, q, s1, n, r - {p});
      ReachesTrans(cfg, q, s, s1, s');
    }
  }

  lemma StaysKnown(st: NodeState, st': NodeState, done: set<NodeId>, p: NodeId)
    requires Known(st, done) && SameView(st, st', p) && st'.log == st.log
    requires p in st'.matchIndex && st'.matchIndex[p] == |st.log| - 1
    ensures Known(st', done + {p})
  {}

  lemma ReachableLeavesNothing(cfg: Config, s: State, n: NodeId)
    requires cfg.Valid() && |cfg.peers| >= 2 && Reachable(cfg, s) && n in s.nodes && s.nodes[n].role == Leader
    ensures NothingLeft(cfg, n, s.nodes[n])
  {
    var b, steps :| Run(cfg, b, steps) && b[|steps|] == s;
    RunKeepsLeft(cfg, b, steps, |steps|);
  }

  /** What a whole majority is known to have is committed, if it is of the leader's term. */
  lemma KnownIsCommitted(cfg: Config, q: set<NodeId>, s: State, n: NodeId)
    requires cfg.Valid() && |cfg.peers| >= 2 && Reachable(cfg, s)
    requires q <= cfg.Ids() && 2 * |q| > |cfg.peers| && n in q && n in s.nodes && s.nodes[n].role == Leader
    requires var log := s.nodes[n].log; |log| > 1 && log[|log| - 1].term == s.nodes[n].currentTerm
    requires Known(s.nodes[n], q - {n})
    ensures s.nodes[n].commitIndex >= |s.nodes[n].log| - 1
  {
    var st := s.nodes[n];
    var k := |st.log| - 1;
    ReachableLeavesNothing(cfg, s, n);
    SubsetCount(q - {n}, Reached(cfg, n, st, k));
    assert |q - {n}| == |q| - 1;
  }

  // ---- Delivering ----

  lemma MessageIsThere(log: Log, lo: nat, hi: int, k: nat)
    requires lo < k < |log| && k <= hi
    ensures ApplyMsg(log[k].command, k) in Messages(log, lo, hi)
  {
    assert Messages(log, lo, hi)[k - lo - 1] == ApplyMsg(log[k].command, k);
  }

  /** n leads, has committed the command at the index, and has delivered it unless the index was
      applied before. */
  ghost predicate Done(s: State, n: NodeId, command: Command, index: nat, applied: int) {
    && n in s.nodes && n in s.delivered && s.nodes[n].role == Leader
    && index < |s.nodes[n].log| && index <= s.nodes[n].commitIndex
    && s.nodes[n].log[index] == LogEntry(s.nodes[n].currentTerm, index, command)
    && (applied < index ==> ApplyMsg(command, index) in s.delivered[n])
  }

  lemma ProposedAtEnd(q: set<NodeId>, s: State, n: NodeId, command: Command)
    requires Ready(s, n) && WellFormed(s.nodes[n].log) && Leads(s, q, n, s.nodes[n].log)
    ensures var st, s1 := s.nodes[n], ProposeNext(s, n, command);
            && Leads(s1, q, n, st.log + [LogEntry(st.currentTerm, |st.log|, command)])
            && s1.nodes[n].lastApplied == st.lastApplied && s1.nodes[n].currentTerm == st.currentTerm
  {
    WellFormedIsContiguous(s.nodes[n].log);
  }

  lemma CanDeliver(cfg: Config, q: set<NodeId>, s: State, n: NodeId, command: Command) returns (s': State)
    requires cfg.Valid() && |cfg.peers| >= 2 && Reachable(cfg, s) && q <= cfg.Ids() && 2 * |q| > |cfg.peers| && n in q
    requires n in s.nodes && Leads(s, q, n, s.nodes[n].log)
    ensures Reaches(cfg, q, s, s') && Done(s', n, command, |s.nodes[n].log|, s.nodes[n].lastApplied)
  {
    ReachableIsReady(cfg, s, n);
    var s1 := ProposeNext(s, n, command);
    StepReaches(cfg, q, s, ClientPropose(n, command));
    StepIsReachable(cfg, s, ClientPropose(n, command));
    ProposedAtEnd(q, s, n, command);
    var s2 := CanReplicateToAll(cfg, q, s1, n, q - {n});
    KnownIsCommitted(cfg, q, s2, n);
    ReachableIsReady(cfg, s2, n);
    s' := ApplyNext(s2, n);
    StepReaches(cfg, q, s2, Apply(n));
    AppliedIsDone(s2, n, command, |s.nodes[n].log|);
    ReachesTrans(cfg, q, s, s1, s2);
    ReachesTrans(cfg, q, s, s2, s');
  }

  lemma AppliedIsDone(s: State, n: NodeId, command: Command, index: nat)
    requires Ready(s, n) && WellFormed(s.nodes[n].log) && s.nodes[n].role == Leader && s.nodes[n].lastApplied >= 0
    requires index < |s.nodes[n].log| && index <= s.nodes[n].commitIndex
    requires s.nodes[n].log[index] == LogEntry(s.nodes[n].currentTerm, index, command)
    ensures Done(ApplyNext(s, n), n, command, index, s.nodes[n].lastApplied)
  {
    ApplyAt(s, n);
    if s.nodes[n].lastApplied < index {
      MessageIsThere(s.nodes[n].log, s.nodes[n].lastApplied, s.nodes[n].commitIndex, index);
    }
  }

  // ---- On every run ----

  /** At every moment of every run of two or more peers: take any majority, and any node of it
      that none of it is ahead of. Whatever the state of the rest, and whatever is lost, steps of
      that majority on its own messages suffice to make the node leader, and to have a command
      proposed to it committed at the next index, and delivered if no later index has been
      applied. */
  lemma NoDeadEnds(cfg: Config, b: seq<State>, steps: seq<Step>, i: nat, q: set<NodeId>, n: NodeId, command: Command)
    returns (c: seq<State>, more: seq<Step>)
    requires cfg.Valid() && |cfg.peers| >= 2 && Run(cfg, b, steps) && i < |b|
    requires q <= cfg.Ids() && 2 * |q| > |cfg.peers| && n in q
    requires n in b[i].nodes && NoneAhead(b[i], q, b[i].nodes[n].currentTerm)
    ensures Run(cfg, b[..i + 1] + c, steps[..i] + more) && forall k :: 0 <= k < |more| ==> Within(more[k], q)
    ensures c != [] && Done(c[|c| - 1], n, command, |b[i].nodes[n].log|, b[i].nodes[n].lastApplied)
  {
    MomentIsReachable(cfg, b, steps, i);
    ReachableIsReady(cfg, b[i], n);
    var s1 := CanBeElected(cfg, q, b[i], n);
    var s2 := CanDeliver(cfg, q, s1, n, command);
    ReachesTrans(cfg, q, b[i], s1, s2);
    var d, acts :| Path(cfg, q, d, acts) && d[0] == b[i] && d[|acts|] == s2;
    NotThereYet(cfg, b, steps, i, n, s2, command);
    c, more := d[1..], acts;
    RunGoesOn(cfg, q, b, steps, i, d, acts);
  }

  lemma RunGoesOn(cfg: Config, q: set<NodeId>, b: seq<State>, steps: seq<Step>, i: nat, d: seq<State>, acts: seq<Step>)
    requires Run(cfg, b, steps) && i < |b| && Path(cfg, q, d, acts) && d[0] == b[i]
    ensures Run(cfg, b[..i + 1] + d[1..], steps[..i] + acts)
  {
    var all, every := b[..i + 1] + d[1..], steps[..i] + acts;
    forall k | 0 <= k < |every| ensures Transition(cfg, all[k], every[k], all[k + 1]) {
      if k < i {
        assert Transition(cfg, b[k], steps[k], b[k + 1]);
      } else {
        assert Transition(cfg, d[k - i], acts[k - i], d[k - i + 1]);
      }
    }
  }

  /** The log is longer in the end, so the path has a step. */
  lemma NotThereYet(cfg: Config, b: seq<State>, steps: seq<Step>, i: nat, n: NodeId, s2: State, command: Command)
    requires i < |b| && n in b[i].nodes && Done(s2, n, command, |b[i].nodes[n].log|, b[i].nodes[n].lastApplied)
    ensures s2 != b[i]
  {}
}
