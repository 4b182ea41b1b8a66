/** Without the log comparison the guarantee of section 5.4 is lost: a three-node run of the
    handlers as they are, in which two nodes deliver different commands at index 1. */
module UnsafeRun {
  import opened RaftLog
  import opened RaftNode
  import opened AppendMerge
  import opened Cluster
  import opened ElectionSafety
  import opened LogMatching
  import CommitQuorum
  import opened LeaderCompleteness
  import opened StateMachineSafety

  const A: NodeId := "A"
  const B: NodeId := "B"
  const C: NodeId := "C"

  function Three(): Config {
    Config([A, B, C])
  }

  lemma ThreeFacts()
    ensures A != B && A != C && B != C && A != NO_VOTE && B != NO_VOTE && C != NO_VOTE
    ensures Three().Valid() && Three().Ids() == {A, B, C}
    ensures Three().Majority(2) && !Three().Majority(1)
  {
    assert A[0] != B[0] && A[0] != C[0] && B[0] != C[0];
    assert |A| == 1 && |B| == 1 && |C| == 1;
  }

  const X: Command := [1]
  const Y: Command := [2]
  const LOG0: Log := [SENTINEL]
  const LOGX: Log := [SENTINEL, LogEntry(1, 1, X)]
  const LOGY: Log := [SENTINEL, LogEntry(2, 1, Y)]

  function Vote(n: NodeId, term: int): RequestVoteArgs {
    RequestVoteArgs(term, n, 0, 0)
  }

  /** The part of a node's state the story is about. */
  ghost predicate Is(s: State, n: NodeId, term: int, votedFor: NodeId, log: Log, role: Role, commit: int, applied: int) {
    && Ready(s, n)
    && s.nodes[n].currentTerm == term && s.nodes[n].votedFor == votedFor && s.nodes[n].log == log
    && s.nodes[n].role == role && s.nodes[n].commitIndex == commit && s.nodes[n].lastApplied == applied
  }

  // ---- One lemma per kind of step, on the states that occur ----

  lemma Stand(s: State, n: NodeId, p: NodeId, term: int, votedFor: NodeId, role: Role)
    requires n in {A, B, C} && p in {A, B, C} && p != n
    requires Is(s, n, term, votedFor, LOG0, role, 0, 0) && role != Leader
    ensures Enabled(Three(), s, Timeout(n))
    ensures var s' := Next(Three(), s, Timeout(n));
            && Is(s', n, term + 1, n, LOG0, Candidate, 0, 0) && s'.nodes[n].votes == 1
            && VoteRequest(n, p, Vote(n, term + 1)) in s'.network && (n, term + 1, p) in s'.calls
            && (forall k :: k in s.nodes && k != n ==> k in s'.nodes && s'.nodes[k] == s.nodes[k])
            && s'.delivered == s.delivered
  {
    ThreeFacts();
  }

  lemma GrantVote(s: State, c: NodeId, v: NodeId, term: int, was: int, votedFor: NodeId, log: Log)
    requires Is(s, v, was, votedFor, log, Follower, 0, 0) && was < term && c in s.nodes && v != c
    requires VoteRequest(c, v, Vote(c, term)) in s.network
    ensures Enabled(Three(), s, ReceiveVoteRequest(VoteRequest(c, v, Vote(c, term))))
    ensures var s' := Next(Three(), s, ReceiveVoteRequest(VoteRequest(c, v, Vote(c, term))));
            && Is(s', v, term, c, log, Follower, 0, 0)
            && VoteResponse(v, c, term, RequestVoteReply(term, true)) in s'.network
            && (forall k :: k in s.nodes && k != v ==> k in s'.nodes && s'.nodes[k] == s.nodes[k])
            && s'.delivered == s.delivered && s'.calls == s.calls
  {}

  lemma Win(s: State, c: NodeId, v: NodeId, term: int)
    requires c in {A, B, C} && v in {A, B, C} && v != c
    requires Is(s, c, term, c, LOG0, Candidate, 0, 0) && s.nodes[c].votes == 1
    requires VoteResponse(v, c, term, RequestVoteReply(term, true)) in s.network && (c, term, v) in s.calls
    ensures Enabled(Three(), s, ReceiveVoteResponse(VoteResponse(v, c, term, RequestVoteReply(term, true))))
    ensures var s' := Next(Three(), s, ReceiveVoteResponse(VoteResponse(v, c, term, RequestVoteReply(term, true))));
            && Is(s', c, term, c, LOG0, Leader, 0, 0) && Lookup(s'.nodes[c].nextIndex, v) == 1
            && (forall k :: k in s.nodes && k != c ==> k in s'.nodes && s'.nodes[k] == s.nodes[k])
            && s'.delivered == s.delivered && s'.network == s.network
  {
    ThreeFacts();
    ResetSets(s.nodes[c].nextIndex, Three().peers, c, 1, v);
  }

  lemma Append1(s: State, n: NodeId, p: NodeId, term: int, x: Command)
    requires Is(s, n, term, n, LOG0, Leader, 0, 0) && Lookup(s.nodes[n].nextIndex, p) == 1
    ensures Enabled(Three(), s, ClientPropose(n, x))
    ensures var s' := Next(Three(), s, ClientPropose(n, x));
            && Is(s', n, term, n, [SENTINEL, LogEntry(term, 1, x)], Leader, 0, 0) && Lookup(s'.nodes[n].nextIndex, p) == 1
            && (forall k :: k in s.nodes && k != n ==> k in s'.nodes && s'.nodes[k] == s.nodes[k])
            && s'.delivered == s.delivered && s'.network == s.network
  {
    assert LOG0 + [LogEntry(term, 1, x)] == [SENTINEL, LogEntry(term, 1, x)];
  }

  /** The request that carries the single entry. */
  function Carry(n: NodeId, term: int, x: Command): AppendEntriesArgs {
    AppendEntriesArgs(term, n, 0, 0, [LogEntry(term, 1, x)], 0)
  }

  lemma Send(s: State, n: NodeId, p: NodeId, term: int, x: Command)
    requires n in {A, B, C} && p in {A, B, C} && p != n
    requires Is(s, n, term, n, [SENTINEL, LogEntry(term, 1, x)], Leader, 0, 0) && Lookup(s.nodes[n].nextIndex, p) == 1
    ensures Enabled(Three(), s, SendAppend(n, p))
    ensures var s' := Next(Three(), s, SendAppend(n, p));
            && s'.nodes == s.nodes && s'.delivered == s.delivered && AppendRequest(n, p, Carry(n, term, x)) in s'.network
  {
    ThreeFacts();
    BuiltRequestIsWindow(s.nodes[n], n, p);
    var log := s.nodes[n].log;
    assert log[1..2] == [LogEntry(term, 1, x)];
    assert BuildAppendEntries(n, s.nodes[n], p).prevLogIndex == 0;
    assert BuildAppendEntries(n, s.nodes[n], p) == Carry(n, term, x);
  }

  /** The follower ends with exactly the leader's log, whatever single entry it had before. */
  lemma Accept(s: State, n: NodeId, p: NodeId, term: int, x: Command, log: Log)
    requires Is(s, p, term, n, log, Follower, 0, 0) && n in s.nodes && n != p && term > 0
    requires WellFormed(log) && (log == LOG0 || (|log| == 2 && log[1].term != term))
    requires AppendRequest(n, p, Carry(n, term, x)) in s.network
    ensures Enabled(Three(), s, ReceiveAppend(AppendRequest(n, p, Carry(n, term, x))))
    ensures var s' := Next(Three(), s, ReceiveAppend(AppendRequest(n, p, Carry(n, term, x))));
            && Is(s', p, term, n, [SENTINEL, LogEntry(term, 1, x)], Follower, 0, 0)
            && AppendResponse(p, n, Carry(n, term, x), AppendEntriesReply(term, true)) in s'.network
            && (forall k :: k in s.nodes && k != p ==> k in s'.nodes && s'.nodes[k] == s.nodes[k])
            && s'.delivered == s.delivered
  {
    var a := Carry(n, term, x);
    HandlerCases(s.nodes[p], a);
    WellFormedIsContiguous(log);
    MergeIsMerged(log, 1, a.entries);
    assert Merged(log, 1, a.entries) == [SENTINEL, LogEntry(term, 1, x)] by {
      assert log[..1] + a.entries == [SENTINEL, LogEntry(term, 1, x)];
      if log == LOG0 { assert log + a.entries == [SENTINEL, LogEntry(term, 1, x)]; }
    }
  }

  lemma Commit1(s: State, n: NodeId, p: NodeId, term: int, x: Command)
    requires n in {A, B, C} && p in {A, B, C} && p != n
    requires Is(s, n, term, n, [SENTINEL, LogEntry(term, 1, x)], Leader, 0, 0)
    requires AppendResponse(p, n, Carry(n, term, x), AppendEntriesReply(term, true)) in s.network
    ensures Enabled(Three(), s, ReceiveAppendResponse(AppendResponse(p, n, Carry(n, term, x), AppendEntriesReply(term, true))))
    ensures var s' := Next(Three(), s, ReceiveAppendResponse(AppendResponse(p, n, Carry(n, term, x), AppendEntriesReply(term, true))));
            && Is(s', n, term, n, [SENTINEL, LogEntry(term, 1, x)], Leader, 1, 0)
            && (forall k :: k in s.nodes && k != n ==> k in s'.nodes && s'.nodes[k] == s.nodes[k])
            && s'.delivered == s.delivered && s'.network == s.network
  {
    var st := s.nodes[n];
    var st1 := st.(matchIndex := st.matchIndex[p := 1], nextIndex := st.nextIndex[p := 2]);
    TwoOfThree(n, p, st1.matchIndex);
    assert Get(st1.log, 1) == Some(LogEntry(term, 1, x));
    assert Committable(Three(), n, st1, 1);
    assert HighestCommittable(Three(), n, st1, 1) == 1;
    assert HandleAppendReply(Three(), n, st, p, Carry(n, term, x), AppendEntriesReply(term, true)) == UpdateCommitIndex(Three(), n, st1);
  }

  lemma TwoOfThree(n: NodeId, p: NodeId, matches: map<NodeId, int>)
    requires n in {A, B, C} && p in {A, B, C} && p != n && Lookup(matches, p) >= 1
    ensures Three().Majority(MatchCount(Three().peers, n, matches, 1))
  {
    ThreeFacts();
    CommitQuorum.MatchCountIsSet(Three().peers, n, matches, 1);
    assert p in CommitQuorum.PeersMatching(Three().peers, n, matches, 1);
    SubsetCount({p}, CommitQuorum.PeersMatching(Three().peers, n, matches, 1));
  }

  lemma Deliver1(s: State, n: NodeId, term: int, x: Command)
    requires Is(s, n, term, n, [SENTINEL, LogEntry(term, 1, x)], Leader, 1, 0) && s.delivered[n] == []
    ensures Enabled(Three(), s, Apply(n))
    ensures var s' := Next(Three(), s, Apply(n));
            && s'.delivered == s.delivered[n := [ApplyMsg(x, 1)]]
            && n in s'.nodes && s'.nodes[n].currentTerm == term
            && (forall k :: k in s.nodes && k != n ==> k in s'.nodes && s'.nodes[k] == s.nodes[k])
            && s'.network == s.network
  {
    var log := s.nodes[n].log;
    assert Get(log, 1) == Some(log[1]);
    assert Deliver(log, 0, 1) == [ApplyMsg(x, 1)];
  }

  /** A leads term 1 and commits X with B; C, which has nothing, then gets B's vote in term 2 and
      replaces X by Y. The steps: */
  function Story(): seq<Step> {
    FirstTerm() + SecondTerm()
  }

  function Elect(n: NodeId, term: int, x: Command): seq<Step> {
    [ReceiveVoteRequest(VoteRequest(n, B, Vote(n, term))),
     ReceiveVoteResponse(VoteResponse(B, n, term, RequestVoteReply(term, true))),
     ClientPropose(n, x)]
  }

  function Replicate(n: NodeId, term: int, x: Command): seq<Step> {
    [SendAppend(n, B),
     ReceiveAppend(AppendRequest(n, B, Carry(n, term, x))),
     ReceiveAppendResponse(AppendResponse(B, n, Carry(n, term, x), AppendEntriesReply(term, true))),
     Apply(n)]
  }

  function FirstTerm(): seq<Step> {
    [Timeout(A)] + Elect(A, 1, X) + Replicate(A, 1, X)
  }

  function SecondTerm(): seq<Step> {
    [Timeout(C), Timeout(C)] + Elect(C, 2, Y) + Replicate(C, 2, Y)
  }

  /** A piece of a run from an arbitrary state. */
  ghost predicate Piece(b: seq<State>, steps: seq<Step>) {
    Chain(StepsTo(), b, steps)
  }

  ghost function StepsTo(): (State, Step, State) -> bool {
    (s: State, step: Step, s': State) => Transition(Three(), s, step, s')
  }

  /** A chain of any relation, so that sequence reasoning does not look into the steps. */
  ghost predicate Chain<S(!new), L(!new)>(R: (S, L, S) -> bool, b: seq<S>, steps: seq<L>) {
    |b| == |steps| + 1 && forall i :: 0 <= i < |steps| ==> R(b[i], steps[i], b[i + 1])
  }

  lemma ChainSnoc<S(!new), L(!new)>(R: (S, L, S) -> bool, b: seq<S>, steps: seq<L>, step: L, s: S)
    requires Chain(R, b, steps) && R(b[|steps|], step, s)
    ensures Chain(R, b + [s], steps + [step])
  {
    var b', steps' := b + [s], steps + [step];
    forall i | 0 <= i < |steps'| ensures R(b'[i], steps'[i], b'[i + 1]) {
      if i < |steps| {
        assert b'[i] == b[i] && b'[i + 1] == b[i + 1] && steps'[i] == steps[i];
      }
    }
  }

  lemma Extend(b: seq<State>, steps: seq<Step>, step: Step) returns (b': seq<State>)
    requires Piece(b, steps) && Enabled(Three(), b[|steps|], step)
    ensures b' == b + [Next(Three(), b[|steps|], step)] && Piece(b', steps + [step])
  {
    b' := b + [Next(Three(), b[|steps|], step)];
    ChainSnoc(StepsTo(), b, steps, step, Next(Three(), b[|steps|], step));
  }

  ghost predicate Others(s: State, s': State, n: NodeId) {
    forall k :: k in s.nodes && k != n && k != B ==> k in s'.nodes && s'.nodes[k] == s.nodes[k]
  }

  /** Three steps by which candidate n wins with B's vote and accepts one command. */
  lemma RunElect(b0: seq<State>, steps0: seq<Step>, n: NodeId, term: int, x: Command, was: int, votedFor: NodeId, log: Log)
    returns (b: seq<State>)
    requires n in {A, C} && Piece(b0, steps0)
    requires var s := b0[|steps0|];
             && Is(s, n, term, n, LOG0, Candidate, 0, 0) && s.nodes[n].votes == 1 && 0 <= was < term
             && Is(s, B, was, votedFor, log, Follower, 0, 0)
             && VoteRequest(n, B, Vote(n, term)) in s.network && (n, term, B) in s.calls
    ensures Piece(b, steps0 + Elect(n, term, x)) && |b| == |b0| + 3 && b[..|b0|] == b0
    ensures var s, s' := b0[|steps0|], b[|steps0| + 3];
            && Is(s', n, term, n, [SENTINEL, LogEntry(term, 1, x)], Leader, 0, 0) && Lookup(s'.nodes[n].nextIndex, B) == 1
            && Is(s', B, term, n, log, Follower, 0, 0)
            && s'.delivered == s.delivered && Others(s, s', n)
  {
    var s1, s2, s3 := ElectStates(b0[|steps0|], n, term, x, was, votedFor, log);
    b := Extend3(b0, steps0, Elect(n, term, x), s1, s2, s3);
  }

  lemma ElectStates(s: State, n: NodeId, term: int, x: Command, was: int, votedFor: NodeId, log: Log)
    returns (s1: State, s2: State, s3: State)
    requires n in {A, C}
    requires Is(s, n, term, n, LOG0, Candidate, 0, 0) && s.nodes[n].votes == 1 && 0 <= was < term
    requires Is(s, B, was, votedFor, log, Follower, 0, 0)
    requires VoteRequest(n, B, Vote(n, term)) in s.network && (n, term, B) in s.calls
    ensures var r := Elect(n, term, x);
            Transition(Three(), s, r[0], s1) && Transition(Three(), s1, r[1], s2) && Transition(Three(), s2, r[2], s3)
    ensures Is(s3, n, term, n, [SENTINEL, LogEntry(term, 1, x)], Leader, 0, 0) && Lookup(s3.nodes[n].nextIndex, B) == 1
    ensures Is(s3, B, term, n, log, Follower, 0, 0) && s3.delivered == s.delivered && Others(s, s3, n)
  {
    ThreeFacts();
    var r := Elect(n, term, x);
    GrantVote(s, n, B, term, was, votedFor, log);
    s1 := Next(Three(), s, r[0]);
    Win(s1, n, B, term);
    s2 := Next(Three(), s1, r[1]);
    Append1(s2, n, B, term, x);
    s3 := Next(Three(), s2, r[2]);
  }

  lemma Extend3(b: seq<State>, steps: seq<Step>, r: seq<Step>, s1: State, s2: State, s3: State) returns (b': seq<State>)
    requires Piece(b, steps) && |r| == 3
    requires Transition(Three(), b[|steps|], r[0], s1) && Transition(Three(), s1, r[1], s2)
    requires Transition(Three(), s2, r[2], s3)
    ensures b' == b + [s1, s2, s3] && Piece(b', steps + r)
  {
    b' := b + [s1, s2, s3];
    ChainThree(StepsTo(), b, steps, r, s1, s2, s3);
  }

  lemma ChainThree<S(!new), L(!new)>(R: (S, L, S) -> bool, b: seq<S>, steps: seq<L>, r: seq<L>, s1: S, s2: S, s3: S)
    requires Chain(R, b, steps) && |r| == 3 && R(b[|steps|], r[0], s1) && R(s1, r[1], s2) && R(s2, r[2], s3)
    ensures Chain(R, b + [s1, s2, s3], steps + r)
  {
    ChainSnoc(R, b, steps, r[0], s1);
    ChainSnoc(R, b + [s1], steps + [r[0]], r[1], s2);
    ChainSnoc(R, b + [s1] + [s2], steps + [r[0]] + [r[1]], r[2], s3);
    assert b + [s1] + [s2] + [s3] == b + [s1, s2, s3] && steps + [r[0]] + [r[1]] + [r[2]] == steps + r;
  }

  /** Two steps by which leader n gets its one entry into B's log. */
  lemma RunSend(b0: seq<State>, steps0: seq<Step>, n: NodeId, term: int, x: Command, log: Log) returns (b: seq<State>)
    requires n in {A, C} && Piece(b0, steps0) && term > 0
    requires var s := b0[|steps0|];
             && Is(s, n, term, n, [SENTINEL, LogEntry(term, 1, x)], Leader, 0, 0) && Lookup(s.nodes[n].nextIndex, B) == 1
             && Is(s, B, term, n, log, Follower, 0, 0)
             && WellFormed(log) && (log == LOG0 || (|log| == 2 && log[1].term != term))
    ensures Piece(b, steps0 + Replicate(n, term, x)[..2]) && |b| == |b0| + 2 && b[..|b0|] == b0
    ensures var s, s' := b0[|steps0|], b[|steps0| + 2];
            && Is(s', n, term, n, [SENTINEL, LogEntry(term, 1, x)], Leader, 0, 0)
            && Is(s', B, term, n, [SENTINEL, LogEntry(term, 1, x)], Follower, 0, 0)
            && AppendResponse(B, n, Carry(n, term, x), AppendEntriesReply(term, true)) in s'.network
            && s'.delivered == s.delivered && Others(s, s', n)
  {
    ThreeFacts();
    var r, k := Replicate(n, term, x), |steps0|;
    Send(b0[k], n, B, term, x);
    var b1 := Extend(b0, steps0, r[0]);
    Accept(b1[k + 1], n, B, term, x, log);
    b := Extend(b1, steps0 + [r[0]], r[1]);
    assert steps0 + [r[0]] + [r[1]] == steps0 + r[..2];
  }

  /** Two steps by which leader n commits and applies its one entry. */
  lemma RunCommit(b0: seq<State>, steps0: seq<Step>, n: NodeId, term: int, x: Command) returns (b: seq<State>)
    requires n in {A, C} && Piece(b0, steps0)
    requires var s := b0[|steps0|];
             && Is(s, n, term, n, [SENTINEL, LogEntry(term, 1, x)], Leader, 0, 0) && s.delivered[n] == []
             && AppendResponse(B, n, Carry(n, term, x), AppendEntriesReply(term, true)) in s.network
    ensures Piece(b, steps0 + Replicate(n, term, x)[2..]) && |b| == |b0| + 2 && b[..|b0|] == b0
    ensures var s, s' := b0[|steps0|], b[|steps0| + 2];
            && n in s'.nodes && s'.nodes[n].currentTerm == term
            && s'.delivered == s.delivered[n := [ApplyMsg(x, 1)]]
            && (forall k :: k in s.nodes && k != n ==> k in s'.nodes && s'.nodes[k] == s.nodes[k])
  {
    ThreeFacts();
    var r, k := Replicate(n, term, x), |steps0|;
    Commit1(b0[k], n, B, term, x);
    var b1 := Extend(b0, steps0, r[2]);
    Deliver1(b1[k + 1], n, term, x);
    b := Extend(b1, steps0 + [r[2]], r[3]);
    assert steps0 + [r[2]] + [r[3]] == steps0 + r[2..];
  }

  /** State Machine Safety fails: after seventeen steps A and C have delivered different commands
      at index 1. The vote B gives C breaks the comparison of section 5.4.1, which the handler
      leaves unchecked. */
  lemma SafetyNeedsTheComparison() returns (b: seq<State>)
    ensures Three().Valid() && Run(Three(), b, Story())
    ensures var last := b[|b| - 1];
            && A in last.delivered && C in last.delivered
            && last.delivered[A] == [ApplyMsg(X, 1)] && last.delivered[C] == [ApplyMsg(Y, 1)] && X != Y
    ensures |Story()| == 17 && !RespectsComparison(b[10], Story()[10])
  {
    ThreeFacts();
    var b8 := RunFirstTerm();
    b := RunSecondTerm(b8);
    StaleVoteInRun(b);
  }

  lemma StaleVoteInRun(b: seq<State>)
    requires Run(Three(), b, Story()) && |b| == 18
    requires Is(b[10], B, 1, A, LOGX, Follower, 0, 0) && Is(b[10], C, 2, C, LOG0, Candidate, 0, 0)
    requires A in b[10].nodes && b[10].nodes[A].currentTerm == 1
    ensures |Story()| == 17 && !RespectsComparison(b[10], Story()[10])
  {
    ThreeFacts();
    StoryVote();
    RunKeepsInv(Three(), b, Story(), 10);
    StaleVote(b[10]);
  }

  lemma RunFirstTerm() returns (b: seq<State>)
    ensures Piece(b, FirstTerm()) && b[0] == Init(Three()) && |FirstTerm()| == 8
    ensures AfterFirstTerm(b[8])
  {
    ThreeFacts();
    var steps4 := [Timeout(A)] + Elect(A, 1, X);
    var b4 := RunFirstElection();
    var b6 := RunSend(b4, steps4, A, 1, X, LOG0);
    b := RunCommit(b6, steps4 + Replicate(A, 1, X)[..2], A, 1, X);
    assert steps4 + Replicate(A, 1, X)[..2] + Replicate(A, 1, X)[2..] == FirstTerm();
    assert b[0] == b[..|b6|][0] && b6[0] == b6[..|b4|][0];
  }

  lemma RunFirstElection() returns (b: seq<State>)
    ensures Piece(b, [Timeout(A)] + Elect(A, 1, X)) && |b| == 5 && b[0] == Init(Three())
    ensures Is(b[4], A, 1, A, LOGX, Leader, 0, 0) && Lookup(b[4].nodes[A].nextIndex, B) == 1
    ensures Is(b[4], B, 1, A, LOG0, Follower, 0, 0) && b[4].delivered == b[0].delivered
    ensures C in b[4].nodes && b[4].nodes[C] == b[0].nodes[C]
  {
    ThreeFacts();
    var s0 := Init(Three());
    assert Piece([s0], []);
    Stand(s0, A, B, 0, NO_VOTE, Follower);
    var b1 := Extend([s0], [], Timeout(A));
    assert [] + [Timeout(A)] == [Timeout(A)];
    b := RunElect(b1, [Timeout(A)], A, 1, X, 0, NO_VOTE, LOG0);
    assert b[0] == b[..|b1|][0];
  }

  ghost predicate AfterFirstTerm(s: State) {
    && Is(s, B, 1, A, LOGX, Follower, 0, 0) && Is(s, C, 0, NO_VOTE, LOG0, Follower, 0, 0)
    && A in s.nodes && s.nodes[A].currentTerm == 1
    && s.delivered.Keys == {A, B, C} && s.delivered[A] == [ApplyMsg(X, 1)] && s.delivered[C] == []
  }

  lemma RunSecondTerm(b8: seq<State>) returns (b: seq<State>)
    requires Piece(b8, FirstTerm()) && b8[0] == Init(Three()) && |FirstTerm()| == 8 && AfterFirstTerm(b8[8])
    ensures Run(Three(), b, Story()) && |Story()| == 17
    ensures b[17].delivered.Keys == {A, B, C}
    ensures b[17].delivered[A] == [ApplyMsg(X, 1)] && b[17].delivered[C] == [ApplyMsg(Y, 1)]
    ensures Is(b[10], B, 1, A, LOGX, Follower, 0, 0) && Is(b[10], C, 2, C, LOG0, Candidate, 0, 0)
    ensures A in b[10].nodes && b[10].nodes[A].currentTerm == 1
  {
    ThreeFacts();
    var b10 := RunSecondCandidacy(b8);
    var b13 := RunElect(b10, FirstTerm() + [Timeout(C)] + [Timeout(C)], C, 2, Y, 1, A, LOGX);
    b := FinishSecondTerm(b13);
    assert b[..|b13|][10] == b[10] && b13[..|b10|][10] == b10[10];
    assert b[..|b13|][0] == b[0] && b13[..|b10|][0] == b10[0];
  }

  /** C stands twice: in term 1, which A has won, and in term 2. */
  lemma RunSecondCandidacy(b8: seq<State>) returns (b: seq<State>)
    requires Piece(b8, FirstTerm()) && |FirstTerm()| == 8 && AfterFirstTerm(b8[8])
    ensures Piece(b, FirstTerm() + [Timeout(C)] + [Timeout(C)]) && |b| == 11 && b[0] == b8[0]
    ensures Is(b[10], B, 1, A, LOGX, Follower, 0, 0) && Is(b[10], C, 2, C, LOG0, Candidate, 0, 0) && b[10].nodes[C].votes == 1
    ensures A in b[10].nodes && b[10].nodes[A].currentTerm == 1 && b[10].delivered == b8[8].delivered
    ensures VoteRequest(C, B, Vote(C, 2)) in b[10].network && (C, 2, B) in b[10].calls
  {
    ThreeFacts();
    Stand(b8[8], C, B, 0, NO_VOTE, Follower);
    var b9 := Extend(b8, FirstTerm(), Timeout(C));
    Stand(b9[9], C, B, 1, C, Candidate);
    b := Extend(b9, FirstTerm() + [Timeout(C)], Timeout(C));
  }

  lemma FinishSecondTerm(b13: seq<State>) returns (b: seq<State>)
    requires Piece(b13, FirstTerm() + [Timeout(C)] + [Timeout(C)] + Elect(C, 2, Y)) && |b13| == 14
    requires Is(b13[13], C, 2, C, LOGY, Leader, 0, 0) && Lookup(b13[13].nodes[C].nextIndex, B) == 1
    requires Is(b13[13], B, 2, C, LOGX, Follower, 0, 0) && b13[13].delivered[C] == []
    ensures Piece(b, Story()) && |b| == 18 && b[..14] == b13
    ensures b[17].delivered == b13[13].delivered[C := [ApplyMsg(Y, 1)]]
  {
    var steps13 := FirstTerm() + [Timeout(C)] + [Timeout(C)] + Elect(C, 2, Y);
    var b15 := RunSend(b13, steps13, C, 2, Y, LOGX);
    b := RunCommit(b15, steps13 + Replicate(C, 2, Y)[..2], C, 2, Y);
    assert steps13 + Replicate(C, 2, Y)[..2] + Replicate(C, 2, Y)[2..] == Story();
    assert b[..14] == b[..|b15|][..14];
  }

  lemma StoryVote()
    ensures |Story()| == 17 && Story()[10] == ReceiveVoteRequest(VoteRequest(C, B, Vote(C, 2)))
  {}

  /** B, holding an entry of term 1, is asked by a candidate whose log is empty. */
  lemma StaleVote(s: State)
    requires Inv(Three(), s)
    requires Is(s, B, 1, A, LOGX, Follower, 0, 0) && Is(s, C, 2, C, LOG0, Candidate, 0, 0)
    requires A in s.nodes && s.nodes[A].currentTerm == 1
    ensures !RespectsComparison(s, ReceiveVoteRequest(VoteRequest(C, B, Vote(C, 2))))
  {
    ThreeFacts();
    TermTwoOpen(s);
    OpenVoteIsStale(s);
  }

  lemma OpenVoteIsStale(s: State)
    requires Is(s, B, 1, A, LOGX, Follower, 0, 0) && (B, 2) !in s.hist.ballots && 2 !in s.hist.leaders
    ensures !RespectsComparison(s, ReceiveVoteRequest(VoteRequest(C, B, Vote(C, 2))))
  {
    assert HandleRequestVote(s.nodes[B], Vote(C, 2)).1.voteGranted;
    assert LOGX[1].term == 1;
  }

  lemma TermTwoOpen(s: State)
    requires Shape(Three(), s) && BallotsAreVotes(Three(), s) && LeadersAreRecorded(s) && LeadersHaveMajorities(Three(), s)
    requires s.nodes.Keys == {A, B, C}
    requires s.nodes[A].currentTerm == 1 && s.nodes[B].currentTerm == 1
    requires s.nodes[C].currentTerm == 2 && s.nodes[C].role == Candidate
    ensures (B, 2) !in s.hist.ballots && 2 !in s.hist.leaders
  {}
}
