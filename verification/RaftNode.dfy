/** One Raft node as pure step functions: each is the effect of one lock-held section. */
module RaftNode {
  import opened RaftLog

  type NodeId = string

  /** The empty ID stands for "has not voted". */
  const NO_VOTE: NodeId := ""

  datatype Role = Follower | Candidate | Leader

  datatype Config = Config(peers: seq<NodeId>)
  {
    function Ids(): set<NodeId> {
      set p | p in peers
    }

    /** What every deployment provides: one duplicate-free list of real IDs. */
    predicate Valid() {
      && NO_VOTE !in peers
      && forall i, j :: 0 <= i < j < |peers| ==> peers[i] != peers[j]
    }

    /** The majority test of the source: a count above len(Peers)/2. */
    predicate Majority(n: int) {
      n > |peers| / 2
    }
  }

  datatype NodeState = NodeState(
    currentTerm: int,
    votedFor: NodeId,
    log: Log,
    role: Role,
    leaderID: NodeId,
    commitIndex: int,
    lastApplied: int,
    nextIndex: map<NodeId, int>,
    matchIndex: map<NodeId, int>,
    // the counter shared by the vote goroutines of the latest election
    votes: int)

  datatype RequestVoteArgs = RequestVoteArgs(term: int, candidateID: NodeId, lastLogIndex: int, lastLogTerm: int)
  datatype RequestVoteReply = RequestVoteReply(term: int, voteGranted: bool)

  datatype AppendEntriesArgs = AppendEntriesArgs(
    term: int, leaderID: NodeId, prevLogIndex: int, prevLogTerm: int, entries: seq<LogEntry>, leaderCommit: int)
  datatype AppendEntriesReply = AppendEntriesReply(term: int, success: bool)

  datatype ApplyMsg = ApplyMsg(command: Command, commandIndex: int)

  const INIT := NodeState(0, NO_VOTE, [SENTINEL], Follower, NO_VOTE, 0, 0, map[], map[], 0)

  /** Map read with the zero default of the source language. */
  function Lookup(m: map<NodeId, int>, k: NodeId): int {
    if k in m then m[k] else 0
  }

  function ConvertToFollower(s: NodeState, term: int): NodeState {
    s.(role := Follower, currentTerm := term, votedFor := NO_VOTE)
  }

  function ConvertToLeader(cfg: Config, me: NodeId, s: NodeState): NodeState
    requires |s.log| > 0
  {
    if s.role == Leader then s
    else
      s.(role := Leader,
         nextIndex := ResetPeers(s.nextIndex, cfg.peers, me, LastIndex(s.log) + 1),
         matchIndex := ResetPeers(s.matchIndex, cfg.peers, me, 0))
  }

  /** Every listed peer except the node itself is set to v. */
  function ResetPeers(m: map<NodeId, int>, peers: seq<NodeId>, me: NodeId, v: int): map<NodeId, int> {
    if peers == [] then m
    else
      var p := peers[|peers| - 1];
      var rest := ResetPeers(m, peers[..|peers| - 1], me, v);
      if p == me then rest else rest[p := v]
  }

  function StartElection(me: NodeId, s: NodeState): (r: (NodeState, RequestVoteArgs))
    requires |s.log| > 0 && Get(s.log, LastIndex(s.log)).Some?
  {
    var s' := s.(role := Candidate, currentTerm := s.currentTerm + 1, votedFor := me, votes := 1);
    var last := LastIndex(s.log);
    (s', RequestVoteArgs(s'.currentTerm, me, last, Get(s.log, last).value.term))
  }

  function HandleRequestVote(s: NodeState, args: RequestVoteArgs): (r: (NodeState, RequestVoteReply)) {
    if args.term < s.currentTerm then (s, RequestVoteReply(s.currentTerm, false))
    else
      var s1 := if args.term > s.currentTerm
                then s.(currentTerm := args.term, role := Follower, votedFor := NO_VOTE)
                else s;
      if s1.votedFor == NO_VOTE || s1.votedFor == args.candidateID
      then (s1.(votedFor := args.candidateID), RequestVoteReply(s1.currentTerm, true))
      else (s1, RequestVoteReply(s1.currentTerm, false))
  }

  /** One vote goroutine receiving its reply; reqTerm is the term its election started in. */
  function HandleVoteReply(cfg: Config, me: NodeId, s: NodeState, reqTerm: int, reply: RequestVoteReply): NodeState
    requires |s.log| > 0
  {
    if s.role != Candidate || reqTerm != s.currentTerm then s
    else if reply.term > s.currentTerm then ConvertToFollower(s, reply.term)
    else if reply.voteGranted then
      var s1 := s.(votes := s.votes + 1);
      if cfg.Majority(s1.votes) then ConvertToLeader(cfg, me, s1) else s1
    else s
  }

  /** The entries found at indices lo..hi; indices the store does not hold are skipped. */
  function EntriesFrom(log: Log, lo: int, hi: int): seq<LogEntry>
    requires |log| > 0
    decreases hi - lo
  {
    if lo > hi then []
    else
      match Get(log, lo)
      case Some(e) => [e] + EntriesFrom(log, lo + 1, hi)
      case None => EntriesFrom(log, lo + 1, hi)
  }

  function BuildAppendEntries(me: NodeId, s: NodeState, peer: NodeId): AppendEntriesArgs
    requires |s.log| > 0
  {
    var last := LastIndex(s.log);
    var next := Lookup(s.nextIndex, peer);
    var next := if next > last + 1 then last + 1 else next;
    var prev := next - 1;
    var prevTerm := if prev >= 0 && Get(s.log, prev).Some? then Get(s.log, prev).value.term else 0;
    AppendEntriesArgs(s.currentTerm, me, prev, prevTerm, EntriesFrom(s.log, next, last), s.commitIndex)
  }

  /** The conflict loop of the follower, started with the log's last index. */
  function MergeEntries(log: Log, entries: seq<LogEntry>, last: int): Log
    requires |log| > 0
  {
    if entries == [] then log
    else if entries[0].index <= last then
      match Get(log, entries[0].index)
      case Some(existing) =>
        if existing.term != entries[0].term then Delete(log, entries[0].index, last) + entries
        else MergeEntries(log, entries[1..], last)
      case None => log + entries
    else log + entries
  }

  /** The consistency check on the entry before the request's window. */
  predicate PrevMatches(log: Log, args: AppendEntriesArgs)
    requires |log| > 0
  {
    && args.prevLogIndex <= LastIndex(log)
    && (args.prevLogIndex >= 0 ==>
          var e := Get(log, args.prevLogIndex);
          e.Some? ==> e.value.term == args.prevLogTerm)
  }

  function HandleAppendEntries(s: NodeState, args: AppendEntriesArgs): (r: (NodeState, AppendEntriesReply))
    requires |s.log| > 0
  {
    if args.term < s.currentTerm then (s, AppendEntriesReply(s.currentTerm, false))
    else
      var s1 := (if args.term > s.currentTerm then ConvertToFollower(s, args.term) else s).(leaderID := args.leaderID);
      if !PrevMatches(s.log, args) then (s1, AppendEntriesReply(s.currentTerm, false))
      else
        MergeNonEmpty(s.log, args.entries, LastIndex(s.log));
        var log' := MergeEntries(s.log, args.entries, LastIndex(s.log));
        var commit' :=
          if args.leaderCommit > s.commitIndex then
            if args.leaderCommit < LastIndex(log') then args.leaderCommit else LastIndex(log')
          else s.commitIndex;
        (s1.(log := log', commitIndex := commit'), AppendEntriesReply(s.currentTerm, true))
  }

  lemma MergeNonEmpty(log: Log, entries: seq<LogEntry>, last: int)
    requires |log| > 0
    ensures |MergeEntries(log, entries, last)| > 0
  {}

  /** A quorum of match indices (the leader counts itself) reaches n, and n is a current-term entry. */
  predicate Committable(cfg: Config, me: NodeId, s: NodeState, n: int)
    requires |s.log| > 0
  {
    && cfg.Majority(MatchCount(cfg.peers, me, s.matchIndex, n))
    && Get(s.log, n).Some?
    && Get(s.log, n).value.term == s.currentTerm
  }

  function MatchCount(peers: seq<NodeId>, me: NodeId, matchIndex: map<NodeId, int>, n: int): int {
    if peers == [] then 1
    else
      var p := peers[|peers| - 1];
      MatchCount(peers[..|peers| - 1], me, matchIndex, n) + (if p != me && Lookup(matchIndex, p) >= n then 1 else 0)
  }

  /** The commit rule: the highest committable index above the commit index, if any. */
  function HighestCommittable(cfg: Config, me: NodeId, s: NodeState, n: int): (r: int)
    requires |s.log| > 0
    ensures r == s.commitIndex || (s.commitIndex < r <= n && Committable(cfg, me, s, r))
    decreases n - s.commitIndex
  {
    if n <= s.commitIndex then s.commitIndex
    else if Committable(cfg, me, s, n) then n
    else HighestCommittable(cfg, me, s, n - 1)
  }

  /** Nothing committable is left out above the result. */
  lemma {:induction false} HighestIsHighest(cfg: Config, me: NodeId, s: NodeState, n: int, k: int)
    requires |s.log| > 0 && s.commitIndex < k <= n && HighestCommittable(cfg, me, s, n) < k
    ensures !Committable(cfg, me, s, k)
    decreases n - s.commitIndex
  {
    if k < n {
      HighestIsHighest(cfg, me, s, n - 1, k);
    }
  }

  function UpdateCommitIndex(cfg: Config, me: NodeId, s: NodeState): NodeState
    requires |s.log| > 0
  {
    s.(commitIndex := HighestCommittable(cfg, me, s, LastIndex(s.log)))
  }

  /** The replication goroutine receiving the reply to the request it built. */
  function HandleAppendReply(cfg: Config, me: NodeId, s: NodeState, peer: NodeId, args: AppendEntriesArgs, reply: AppendEntriesReply): NodeState
    requires |s.log| > 0
  {
    if s.role != Leader || args.term != s.currentTerm then s
    else if reply.term > s.currentTerm then ConvertToFollower(s, reply.term)
    else if reply.success then
      var m := args.prevLogIndex + |args.entries|;
      UpdateCommitIndex(cfg, me, s.(matchIndex := s.matchIndex[peer := m], nextIndex := s.nextIndex[peer := m + 1]))
    else
      var next := Lookup(s.nextIndex, peer) - 1;
      s.(nextIndex := s.nextIndex[peer := if next < 1 then 1 else next])
  }

  datatype ProposeResult = ProposeResult(index: int, term: int, isLeader: bool)

  function Propose(s: NodeState, command: Command): (r: (NodeState, ProposeResult))
    requires |s.log| > 0
  {
    if s.role != Leader then (s, ProposeResult(-1, -1, false))
    else
      var index := LastIndex(s.log) + 1;
      (s.(log := s.log + [LogEntry(s.currentTerm, index, command)]), ProposeResult(index, s.currentTerm, true))
  }

  /** The messages sent while lastApplied moves from lo to hi. */
  function Deliver(log: Log, lo: int, hi: int): seq<ApplyMsg>
    requires |log| > 0
    decreases hi - lo
  {
    if lo >= hi then []
    else
      Deliver(log, lo, hi - 1) +
      match Get(log, hi)
      case Some(e) => [ApplyMsg(e.command, e.index)]
      case None => []
  }

  function ApplyLogs(s: NodeState): (r: (NodeState, seq<ApplyMsg>))
    requires |s.log| > 0
  {
    if s.commitIndex > s.lastApplied
    then (s.(lastApplied := s.commitIndex), Deliver(s.log, s.lastApplied, s.commitIndex))
    else (s, [])
  }
}
