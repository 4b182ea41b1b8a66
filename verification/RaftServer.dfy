/** The Raft node object. Every method is one lock-held section of the source, proved to
    compute the step function of the same name on the node's state. */
module RaftServer {
  import opened RaftLog
  import opened RaftNode

  class Raft {
    const config: Config
    const id: NodeId
    const logStore: MemoryLogStore

    var currentTerm: int
    var votedFor: NodeId
    var role: Role
    var leaderID: NodeId
    var commitIndex: int
    var lastApplied: int
    var nextIndex: map<NodeId, int>
    var matchIndex: map<NodeId, int>
    var votes: int
    // everything sent on applyCh so far
    var applied: seq<ApplyMsg>

    ghost predicate Valid()
      reads this, logStore
    {
      config.Valid() && |logStore.entries| > 0
    }

    ghost function State(): NodeState
      reads this, logStore
    {
      NodeState(currentTerm, votedFor, logStore.entries, role, leaderID,
                commitIndex, lastApplied, nextIndex, matchIndex, votes)
    }

    constructor (config: Config, id: NodeId, store: MemoryLogStore)
      requires config.Valid() && |store.entries| > 0
      ensures Valid() && this.config == config && this.id == id && logStore == store && applied == []
      ensures State() == INIT.(log := store.entries)
    {
      this.config, this.id, logStore := config, id, store;
      currentTerm, votedFor, role, leaderID := 0, NO_VOTE, Follower, NO_VOTE;
      commitIndex, lastApplied, votes := 0, 0, 0;
      nextIndex, matchIndex, applied := map[], map[], [];
    }

    method BecomeFollower(term: int)
      requires Valid()
      modifies this
      ensures Valid() && State() == ConvertToFollower(old(State()), term) && applied == old(applied)
    {
      role := Follower;
      currentTerm := term;
      votedFor := NO_VOTE;
    }

    method ResetPeerIndices(last: int)
      modifies `nextIndex, `matchIndex
      ensures nextIndex == ResetPeers(old(nextIndex), config.peers, id, last + 1)
      ensures matchIndex == ResetPeers(old(matchIndex), config.peers, id, 0)
    {
      for i := 0 to |config.peers|
        invariant nextIndex == ResetPeers(old(nextIndex), config.peers[..i], id, last + 1)
        invariant matchIndex == ResetPeers(old(matchIndex), config.peers[..i], id, 0)
      {
        var peer := config.peers[i];
        assert config.peers[..i + 1][..i] == config.peers[..i];
        if peer == id {
          continue;
        }
        nextIndex := nextIndex[peer := last + 1];
        matchIndex := matchIndex[peer := 0];
      }
      assert config.peers[..|config.peers|] == config.peers;
    }

    method BecomeLeader()
      requires Valid()
      modifies this
      ensures Valid() && State() == ConvertToLeader(config, id, old(State())) && applied == old(applied)
    {
      if role == Leader {
        return;
      }
      role := Leader;
      var last := logStore.LastIndexOf();
      ResetPeerIndices(last);
    }

    /** The election-timer section: a leader ignores the tick. */
    method ElectionTimeout() returns (request: Option<RequestVoteArgs>)
      requires Valid() && Get(logStore.entries, LastIndex(logStore.entries)).Some?
      modifies this
      ensures Valid() && applied == old(applied)
      ensures old(role) == Leader ==> State() == old(State()) && request == None
      ensures old(role) != Leader ==>
                (State(), request) == (StartElection(id, old(State())).0, Some(StartElection(id, old(State())).1))
    {
      if role == Leader {
        return None;
      }
      role := Candidate;
      currentTerm := currentTerm + 1;
      votedFor := id;
      var lastIndex := logStore.LastIndexOf();
      var lastLog := logStore.GetLog(lastIndex);
      votes := 1;
      return Some(RequestVoteArgs(currentTerm, id, lastIndex, lastLog.value.term));
    }

    method RequestVote(args: RequestVoteArgs) returns (reply: RequestVoteReply)
      requires Valid()
      modifies this
      ensures Valid() && applied == old(applied)
      ensures (State(), reply) == HandleRequestVote(old(State()), args)
    {
      if args.term < currentTerm {
        return RequestVoteReply(currentTerm, false);
      }
      if args.term > currentTerm {
        currentTerm := args.term;
        role := Follower;
        votedFor := NO_VOTE;
      }
      var canVote := votedFor == NO_VOTE || votedFor == args.candidateID;
      // the log comparison of section 5.4.1 is a TODO in the source
      var isUpToDate := true;
      if canVote && isUpToDate {
        votedFor := args.candidateID;
        reply := RequestVoteReply(currentTerm, true);
      } else {
        reply := RequestVoteReply(currentTerm, false);
      }
    }

    method ReceiveVoteReply(reqTerm: int, reply: RequestVoteReply)
      requires Valid()
      modifies this
      ensures Valid() && applied == old(applied)
      ensures State() == HandleVoteReply(config, id, old(State()), reqTerm, reply)
    {
      if role != Candidate || reqTerm != currentTerm {
        return;
      }
      if reply.term > currentTerm {
        BecomeFollower(reply.term);
        return;
      }
      if reply.voteGranted {
        votes := votes + 1;
        if votes > |config.peers| / 2 {
          BecomeLeader();
        }
      }
    }

    /** First lock-held section of replicateToPeer. */
    method PrepareAppend(peer: NodeId) returns (args: Option<AppendEntriesArgs>)
      requires Valid()
      ensures args == if role == Leader then Some(BuildAppendEntries(id, State(), peer)) else None
    {
      if role != Leader {
        return None;
      }
      var lastIndex := logStore.LastIndexOf();
      var next := Lookup(nextIndex, peer);
      if next > lastIndex + 1 {
        next := lastIndex + 1;
      }
      var prevIndex := next - 1;
      var prevTerm := 0;
      if prevIndex >= 0 {
        var prevEntry := logStore.GetLog(prevIndex);
        if prevEntry.Some? {
          prevTerm := prevEntry.value.term;
        }
      }
      var entries := CollectEntries(next, lastIndex);
      return Some(AppendEntriesArgs(currentTerm, id, prevIndex, prevTerm, entries, commitIndex));
    }

    /** Its loop over the entries to send. */
    method CollectEntries(next: int, lastIndex: int) returns (entries: seq<LogEntry>)
      requires Valid()
      ensures entries == EntriesFrom(logStore.entries, next, lastIndex)
    {
      entries := [];
      if lastIndex >= next {
        var i := next;
        while i <= lastIndex
          invariant next <= i <= lastIndex + 1
          invariant entries == EntriesFrom(logStore.entries, next, i - 1)
        {
          EntriesSnoc(logStore.entries, next, i);
          var entry := logStore.GetLog(i);
          if entry.Some? {
            entries := entries + [entry.value];
          }
          i := i + 1;
        }
      }
    }

    /** Steps 3 and 4 of the handler: truncate at the first conflict, then append the rest. */
    method MergeLoop(entries: seq<LogEntry>, last: int)
      requires Valid() && last == LastIndex(logStore.entries)
      modifies logStore
      ensures logStore.entries == MergeEntries(old(logStore.entries), entries, last)
    {
      var lastIndex := last;
      var i := 0;
      while i < |entries|
        modifies logStore
        invariant 0 <= i <= |entries| && logStore.entries == old(logStore.entries)
        invariant lastIndex == last
        invariant MergeEntries(logStore.entries, entries[i..], last) == MergeEntries(logStore.entries, entries, last)
      {
        var entry := entries[i];
        if entry.index <= lastIndex {
          var existing := logStore.GetLog(entry.index);
          if existing.Some? && existing.value.term != entry.term {
            logStore.DeleteRange(entry.index, lastIndex);
            lastIndex := entry.index - 1;
          } else if existing.Some? {
            i := i + 1;
            continue;
          }
        }
        logStore.StoreLogs(entries[i..]);
        break;
      }
    }

    method AppendEntries(args: AppendEntriesArgs) returns (reply: AppendEntriesReply)
      requires Valid()
      modifies this, logStore
      ensures Valid() && applied == old(applied)
      ensures (State(), reply) == HandleAppendEntries(old(State()), args)
    {
      reply := AppendEntriesReply(currentTerm, false);
      if args.term < currentTerm {
        return;
      }
      if args.term > currentTerm {
        BecomeFollower(args.term);
      }
      leaderID := args.leaderID;

      var lastIndex := logStore.LastIndexOf();
      if args.prevLogIndex > lastIndex {
        return;
      }
      if args.prevLogIndex >= 0 {
        var prevEntry := logStore.GetLog(args.prevLogIndex);
        if prevEntry.Some? && prevEntry.value.term != args.prevLogTerm {
          return;
        }
      }
      MergeLoop(args.entries, lastIndex);

      MergeNonEmpty(old(logStore.entries), args.entries, lastIndex);
      if args.leaderCommit > commitIndex {
        var newLastIndex := logStore.LastIndexOf();
        if args.leaderCommit < newLastIndex {
          commitIndex := args.leaderCommit;
        } else {
          commitIndex := newLastIndex;
        }
      }
      reply := AppendEntriesReply(reply.term, true);
    }

    method CountMatches(n: int) returns (count: int)
      requires Valid()
      ensures count == MatchCount(config.peers, id, matchIndex, n)
    {
      count := 1;
      for i := 0 to |config.peers|
        invariant count == MatchCount(config.peers[..i], id, matchIndex, n)
      {
        var peer := config.peers[i];
        assert config.peers[..i + 1][..i] == config.peers[..i];
        if peer != id && Lookup(matchIndex, peer) >= n {
          count := count + 1;
        }
      }
      assert config.peers[..|config.peers|] == config.peers;
    }

    method AdvanceCommitIndex()
      requires Valid()
      modifies this`commitIndex
      ensures Valid() && State() == UpdateCommitIndex(config, id, old(State()))
    {
      var lastIndex := logStore.LastIndexOf();
      var n := lastIndex;
      while n > commitIndex
        invariant commitIndex == old(commitIndex)
        invariant n <= lastIndex
        invariant HighestCommittable(config, id, State(), n) == HighestCommittable(config, id, State(), lastIndex)
      {
        var count := CountMatches(n);
        var entry := logStore.GetLog(n);
        if count > |config.peers| / 2 && entry.Some? && entry.value.term == currentTerm {
          commitIndex := n;
          return;
        }
        n := n - 1;
      }
    }

    /** Second lock-held section of replicateToPeer. */
    method ReceiveAppendReply(peer: NodeId, args: AppendEntriesArgs, reply: AppendEntriesReply)
      requires Valid()
      modifies this
      ensures Valid() && applied == old(applied)
      ensures State() == HandleAppendReply(config, id, old(State()), peer, args, reply)
    {
      if role != Leader || args.term != currentTerm {
        return;
      }
      if reply.term > currentTerm {
        BecomeFollower(reply.term);
        return;
      }
      if reply.success {
        matchIndex := matchIndex[peer := args.prevLogIndex + |args.entries|];
        nextIndex := nextIndex[peer := matchIndex[peer] + 1];
        AdvanceCommitIndex();
      } else {
        nextIndex := nextIndex[peer := Lookup(nextIndex, peer) - 1];
        if nextIndex[peer] < 1 {
          nextIndex := nextIndex[peer := 1];
        }
      }
    }

    method ProposeCommand(command: Command) returns (r: ProposeResult)
      requires Valid()
      modifies logStore
      ensures Valid()
      ensures (State(), r) == Propose(old(State()), command)
    {
      if role != Leader {
        return ProposeResult(-1, -1, false);
      }
      var lastIndex := logStore.LastIndexOf();
      var newIndex := lastIndex + 1;
      logStore.StoreLog(LogEntry(currentTerm, newIndex, command));
      return ProposeResult(newIndex, currentTerm, true);
    }

    method ApplyCommitted()
      requires Valid()
      modifies this
      ensures Valid()
      ensures (State(), applied) == (ApplyLogs(old(State())).0, old(applied) + ApplyLogs(old(State())).1)
    {
      while commitIndex > lastApplied
        invariant unchanged(`currentTerm, `votedFor, `role, `leaderID, `commitIndex, `nextIndex, `matchIndex, `votes)
        invariant Valid()
        invariant lastApplied == old(lastApplied) || old(lastApplied) < lastApplied <= commitIndex
        invariant applied == old(applied) + Deliver(logStore.entries, old(lastApplied), lastApplied)
      {
        lastApplied := lastApplied + 1;
        var entry := logStore.GetLog(lastApplied);
        if entry.Some? {
          applied := applied + [ApplyMsg(entry.value.command, entry.value.index)];
        }
      }
    }
  }

  lemma {:induction false} EntriesSnoc(log: Log, lo: int, hi: int)
    requires |log| > 0 && lo <= hi
    ensures EntriesFrom(log, lo, hi)
         == EntriesFrom(log, lo, hi - 1) + match Get(log, hi) case Some(e) => [e] case None => []
    decreases hi - lo
  {
    if lo < hi {
      EntriesSnoc(log, lo + 1, hi);
    }
  }
}
