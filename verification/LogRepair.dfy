/** Repairing a follower's log under a stable leader: how many refusals, and what is reached. */
module LogRepair {
  import opened RaftLog
  import opened RaftNode
  import opened AppendMerge
  import opened Cluster
  import opened ElectionSafety
  import opened LogMatching

  datatype Round = Round(leader: NodeState, follower: NodeState, rejected: bool)

  /** The leader builds a request, the follower handles it, the leader handles the reply. */
  function ReplicationRound(cfg: Config, me: NodeId, peer: NodeId, leader: NodeState, follower: NodeState): Round
    requires |leader.log| > 0 && |follower.log| > 0
  {
    var args := BuildAppendEntries(me, leader, peer);
    var (follower', reply) := HandleAppendEntries(follower, args);
    Round(HandleAppendReply(cfg, me, leader, peer, args, reply), follower', !reply.success)
  }

  /** A leader and a follower that is not ahead in term, with logs as Log Matching leaves them. */
  ghost predicate Stable(peer: NodeId, leader: NodeState, follower: NodeState) {
    && leader.role == Leader && follower.currentTerm <= leader.currentTerm
    && WellFormed(leader.log) && WellFormed(follower.log) && Matching(follower.log, leader.log)
    && Lookup(leader.nextIndex, peer) >= 1
  }

  lemma ReplyKeepsLeading(cfg: Config, me: NodeId, st: NodeState, peer: NodeId, a: AppendEntriesArgs, reply: AppendEntriesReply)
    requires |st.log| > 0 && st.role == Leader && a.term == st.currentTerm && reply.term <= st.currentTerm
    ensures var st' := HandleAppendReply(cfg, me, st, peer, a, reply);
            && st'.role == Leader && st'.currentTerm == st.currentTerm && st'.log == st.log
            && Lookup(st'.nextIndex, peer) ==
                 (if reply.success then a.prevLogIndex + |a.entries| + 1
                  else if Lookup(st.nextIndex, peer) - 1 < 1 then 1 else Lookup(st.nextIndex, peer) - 1)
  {}

  /** A refused round changes no log and moves the probe back by one; the entry at index 0 is
      never refused; an accepted round leaves the leader's whole log in the follower. */
  lemma RoundEffect(cfg: Config, me: NodeId, peer: NodeId, leader: NodeState, follower: NodeState)
    requires Stable(peer, leader, follower)
    ensures var r := ReplicationRound(cfg, me, peer, leader, follower);
            && Stable(peer, r.leader, r.follower)
            && r.leader.log == leader.log && r.leader.currentTerm == leader.currentTerm
            && (r.rejected ==>
                  r.follower.log == follower.log
                  && Lookup(leader.nextIndex, peer) > 1
                  && Lookup(r.leader.nextIndex, peer) == Lookup(leader.nextIndex, peer) - 1)
            && (!r.rejected ==> Prefix(leader.log, r.follower.log))
  {
    BuiltRequestIsWindow(leader, me, peer);
    var args := BuildAppendEntries(me, leader, peer);
    var (follower', reply) := HandleAppendEntries(follower, args);
    HandlerCases(follower, args);
    HandlerTerm(follower, args);
    ReplyKeepsLeading(cfg, me, leader, peer, args, reply);
    if reply.success {
      PrevEntryMatches(follower.log, args);
      MergeWindowOf(follower.log, leader.log, args);
      AcceptedEnds(leader.log, follower.log, follower'.log, args);
    } else if args.prevLogIndex == 0 {
      SentinelMatches(follower.log, leader.log, args);
    }
  }

  /** The dummy entries at index 0 always match. */
  lemma SentinelMatches(log: Log, source: Log, a: AppendEntriesArgs)
    requires WellFormed(log) && WellFormed(source) && WindowOf(source, a) && a.prevLogIndex == 0
    ensures PrevMatches(log, a)
  {}

  lemma HandlerTerm(st: NodeState, a: AppendEntriesArgs)
    requires |st.log| > 0
    ensures HandleAppendEntries(st, a).1.term == st.currentTerm
  {}

  lemma AcceptedEnds(source: Log, log: Log, log': Log, a: AppendEntriesArgs)
    requires WellFormed(source) && WellFormed(log) && Matching(log, source) && Merges(source, a, log, log')
    requires a.prevLogIndex + |a.entries| == |source| - 1
    ensures Prefix(source, log') && WellFormed(log') && Matching(log', source)
  {
    assert source[..|source|] == source;
    if log' != log {
      assert log' == source;
    }
  }

  /** Rounds to one peer until one is accepted; returns the number of refused ones. */
  ghost function Repair(cfg: Config, me: NodeId, peer: NodeId, leader: NodeState, follower: NodeState): (r: (Round, nat))
    requires Stable(peer, leader, follower)
    ensures r.1 <= Lookup(leader.nextIndex, peer) - 1
    ensures !r.0.rejected && r.0.leader.log == leader.log
    ensures Prefix(leader.log, r.0.follower.log)
    decreases Lookup(leader.nextIndex, peer)
  {
    RoundEffect(cfg, me, peer, leader, follower);
    var round := ReplicationRound(cfg, me, peer, leader, follower);
    if !round.rejected then (round, 0)
    else
      var (last, refusals) := Repair(cfg, me, peer, round.leader, round.follower);
      (last, refusals + 1)
  }

  /** From every state a run can reach, and for every peer not ahead of a leader's term: if only
      the two of them move, at most nextIndex - 1 rounds are refused before one is accepted, and
      then the follower has the leader's log as a prefix. */
  lemma RepairTerminates(cfg: Config, b: seq<State>, steps: seq<Step>, i: nat, n: NodeId, p: NodeId)
    requires cfg.Valid() && Run(cfg, b, steps) && i < |b| && n in b[i].nodes && p in b[i].nodes && p != n
    requires b[i].nodes[n].role == Leader && b[i].nodes[p].currentTerm <= b[i].nodes[n].currentTerm
    ensures Stable(p, b[i].nodes[n], b[i].nodes[p])
    ensures var (last, refusals) := Repair(cfg, n, p, b[i].nodes[n], b[i].nodes[p]);
            && refusals <= Lookup(b[i].nodes[n].nextIndex, p) - 1
            && !last.rejected && Prefix(b[i].nodes[n].log, last.follower.log)
  {
    RunKeepsInv(cfg, b, steps, i);
    ReachableIsStable(cfg, b[i], n, p);
  }

  lemma ReachableIsStable(cfg: Config, s: State, n: NodeId, p: NodeId)
    requires Shape(cfg, s) && NodeLogsOk(s) && NextIndexOk(cfg, s) && n in s.nodes && p in s.nodes && p != n
    requires s.nodes[n].role == Leader && s.nodes[p].currentTerm <= s.nodes[n].currentTerm
    ensures Stable(p, s.nodes[n], s.nodes[p])
  {
    SoundLogsMatch(s.nodes[p].log, s.nodes[n].log, s.hist.termLogs);
  }
}
