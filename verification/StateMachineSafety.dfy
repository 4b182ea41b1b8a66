/** Section 5.4 of the Raft paper over whole runs: Leader Completeness and State Machine Safety,
    for every run in which the votes that could decide an election respect the log comparison. */
module StateMachineSafety {
  import opened RaftLog
  import opened RaftNode
  import opened AppendMerge
  import opened Cluster
  import opened ElectionSafety
  import opened LogMatching
  import opened CommitQuorum
  import opened LeaderCompleteness

  lemma TransitionKeepsCarry(cfg: Config, s: State, step: Step, s': State)
    requires cfg.Valid() && CarryInv(cfg, s) && Transition(cfg, s, step, s')
    ensures CarryInv(cfg, s')
  {
    TransitionKeepsFull(cfg, s, step, s');
    StepKeepsCandidates(cfg, s, step);
    StepMoves(cfg, s, step);
    StepNewBallots(cfg, s, step);
    MovesKeepNodesCarry(s, s');
    MovesKeepBallotsCarry(cfg, s, s');
    BallotLogsStayOk(s, s');
  }

  lemma InitCarry(cfg: Config)
    ensures CarryInv(cfg, Init(cfg))
  {
    InitFull(cfg);
  }

  // ---- What a commit index stands for ----

  /** The log through index x is a prefix that some leader's commit rule chose. */
  ghost predicate Chosen(s: State, log: Log, term: int, x: int) {
    x == 0 || exists c :: c in s.hist.commits && c.0 in s.hist.termLogs && c.0 <= term && 0 < x <= c.1
                          && Agree(log, s.hist.termLogs[c.0], x)
  }

  ghost predicate NodesCommitChosen(s: State) {
    forall n :: n in s.nodes ==> Chosen(s, s.nodes[n].log, s.nodes[n].currentTerm, s.nodes[n].commitIndex)
  }

  /** A request never announces commits beyond its own window. */
  ghost predicate RequestCommitOk(s: State, a: AppendEntriesArgs) {
    && a.term in s.hist.termLogs
    && a.leaderCommit <= a.prevLogIndex + |a.entries|
    && Chosen(s, s.hist.termLogs[a.term], a.term, a.leaderCommit)
  }

  ghost predicate RequestsCommitChosen(s: State) {
    forall m :: m in s.network && m.AppendRequest? ==> RequestCommitOk(s, m.app)
  }

  /** What a node delivered is exactly its log up to lastApplied. */
  ghost predicate DeliveredIs(log: Log, lastApplied: int, msgs: seq<ApplyMsg>) {
    && |msgs| == lastApplied < |log|
    && forall i :: 0 <= i < |msgs| ==> msgs[i] == ApplyMsg(log[i + 1].command, i + 1)
  }

  ghost predicate DeliveriesOk(s: State) {
    forall n :: n in s.nodes ==>
      n in s.delivered && s.nodes[n].lastApplied <= s.nodes[n].commitIndex < |s.nodes[n].log|
      && DeliveredIs(s.nodes[n].log, s.nodes[n].lastApplied, s.delivered[n])
  }

  ghost predicate SafeInv(s: State) {
    NodesCommitChosen(s) && RequestsCommitChosen(s) && DeliveriesOk(s)
  }

  lemma ChosenGrows(s: State, s': State, log: Log, log': Log, term: int, term': int, x: int)
    requires Chosen(s, log, term, x) && s.hist.commits <= s'.hist.commits && term <= term'
    requires Grows(s.hist.termLogs, s'.hist.termLogs) && Prefix(log, log')
    ensures Chosen(s', log', term', x)
  {
    if x != 0 {
      var c :| c in s.hist.commits && c.0 in s.hist.termLogs && c.0 <= term && 0 < x <= c.1
               && Agree(log, s.hist.termLogs[c.0], x);
      AgreeGrows(log, log', s.hist.termLogs[c.0], s'.hist.termLogs[c.0], x);
    }
  }

  lemma ChosenBy(s: State, log: Log, term: int, x: int) returns (c: (int, int))
    requires Chosen(s, log, term, x) && x > 0
    ensures c in s.hist.commits && c.0 in s.hist.termLogs && c.0 <= term && 0 < x <= c.1
    ensures Agree(log, s.hist.termLogs[c.0], x)
  {
    c :| c in s.hist.commits && c.0 in s.hist.termLogs && c.0 <= term && 0 < x <= c.1
         && Agree(log, s.hist.termLogs[c.0], x);
  }

  /** A chosen prefix is a prefix of every later leader's log. */
  lemma ChosenInTerm(s: State, log: Log, term: int, x: int, u: int)
    requires LeadersComplete(s)
    requires Chosen(s, log, term, x) && x > 0 && term <= u && u in s.hist.leaders
    ensures u in s.hist.termLogs && Agree(log, s.hist.termLogs[u], x)
  {
    var c := ChosenBy(s, log, term, x);
    assert HasChosen(s, u, c);
    AgreeVia(log, s.hist.termLogs[c.0], s.hist.termLogs[u], x, c.1);
  }

  lemma AgreeVia(a: Log, b: Log, c: Log, x: int, y: int)
    requires Agree(a, b, x) && Agree(c, b, y) && 0 <= x <= y
    ensures Agree(a, c, x)
  {
    AgreeDown(c, b, y, x);
  }

  lemma DeliveredKept(log: Log, log': Log, lastApplied: int, x: int, msgs: seq<ApplyMsg>)
    requires DeliveredIs(log, lastApplied, msgs) && lastApplied <= x && Agree(log, log', x)
    ensures DeliveredIs(log', lastApplied, msgs)
  {
    forall i | 0 <= i < |msgs| ensures msgs[i] == ApplyMsg(log'[i + 1].command, i + 1) {
      AgreeDown(log, log', x, i + 1);
    }
  }

  // ---- Steps that neither commit, truncate nor deliver ----

  ghost predicate Uneventful(s: State, s': State) {
    && s'.nodes.Keys == s.nodes.Keys && s'.delivered == s.delivered
    && s'.hist.commits == s.hist.commits && Grows(s.hist.termLogs, s'.hist.termLogs)
    && (forall n :: n in s.nodes ==>
          && s'.nodes[n].currentTerm >= s.nodes[n].currentTerm && Prefix(s.nodes[n].log, s'.nodes[n].log)
          && s'.nodes[n].commitIndex == s.nodes[n].commitIndex && s'.nodes[n].lastApplied == s.nodes[n].lastApplied)
    && (forall m :: m in s'.network && m.AppendRequest? && m !in s.network ==> RequestCommitOk(s, m.app))
  }

  lemma UneventfulKeepsSafe(s: State, s': State)
    requires SafeInv(s) && Uneventful(s, s')
    ensures SafeInv(s')
  {
    forall n | n in s'.nodes
      ensures Chosen(s', s'.nodes[n].log, s'.nodes[n].currentTerm, s'.nodes[n].commitIndex)
      ensures n in s'.delivered && s'.nodes[n].lastApplied <= s'.nodes[n].commitIndex < |s'.nodes[n].log|
      ensures DeliveredIs(s'.nodes[n].log, s'.nodes[n].lastApplied, s'.delivered[n])
    {
      var st, st' := s.nodes[n], s'.nodes[n];
      ChosenGrows(s, s', st.log, st'.log, st.currentTerm, st'.currentTerm, st.commitIndex);
      PrefixAgrees(st.log, st'.log, st.commitIndex);
      DeliveredKept(st.log, st'.log, st.lastApplied, st.commitIndex, s.delivered[n]);
    }
    forall m | m in s'.network && m.AppendRequest? ensures RequestCommitOk(s', m.app) {
      assert RequestCommitOk(s, m.app);
      var t := m.app.term;
      ChosenGrows(s, s', s.hist.termLogs[t], s'.hist.termLogs[t], t, t, m.app.leaderCommit);
    }
  }

  lemma PrefixAgrees(a: Log, b: Log, x: int)
    requires Prefix(a, b) && 0 <= x < |a|
    ensures Agree(a, b, x)
  {
    assert a[..x + 1] == b[..|a|][..x + 1] == b[..x + 1];
  }

  lemma TimeoutUneventful(cfg: Config, s: State, n: NodeId)
    requires Shape(cfg, s) && Enabled(cfg, s, Timeout(n))
    ensures Uneventful(s, TimeoutNext(cfg, s, n))
  {}

  lemma VoteRequestUneventful(cfg: Config, s: State, m: Message)
    requires Shape(cfg, s) && Enabled(cfg, s, ReceiveVoteRequest(m))
    ensures Uneventful(s, VoteRequestNext(s, m))
  {
    VotingKeepsIndices(s.nodes[m.dst], m.vote);
  }

  lemma VotingKeepsIndices(st: NodeState, args: RequestVoteArgs)
    ensures var st' := HandleRequestVote(st, args).0;
            && st'.currentTerm >= st.currentTerm && st'.log == st.log
            && st'.commitIndex == st.commitIndex && st'.lastApplied == st.lastApplied
  {}

  lemma VoteResponseUneventful(cfg: Config, s: State, m: Message)
    requires Shape(cfg, s) && Enabled(cfg, s, ReceiveVoteResponse(m))
    requires Grows(s.hist.termLogs, VoteResponseNext(cfg, s, m).hist.termLogs)
    ensures Uneventful(s, VoteResponseNext(cfg, s, m))
  {
    CountingKeepsIndices(cfg, m.dst, s.nodes[m.dst], m.reqTerm, m.voteReply);
  }

  lemma CountingKeepsIndices(cfg: Config, n: NodeId, st: NodeState, reqTerm: int, reply: RequestVoteReply)
    requires |st.log| > 0
    ensures var st' := HandleVoteReply(cfg, n, st, reqTerm, reply);
            && st'.currentTerm >= st.currentTerm && st'.log == st.log
            && st'.commitIndex == st.commitIndex && st'.lastApplied == st.lastApplied
  {}

  lemma ProposeUneventful(cfg: Config, s: State, n: NodeId, command: Command)
    requires Shape(cfg, s) && Enabled(cfg, s, ClientPropose(n, command))
    requires Grows(s.hist.termLogs, ProposeNext(s, n, command).hist.termLogs)
    ensures Uneventful(s, ProposeNext(s, n, command))
  {}

  /** A leader announces its own commit index, and its window reaches its log's end. */
  lemma BuiltCommitOk(cfg: Config, s: State, n: NodeId, peer: NodeId)
    requires Enabled(cfg, s, SendAppend(n, peer))
    requires NodeLogsOk(s) && LeaderOwnsLog(s) && NextIndexOk(cfg, s) && NodesCommitChosen(s)
    ensures RequestCommitOk(s, BuildAppendEntries(n, s.nodes[n], peer))
  {
    BuiltRequestIsWindow(s.nodes[n], n, peer);
    assert Chosen(s, s.nodes[n].log, s.nodes[n].currentTerm, s.nodes[n].commitIndex);
  }

  lemma SendAppendUneventful(cfg: Config, s: State, n: NodeId, peer: NodeId)
    requires Ready(s, n) && RequestCommitOk(s, BuildAppendEntries(n, s.nodes[n], peer))
    ensures Uneventful(s, SendAppendNext(s, n, peer))
  {}

  // ---- Committing ----

  lemma TallyKeepsSafe(cfg: Config, s: State, s': State, m: Message)
    requires LeaderOwnsLog(s') && CommitsAreBacked(cfg, s') && SafeInv(s) && Tallies(cfg, s, s', m)
    requires CommitsNonNegative(s)
    requires s'.delivered == s.delivered && s'.nodes[m.dst].lastApplied == s.nodes[m.dst].lastApplied
    ensures SafeInv(s')
  {
    forall n | n in s'.nodes
      ensures Chosen(s', s'.nodes[n].log, s'.nodes[n].currentTerm, s'.nodes[n].commitIndex)
      ensures n in s'.delivered && s'.nodes[n].lastApplied <= s'.nodes[n].commitIndex < |s'.nodes[n].log|
      ensures DeliveredIs(s'.nodes[n].log, s'.nodes[n].lastApplied, s'.delivered[n])
    {
      var st, st' := s.nodes[n], s'.nodes[n];
      if st'.commitIndex == st.commitIndex {
        ChosenGrows(s, s', st.log, st'.log, st.currentTerm, st'.currentTerm, st.commitIndex);
      } else {
        var c := (st'.currentTerm, st'.commitIndex);
        assert c in s'.hist.commits;
        assert Agree(st'.log, s'.hist.termLogs[c.0], c.1);
      }
    }
    forall q | q in s'.network && q.AppendRequest? ensures RequestCommitOk(s', q.app) {
      assert RequestCommitOk(s, q.app);
      var t := q.app.term;
      ChosenGrows(s, s', s.hist.termLogs[t], s'.hist.termLogs[t], t, t, q.app.leaderCommit);
    }
  }

  lemma AppendResponseKeepsSafe(cfg: Config, s: State, m: Message)
    requires Shape(cfg, s) && Enabled(cfg, s, ReceiveAppendResponse(m)) && SafeInv(s) && CommitsNonNegative(s)
    requires LeaderOwnsLog(AppendResponseNext(cfg, s, m)) && CommitsAreBacked(cfg, AppendResponseNext(cfg, s, m))
    ensures SafeInv(AppendResponseNext(cfg, s, m))
  {
    AppendResponseTallies(cfg, s, m);
    ReplyDeliversNothing(cfg, s, m);
    TallyKeepsSafe(cfg, s, AppendResponseNext(cfg, s, m), m);
  }

  lemma ReplyDeliversNothing(cfg: Config, s: State, m: Message)
    requires Enabled(cfg, s, ReceiveAppendResponse(m))
    ensures var s' := AppendResponseNext(cfg, s, m);
            s'.delivered == s.delivered && s'.nodes[m.dst].lastApplied == s.nodes[m.dst].lastApplied
  {}

  // ---- Following ----

  /** Accepting a request keeps everything this node committed, and what it newly commits was
      chosen: the truncation can only reach behind the commit index. */
  lemma AcceptanceKeepsCommitted(s: State, m: Message, st': NodeState)
    requires NodesCommitChosen(s) && RequestsCommitChosen(s)
    requires m in s.network && m.AppendRequest? && m.dst in s.nodes && RequestOk(s, m.src, m.app)
    requires HandlesRequest(s.nodes[m.dst], st', m.app, s.hist.termLogs[m.app.term], true)
    requires Agree(s.nodes[m.dst].log, s.hist.termLogs[m.app.term], s.nodes[m.dst].commitIndex)
    ensures var st := s.nodes[m.dst];
            && Agree(st.log, st'.log, st.commitIndex)
            && Chosen(s, st'.log, st'.currentTerm, st.commitIndex)
            && Chosen(s, st'.log, st'.currentTerm, m.app.leaderCommit)
            && m.app.leaderCommit < |st'.log|
  {
    var st, u := s.nodes[m.dst], m.app.term;
    var source := s.hist.termLogs[u];
    assert RequestCommitOk(s, m.app) && Chosen(s, st.log, st.currentTerm, st.commitIndex);
    assert Agree(st'.log, source, st.commitIndex);
    ChosenTransfers(s, st.log, st'.log, st.currentTerm, u, st.commitIndex);
    if m.app.leaderCommit > 0 {
      AgreeDown(st'.log, source, m.app.prevLogIndex + |m.app.entries|, m.app.leaderCommit);
      ChosenTransfers(s, source, st'.log, u, u, m.app.leaderCommit);
    }
  }

  /** The leader of a term has everything a node of that or an earlier term committed. */
  lemma LeaderHasCommitted(s: State, n: NodeId, u: int)
    requires LeadersComplete(s) && NodesCommitChosen(s) && CommitsNonNegative(s) && TermLogsOk(s) && NodeLogsOk(s)
    requires n in s.nodes && s.nodes[n].currentTerm <= u && u in s.hist.leaders
    ensures u in s.hist.termLogs && Agree(s.nodes[n].log, s.hist.termLogs[u], s.nodes[n].commitIndex)
  {
    var st := s.nodes[n];
    assert Chosen(s, st.log, st.currentTerm, st.commitIndex);
    if st.commitIndex == 0 {
      LogsShareSentinel(s, st.log, u);
    } else {
      ChosenInTerm(s, st.log, st.currentTerm, st.commitIndex, u);
    }
  }

  lemma LogsShareSentinel(s: State, log: Log, u: int)
    requires TermLogsOk(s) && u in s.hist.leaders && WellFormed(log)
    ensures Agree(log, s.hist.termLogs[u], 0)
  {
    assert u in s.hist.termLogs && LogOk(s.hist.termLogs[u], u, s.hist.termLogs);
    assert log[..1] == s.hist.termLogs[u][..1];
  }

  lemma ChosenTransfers(s: State, a: Log, b: Log, term: int, term': int, x: int)
    requires Chosen(s, a, term, x) && Agree(a, b, x) && term <= term'
    ensures Chosen(s, b, term', x)
  {
    if x != 0 {
      var c :| c in s.hist.commits && c.0 in s.hist.termLogs && c.0 <= term && 0 < x <= c.1
               && Agree(a, s.hist.termLogs[c.0], x);
      assert Agree(b, s.hist.termLogs[c.0], x);
    }
  }

  /** The follower's commit rule, once the log is merged. */
  lemma HandlerCommit(st: NodeState, a: AppendEntriesArgs)
    requires |st.log| > 0
    ensures var (st', reply) := HandleAppendEntries(st, a);
            && |st'.log| > 0
            && (reply.success ==>
                  st'.commitIndex == if a.leaderCommit > st.commitIndex then Min(a.leaderCommit, LastIndex(st'.log))
                                     else st.commitIndex)
  {
    MergeNonEmpty(st.log, a.entries, LastIndex(st.log));
  }

  lemma AppendKeepsSafe(cfg: Config, s: State, m: Message)
    requires Shape(cfg, s) && LogInv(cfg, s) && LeadersComplete(s) && CommitsNonNegative(s) && SafeInv(s)
    requires Enabled(cfg, s, ReceiveAppend(m)) && NodeLogsOk(AppendNext(s, m))
    ensures SafeInv(AppendNext(s, m))
  {
    AppendAnswers(cfg, s, m);
    var (st', reply) := HandleAppendEntries(s.nodes[m.dst], m.app);
    if reply.success {
      LeaderHasCommitted(s, m.dst, m.app.term);
    }
    AnsweredKeepsSafe(s, m);
  }

  lemma AnsweredKeepsSafe(s: State, m: Message)
    requires m in s.network && m.AppendRequest? && Ready(s, m.dst) && SafeInv(s)
    requires var (st', reply) := HandleAppendEntries(s.nodes[m.dst], m.app);
             && Answers(s, AppendNext(s, m), m, st', reply)
             && (reply.success ==> Agree(s.nodes[m.dst].log, s.hist.termLogs[m.app.term], s.nodes[m.dst].commitIndex))
    requires NodeLogsOk(AppendNext(s, m))
    ensures SafeInv(AppendNext(s, m))
  {
    var (st', reply) := HandleAppendEntries(s.nodes[m.dst], m.app);
    HandlerCommit(s.nodes[m.dst], m.app);
    assert WellFormed(AppendNext(s, m).nodes[m.dst].log);
    if reply.success {
      AcceptanceKeepsCommitted(s, m, st');
      FollowerCommitChosen(s, m, st', reply);
    }
    AnswerKeepsSafe(s, AppendNext(s, m), m, st', reply);
  }

  lemma FollowerCommitChosen(s: State, m: Message, st': NodeState, reply: AppendEntriesReply)
    requires m.AppendRequest? && m.dst in s.nodes && WellFormed(st'.log)
    requires Chosen(s, st'.log, st'.currentTerm, s.nodes[m.dst].commitIndex)
    requires Chosen(s, st'.log, st'.currentTerm, m.app.leaderCommit) && m.app.leaderCommit < |st'.log|
    requires s.nodes[m.dst].commitIndex < |st'.log|
    requires st'.commitIndex == if m.app.leaderCommit > s.nodes[m.dst].commitIndex
                                then Min(m.app.leaderCommit, LastIndex(st'.log)) else s.nodes[m.dst].commitIndex
    ensures Chosen(s, st'.log, st'.currentTerm, st'.commitIndex)
    ensures s.nodes[m.dst].commitIndex <= st'.commitIndex < |st'.log|
  {
    assert LastIndex(st'.log) == |st'.log| - 1;
    assert st'.commitIndex == m.app.leaderCommit || st'.commitIndex == s.nodes[m.dst].commitIndex;
  }

  lemma AnswerKeepsSafe(s: State, s': State, m: Message, st': NodeState, reply: AppendEntriesReply)
    requires SafeInv(s) && Answers(s, s', m, st', reply) && s'.delivered == s.delivered
    requires reply.success ==>
               && Agree(s.nodes[m.dst].log, st'.log, s.nodes[m.dst].commitIndex)
               && Chosen(s, st'.log, st'.currentTerm, st'.commitIndex)
               && s.nodes[m.dst].commitIndex <= st'.commitIndex < |st'.log|
    ensures SafeInv(s')
  {
    var st := s.nodes[m.dst];
    forall n | n in s'.nodes
      ensures Chosen(s', s'.nodes[n].log, s'.nodes[n].currentTerm, s'.nodes[n].commitIndex)
      ensures n in s'.delivered && s'.nodes[n].lastApplied <= s'.nodes[n].commitIndex < |s'.nodes[n].log|
      ensures DeliveredIs(s'.nodes[n].log, s'.nodes[n].lastApplied, s'.delivered[n])
    {
      if n == m.dst && reply.success {
        ChosenGrows(s, s', st'.log, st'.log, st'.currentTerm, st'.currentTerm, st'.commitIndex);
        DeliveredKept(st.log, st'.log, st.lastApplied, st.commitIndex, s.delivered[n]);
      } else {
        ChosenGrows(s, s', s.nodes[n].log, s'.nodes[n].log, s.nodes[n].currentTerm, s'.nodes[n].currentTerm, s.nodes[n].commitIndex);
      }
    }
    forall q | q in s'.network && q.AppendRequest? ensures RequestCommitOk(s', q.app) {
      assert RequestCommitOk(s, q.app);
      var t := q.app.term;
      ChosenGrows(s, s', s.hist.termLogs[t], s'.hist.termLogs[t], t, t, q.app.leaderCommit);
    }
  }

  // ---- Delivering ----

  lemma {:induction false} DeliverIs(log: Log, lo: int, hi: int)
    requires WellFormed(log) && 0 <= lo <= hi < |log|
    ensures |Deliver(log, lo, hi)| == hi - lo
    ensures forall i :: 0 <= i < hi - lo ==> Deliver(log, lo, hi)[i] == ApplyMsg(log[lo + i + 1].command, lo + i + 1)
    decreases hi - lo
  {
    if lo < hi {
      DeliverIs(log, lo, hi - 1);
      assert Get(log, hi) == Some(log[hi]);
    }
  }

  lemma ApplyDelivers(st: NodeState, msgs: seq<ApplyMsg>)
    requires WellFormed(st.log) && st.lastApplied <= st.commitIndex < |st.log| && DeliveredIs(st.log, st.lastApplied, msgs)
    ensures var (st', more) := ApplyLogs(st);
            && st' == st.(lastApplied := st.commitIndex)
            && DeliveredIs(st.log, st.commitIndex, msgs + more)
  {
    if st.commitIndex > st.lastApplied {
      DeliverIs(st.log, st.lastApplied, st.commitIndex);
    }
  }

  lemma ApplyKeepsSafe(cfg: Config, s: State, n: NodeId)
    requires Shape(cfg, s) && NodeLogsOk(s) && SafeInv(s) && Enabled(cfg, s, Apply(n))
    ensures SafeInv(ApplyNext(s, n))
  {
    ApplyDelivers(s.nodes[n], s.delivered[n]);
    var s' := ApplyNext(s, n);
    assert s'.nodes == s.nodes[n := s.nodes[n].(lastApplied := s.nodes[n].commitIndex)];
    DeliveryKeepsSafe(s, s', n, ApplyLogs(s.nodes[n]).1);
  }

  lemma DeliveryKeepsSafe(s: State, s': State, n: NodeId, more: seq<ApplyMsg>)
    requires SafeInv(s) && n in s.nodes && n in s.delivered
    requires s' == s.(nodes := s.nodes[n := s.nodes[n].(lastApplied := s.nodes[n].commitIndex)],
                      delivered := s.delivered[n := s.delivered[n] + more])
    requires DeliveredIs(s.nodes[n].log, s.nodes[n].commitIndex, s.delivered[n] + more)
    ensures SafeInv(s')
  {
    forall k | k in s'.nodes
      ensures Chosen(s', s'.nodes[k].log, s'.nodes[k].currentTerm, s'.nodes[k].commitIndex)
    {
      ChosenGrows(s, s', s.nodes[k].log, s'.nodes[k].log, s.nodes[k].currentTerm, s'.nodes[k].currentTerm, s.nodes[k].commitIndex);
    }
    forall m | m in s'.network && m.AppendRequest? ensures RequestCommitOk(s', m.app) {
      assert RequestCommitOk(s, m.app);
      var t := m.app.term;
      ChosenGrows(s, s', s.hist.termLogs[t], s'.hist.termLogs[t], t, t, m.app.leaderCommit);
    }
  }

  lemma UneventfulStep(cfg: Config, s: State, step: Step)
    requires Shape(cfg, s) && LogInv(cfg, s) && SafeInv(s) && Enabled(cfg, s, step)
    requires !step.ReceiveAppend? && !step.ReceiveAppendResponse? && !step.Apply?
    requires Grows(s.hist.termLogs, Next(cfg, s, step).hist.termLogs)
    ensures Uneventful(s, Next(cfg, s, step))
  {
    match step
    case Timeout(n) => TimeoutUneventful(cfg, s, n);
    case ReceiveVoteRequest(m) => VoteRequestUneventful(cfg, s, m);
    case ReceiveVoteResponse(m) => VoteResponseUneventful(cfg, s, m);
    case SendAppend(n, peer) =>
      BuiltCommitOk(cfg, s, n, peer);
      SendAppendUneventful(cfg, s, n, peer);
    case ClientPropose(n, command) => ProposeUneventful(cfg, s, n, command);
  }

  lemma UneventfulStepKeepsSafe(cfg: Config, s: State, step: Step)
    requires Shape(cfg, s) && LogInv(cfg, s) && SafeInv(s) && Enabled(cfg, s, step)
    requires !step.ReceiveAppend? && !step.ReceiveAppendResponse? && !step.Apply?
    requires Grows(s.hist.termLogs, Next(cfg, s, step).hist.termLogs)
    ensures SafeInv(Next(cfg, s, step))
  {
    UneventfulStep(cfg, s, step);
    UneventfulKeepsSafe(s, Next(cfg, s, step));
  }

  lemma StepKeepsSafe(cfg: Config, s: State, step: Step, s': State)
    requires Shape(cfg, s) && LogInv(cfg, s) && CommitsNonNegative(s)
    requires LeadersComplete(s) && SafeInv(s) && Enabled(cfg, s, step) && s' == Next(cfg, s, step)
    requires Grows(s.hist.termLogs, s'.hist.termLogs)
    requires NodeLogsOk(s') && LeaderOwnsLog(s') && CommitsAreBacked(cfg, s')
    ensures SafeInv(s')
  {
    if step.ReceiveAppend? {
      AppendKeepsSafe(cfg, s, step.m);
    } else if step.ReceiveAppendResponse? {
      AppendResponseKeepsSafe(cfg, s, step.m);
    } else if step.Apply? {
      ApplyKeepsSafe(cfg, s, step.n);
    } else {
      UneventfulStepKeepsSafe(cfg, s, step);
    }
  }

  // ---- The hypothesis on a run ----

  /** A vote that is the voter's first in a term nobody has won yet goes to a candidate whose
      claimed log is at least as up to date as the voter's. */
  ghost predicate RespectsComparison(s: State, step: Step) {
    step.ReceiveVoteRequest? && step.m.VoteRequest? && Ready(s, step.m.dst)
    && DrawsBallot(s, step.m) && step.m.vote.term !in s.hist.leaders ==>
      UpToDate(step.m.vote.lastLogIndex, step.m.vote.lastLogTerm, s.nodes[step.m.dst].log)
  }

  ghost predicate RespectedBefore(b: seq<State>, steps: seq<Step>, i: nat)
    requires i <= |steps| && |b| == |steps| + 1
  {
    forall k :: 0 <= k < i ==> RespectsComparison(b[k], steps[k])
  }

  /** Recorded votes are up to date after a step exactly when they were before and the step
      respects the comparison: a candidate is always up to date with itself. */
  lemma StepVotesUpToDate(cfg: Config, s: State, step: Step)
    requires cfg.Valid() && ElectionInv(cfg, s) && NodeLogsOk(s) && Enabled(cfg, s, step)
    ensures VotesUpToDate(Next(cfg, s, step)) <==> VotesUpToDate(s) && RespectsComparison(s, step)
  {
    match step
    case Timeout(n) => TimeoutVotesUpToDate(cfg, s, n);
    case ReceiveVoteRequest(m) => VoteRequestVotesUpToDate(cfg, s, m);
    case _ => BallotsUntouched(cfg, s, step);
  }

  lemma AddedVoteUpToDate(s: State, s': State, k: (NodeId, int), b: Ballot)
    requires k !in s.hist.ballots && s'.hist.ballots == s.hist.ballots[k := b] && |b.voterLog| > 0
    ensures VotesUpToDate(s') <==> VotesUpToDate(s) && (b.open ==> UpToDate(b.lastIndex, b.lastTerm, b.voterLog))
  {
    if VotesUpToDate(s') {
      assert k in s'.hist.ballots && s'.hist.ballots[k] == b;
      forall q | q in s.hist.ballots && s.hist.ballots[q].open && |s.hist.ballots[q].voterLog| > 0
        ensures UpToDate(s.hist.ballots[q].lastIndex, s.hist.ballots[q].lastTerm, s.hist.ballots[q].voterLog)
      {
        assert q in s'.hist.ballots && s'.hist.ballots[q] == s.hist.ballots[q];
      }
    }
  }

  lemma TimeoutVotesUpToDate(cfg: Config, s: State, n: NodeId)
    requires cfg.Valid() && Shape(cfg, s) && BallotsAreVotes(cfg, s) && NodeLogsOk(s) && Enabled(cfg, s, Timeout(n))
    ensures VotesUpToDate(TimeoutNext(cfg, s, n)) <==> VotesUpToDate(s)
  {
    var term, b := TimeoutCasts(cfg, s, n);
    TimeoutStands(cfg, s, n);
    var s' := TimeoutNext(cfg, s, n);
    var b' := s'.hist.ballots[(n, s.nodes[n].currentTerm + 1)];
    AddedVoteUpToDate(s, s', (n, s.nodes[n].currentTerm + 1), b');
  }

  lemma VoteRequestVotesUpToDate(cfg: Config, s: State, m: Message)
    requires cfg.Valid() && Shape(cfg, s) && BallotsAreVotes(cfg, s) && NodeLogsOk(s)
    requires Enabled(cfg, s, ReceiveVoteRequest(m))
    ensures VotesUpToDate(VoteRequestNext(s, m)) <==> VotesUpToDate(s) && RespectsComparison(s, ReceiveVoteRequest(m))
  {
    if DrawsBallot(s, m) {
      VoteRequestCasts(cfg, s, m);
      AddedVoteUpToDate(s, VoteRequestNext(s, m), (m.dst, m.vote.term), NewBallot(s, m));
    } else {
      VoteRequestQuiet(cfg, s, m);
    }
  }

  lemma RunStepVotesUpToDate(cfg: Config, b: seq<State>, steps: seq<Step>, i: nat)
    requires cfg.Valid() && Run(cfg, b, steps) && 0 < i < |b|
    ensures VotesUpToDate(b[i]) <==> VotesUpToDate(b[i - 1]) && RespectsComparison(b[i - 1], steps[i - 1])
  {
    InvIsKept(cfg);
    forall s, step, s' | Inv(cfg, s) && Transition(cfg, s, step, s')
      ensures VotesUpToDate(s') <==> VotesUpToDate(s) && RespectsComparison(s, step)
    {
      TransitionVotesUpToDate(cfg, s, step, s');
    }
    EachStep(cfg, InvOf(cfg),
             (s: State, step: Step, s': State) => VotesUpToDate(s') <==> VotesUpToDate(s) && RespectsComparison(s, step),
             b, steps, i);
  }

  lemma TransitionVotesUpToDate(cfg: Config, s: State, step: Step, s': State)
    requires cfg.Valid() && Inv(cfg, s) && Transition(cfg, s, step, s')
    ensures VotesUpToDate(s') <==> VotesUpToDate(s) && RespectsComparison(s, step)
  {
    StepVotesUpToDate(cfg, s, step);
  }

  /** The recorded votes are up to date exactly when every step so far respected the comparison. */
  lemma {:induction false} RunVotesUpToDate(cfg: Config, b: seq<State>, steps: seq<Step>, i: nat)
    requires cfg.Valid() && Run(cfg, b, steps) && i < |b|
    ensures VotesUpToDate(b[i]) <==> RespectedBefore(b, steps, i)
  {
    if i > 0 {
      RunVotesUpToDate(cfg, b, steps, i - 1);
      RunStepVotesUpToDate(cfg, b, steps, i);
    }
  }

  // ---- Over runs ----

  lemma RunKeepsCarry(cfg: Config, b: seq<State>, steps: seq<Step>, i: nat)
    requires cfg.Valid() && Run(cfg, b, steps) && i < |b|
    ensures CarryInv(cfg, b[i])
  {
    InitCarry(cfg);
    forall s, step, s' | CarryInv(cfg, s) && Transition(cfg, s, step, s') ensures CarryInv(cfg, s') {
      TransitionKeepsCarry(cfg, s, step, s');
    }
    AlongRun(cfg, s => CarryInv(cfg, s), b, steps, i);
  }

  lemma RunLeadersComplete(cfg: Config, b: seq<State>, steps: seq<Step>, i: nat)
    requires cfg.Valid() && Run(cfg, b, steps) && i < |b| && RespectedBefore(b, steps, i)
    ensures LeadersComplete(b[i])
  {
    RunKeepsCarry(cfg, b, steps, i);
    RunVotesUpToDate(cfg, b, steps, i);
    CarryGivesChoice(cfg, b[i]);
    LeadersAreComplete(cfg, b[i]);
  }

  lemma {:induction false} RunKeepsSafe(cfg: Config, b: seq<State>, steps: seq<Step>, i: nat)
    requires cfg.Valid() && Run(cfg, b, steps) && i < |b| && RespectedBefore(b, steps, i)
    ensures SafeInv(b[i])
  {
    if i > 0 {
      RunKeepsSafe(cfg, b, steps, i - 1);
      RunStepKeepsSafe(cfg, b, steps, i);
    }
  }

  lemma RunStepKeepsSafe(cfg: Config, b: seq<State>, steps: seq<Step>, i: nat)
    requires cfg.Valid() && Run(cfg, b, steps) && 0 < i < |b| && RespectedBefore(b, steps, i) && SafeInv(b[i - 1])
    ensures SafeInv(b[i])
  {
    RunLeadersComplete(cfg, b, steps, i - 1);
    RunKeepsFull(cfg, b, steps, i - 1);
    RunKeepsFull(cfg, b, steps, i);
    RunStep(cfg, b, steps, i);
    TransitionKeepsSafe(cfg, b[i - 1], steps[i - 1], b[i]);
  }

  lemma TransitionKeepsSafe(cfg: Config, s: State, step: Step, s': State)
    requires cfg.Valid() && FullInv(cfg, s) && FullInv(cfg, s') && LeadersComplete(s) && SafeInv(s)
    requires Transition(cfg, s, step, s')
    ensures SafeInv(s')
  {
    StepGrows(cfg, s, step);
    StepKeepsSafe(cfg, s, step, s');
  }

  lemma StepKeepsCommits(cfg: Config, s: State, step: Step)
    requires Enabled(cfg, s, step)
    ensures s.hist.commits <= Next(cfg, s, step).hist.commits
  {}

  ghost predicate CommitsAccumulate(b: seq<State>) {
    forall i :: 0 < i < |b| ==> b[i - 1].hist.commits <= b[i].hist.commits
  }

  lemma {:induction false} AccumulatedCommits(b: seq<State>, i: nat, j: nat)
    requires CommitsAccumulate(b) && i <= j < |b|
    ensures b[i].hist.commits <= b[j].hist.commits
  {
    if i < j {
      AccumulatedCommits(b, i, j - 1);
    }
  }

  lemma RunKeepsCommits(cfg: Config, b: seq<State>, steps: seq<Step>, i: nat, j: nat)
    requires Run(cfg, b, steps) && i <= j < |b|
    ensures b[i].hist.commits <= b[j].hist.commits
  {
    forall k | 0 < k < |b| ensures b[k - 1].hist.commits <= b[k].hist.commits {
      RunStepKeepsCommits(cfg, b, steps, k);
    }
    AccumulatedCommits(b, i, j);
  }

  lemma RunStepKeepsCommits(cfg: Config, b: seq<State>, steps: seq<Step>, j: nat)
    requires Run(cfg, b, steps) && 0 < j < |b|
    ensures b[j - 1].hist.commits <= b[j].hist.commits
  {
    assert Transition(cfg, b[j - 1], steps[j - 1], b[j]);
    StepKeepsCommits(cfg, b[j - 1], steps[j - 1]);
  }

  /** What node n had committed at time i, seen from a later time j. */
  lemma CommittedStaysChosen(cfg: Config, b: seq<State>, steps: seq<Step>, i: nat, j: nat, n: NodeId)
    requires cfg.Valid() && Run(cfg, b, steps) && i <= j < |b| && RespectedBefore(b, steps, j) && n in b[i].nodes
    ensures 0 <= b[i].nodes[n].commitIndex < |b[i].nodes[n].log| && WellFormed(b[i].nodes[n].log)
    ensures Chosen(b[j], b[i].nodes[n].log, b[i].nodes[n].currentTerm, b[i].nodes[n].commitIndex)
  {
    RunKeepsSafe(cfg, b, steps, i);
    RunGrows(cfg, b, steps, i, j);
    RunKeepsCommits(cfg, b, steps, i, j);
    LogStaysSound(cfg, b, steps, i, j, n);
    RunCommitNonNegative(cfg, b, steps, i, n);
    var st := b[i].nodes[n];
    ChosenGrows(b[i], b[j], st.log, st.log, st.currentTerm, st.currentTerm, st.commitIndex);
  }

  lemma RunCommitNonNegative(cfg: Config, b: seq<State>, steps: seq<Step>, i: nat, n: NodeId)
    requires cfg.Valid() && Run(cfg, b, steps) && i < |b| && n in b[i].nodes
    ensures b[i].nodes[n].commitIndex >= 0
  {
    RunKeepsFull(cfg, b, steps, i);
  }

  /** Two chosen prefixes never contradict each other. */
  lemma ChosenAgree(s: State, a: Log, b: Log, term: int, term': int, x: int, y: int)
    requires LeadersComplete(s) && CommitTermsWon(s)
    requires Chosen(s, a, term, x) && Chosen(s, b, term', y) && 0 < x <= y
    ensures Agree(a, b, x)
  {
    var c := ChosenBy(s, a, term, x);
    var d := ChosenBy(s, b, term', y);
    var E := s.hist.termLogs;
    if c.0 <= d.0 {
      assert HasChosen(s, d.0, c);
      AgreeVia(a, E[c.0], E[d.0], x, c.1);
      AgreeVia(a, E[d.0], b, x, y);
    } else {
      assert HasChosen(s, c.0, d);
      AgreeVia(b, E[d.0], E[c.0], y, d.1);
      AgreeVia(a, E[c.0], b, x, y);
    }
  }

  ghost predicate CommitTermsWon(s: State) {
    forall c :: c in s.hist.commits ==> c.0 in s.hist.leaders
  }

  lemma RunCommitTermsWon(cfg: Config, b: seq<State>, steps: seq<Step>, j: nat)
    requires cfg.Valid() && Run(cfg, b, steps) && j < |b|
    ensures CommitTermsWon(b[j])
  {
    RunKeepsFull(cfg, b, steps, j);
  }

  /** Committed prefixes agree between any two nodes at any two moments of the run. */
  lemma CommittedPrefixesAgree(cfg: Config, b: seq<State>, steps: seq<Step>, i: nat, j: nat, n: NodeId, k: NodeId)
    requires cfg.Valid() && Run(cfg, b, steps) && i < |b| && j < |b|
    requires RespectedBefore(b, steps, i) && RespectedBefore(b, steps, j)
    requires n in b[i].nodes && k in b[j].nodes
    requires b[i].nodes[n].commitIndex <= b[j].nodes[k].commitIndex
    ensures Agree(b[i].nodes[n].log, b[j].nodes[k].log, b[i].nodes[n].commitIndex)
  {
    var last := if i <= j then j else i;
    CommittedStaysChosen(cfg, b, steps, i, last, n);
    CommittedStaysChosen(cfg, b, steps, j, last, k);
    var st, st' := b[i].nodes[n], b[j].nodes[k];
    if st.commitIndex == 0 {
      assert st.log[..1] == st'.log[..1];
    } else {
      RunLeadersComplete(cfg, b, steps, last);
      RunCommitTermsWon(cfg, b, steps, last);
      ChosenAgree(b[last], st.log, st'.log, st.currentTerm, st'.currentTerm, st.commitIndex, st'.commitIndex);
    }
  }

  /** Leader Completeness: whatever any node has committed by time i is in the log of every
      node that leads the same or a later term at time j. */
  lemma LeaderCompletenessOverRuns(cfg: Config, b: seq<State>, steps: seq<Step>, i: nat, j: nat, n: NodeId, k: NodeId)
    requires cfg.Valid() && Run(cfg, b, steps) && i <= j < |b| && RespectedBefore(b, steps, j)
    requires n in b[i].nodes && k in b[j].nodes && b[j].nodes[k].role == Leader
    requires b[i].nodes[n].currentTerm <= b[j].nodes[k].currentTerm
    ensures Agree(b[i].nodes[n].log, b[j].nodes[k].log, b[i].nodes[n].commitIndex)
  {
    CommittedStaysChosen(cfg, b, steps, i, j, n);
    RunLeadersComplete(cfg, b, steps, j);
    LeaderLogIsTermLog(cfg, b, steps, j, k);
    var st, u := b[i].nodes[n], b[j].nodes[k].currentTerm;
    if st.commitIndex == 0 {
      assert st.log[..1] == b[j].nodes[k].log[..1];
    } else {
      ChosenInTerm(b[j], st.log, st.currentTerm, st.commitIndex, u);
    }
  }

  lemma LeaderLogIsTermLog(cfg: Config, b: seq<State>, steps: seq<Step>, j: nat, k: NodeId)
    requires cfg.Valid() && Run(cfg, b, steps) && j < |b| && k in b[j].nodes && b[j].nodes[k].role == Leader
    ensures var u := b[j].nodes[k].currentTerm;
            u in b[j].hist.leaders && u in b[j].hist.termLogs && b[j].hist.termLogs[u] == b[j].nodes[k].log
            && WellFormed(b[j].nodes[k].log)
  {
    RunKeepsInv(cfg, b, steps, j);
  }

  /** State Machine Safety: no two nodes ever deliver different commands at one position. */
  lemma StateMachineSafety(cfg: Config, b: seq<State>, steps: seq<Step>, i: nat, j: nat, n: NodeId, k: NodeId, x: nat)
    requires cfg.Valid() && Run(cfg, b, steps) && i < |b| && j < |b|
    requires RespectedBefore(b, steps, i) && RespectedBefore(b, steps, j)
    requires n in b[i].delivered && k in b[j].delivered
    requires x < |b[i].delivered[n]| && x < |b[j].delivered[k]|
    ensures b[i].delivered[n][x] == b[j].delivered[k][x]
    ensures b[i].delivered[n][x].commandIndex == x + 1
  {
    DeliveredFromLog(cfg, b, steps, i, n, x);
    DeliveredFromLog(cfg, b, steps, j, k, x);
    if b[i].nodes[n].commitIndex <= b[j].nodes[k].commitIndex {
      CommittedPrefixesAgree(cfg, b, steps, i, j, n, k);
      AgreeDown(b[i].nodes[n].log, b[j].nodes[k].log, b[i].nodes[n].commitIndex, x + 1);
    } else {
      CommittedPrefixesAgree(cfg, b, steps, j, i, k, n);
      AgreeDown(b[j].nodes[k].log, b[i].nodes[n].log, b[j].nodes[k].commitIndex, x + 1);
    }
  }

  lemma DeliveredFromLog(cfg: Config, b: seq<State>, steps: seq<Step>, i: nat, n: NodeId, x: nat)
    requires cfg.Valid() && Run(cfg, b, steps) && i < |b| && RespectedBefore(b, steps, i)
    requires n in b[i].delivered && x < |b[i].delivered[n]|
    ensures n in b[i].nodes && x + 1 <= b[i].nodes[n].commitIndex < |b[i].nodes[n].log|
    ensures b[i].delivered[n][x] == ApplyMsg(b[i].nodes[n].log[x + 1].command, x + 1)
  {
    RunKeepsSafe(cfg, b, steps, i);
    RunShape(cfg, b, steps, i);
  }

  lemma RunShape(cfg: Config, b: seq<State>, steps: seq<Step>, i: nat)
    requires cfg.Valid() && Run(cfg, b, steps) && i < |b|
    ensures b[i].nodes.Keys == cfg.Ids() == b[i].delivered.Keys
  {
    RunKeepsInv(cfg, b, steps, i);
  }
}
