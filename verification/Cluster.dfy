/** A cluster of Raft nodes over an unreliable network: messages are only ever added, so any
    of them may be delivered late, out of order, repeatedly or never. */
module Cluster {
  import opened RaftLog
  import opened RaftNode

  datatype Message =
    | VoteRequest(src: NodeId, dst: NodeId, vote: RequestVoteArgs)
    | VoteResponse(src: NodeId, dst: NodeId, reqTerm: int, voteReply: RequestVoteReply)
    | AppendRequest(src: NodeId, dst: NodeId, app: AppendEntriesArgs)
    | AppendResponse(src: NodeId, dst: NodeId, app: AppendEntriesArgs, appReply: AppendEntriesReply)

  /** A vote as it was cast: for whom, with which log, on which claim about the candidate's
      log, and whether the term still had no leader. */
  datatype Ballot = Ballot(candidate: NodeId, voterLog: Log, lastIndex: int, lastTerm: int, open: bool)

  /** What happened so far; no step reads it. */
  datatype History = History(
    ballots: map<(NodeId, int), Ballot>,      // first vote of a node in a term
    candidateLogs: map<(NodeId, int), Log>,   // log of a node when it stood for a term
    leaders: map<int, NodeId>,                // who won a term
    termLogs: map<int, Log>,                  // the log of a term's leader, as far as it got
    acks: map<(NodeId, int), int>,            // how far a node confirmed a term's log
    commits: set<(int, int)>)                 // (term, index) chosen by a leader's commit rule

  datatype State = State(
    nodes: map<NodeId, NodeState>,
    network: set<Message>,
    calls: set<(NodeId, int, NodeId)>,        // vote goroutines still waiting: candidate, term, peer
    delivered: map<NodeId, seq<ApplyMsg>>,    // what each node sent on its apply channel
    hist: History)

  datatype Step =
    | Timeout(n: NodeId)
    | ReceiveVoteRequest(m: Message)
    | ReceiveVoteResponse(m: Message)
    | SendAppend(n: NodeId, peer: NodeId)
    | ReceiveAppend(m: Message)
    | ReceiveAppendResponse(m: Message)
    | ClientPropose(n: NodeId, command: Command)
    | Apply(n: NodeId)

  function Init(cfg: Config): State {
    State(map n | n in cfg.Ids() :: INIT, {}, {}, map n | n in cfg.Ids() :: [],
          History(map[], map[], map[], map[0 := [SENTINEL]], map[], {}))
  }

  /** The node exists; its log is usable (an invariant, never a restriction). */
  predicate Ready(s: State, n: NodeId) {
    n in s.nodes && n in s.delivered && Contiguous(s.nodes[n].log)
  }

  predicate Enabled(cfg: Config, s: State, step: Step) {
    match step
    case Timeout(n) => Ready(s, n) && s.nodes[n].role != Leader
    case ReceiveVoteRequest(m) => m in s.network && m.VoteRequest? && Ready(s, m.dst)
    case ReceiveVoteResponse(m) =>
      m in s.network && m.VoteResponse? && Ready(s, m.dst) && (m.dst, m.reqTerm, m.src) in s.calls
    case SendAppend(n, peer) => Ready(s, n) && s.nodes[n].role == Leader && peer in cfg.Ids() && peer != n
    case ReceiveAppend(m) => m in s.network && m.AppendRequest? && Ready(s, m.dst)
    case ReceiveAppendResponse(m) => m in s.network && m.AppendResponse? && Ready(s, m.dst)
    case ClientPropose(n, _) => Ready(s, n)
    case Apply(n) => Ready(s, n)
  }

  function Max(a: int, b: int): int {
    if a > b then a else b
  }

  function Ack(acks: map<(NodeId, int), int>, n: NodeId, term: int, index: int): map<(NodeId, int), int> {
    acks[(n, term) := if (n, term) in acks then Max(acks[(n, term)], index) else index]
  }

  function TimeoutNext(cfg: Config, s: State, n: NodeId): State
    requires Ready(s, n)
  {
    var (st, args) := StartElection(n, s.nodes[n]);
    var h := s.hist;
    s.(nodes := s.nodes[n := st],
       network := s.network + (set p | p in cfg.Ids() && p != n :: VoteRequest(n, p, args)),
       calls := s.calls + (set p | p in cfg.Ids() && p != n :: (n, args.term, p)),
       hist := h.(
         ballots := h.ballots[(n, args.term) :=
           Ballot(n, st.log, args.lastLogIndex, args.lastLogTerm, args.term !in h.leaders)],
         candidateLogs := h.candidateLogs[(n, args.term) := st.log]))
  }

  function VoteRequestNext(s: State, m: Message): State
    requires m.VoteRequest? && Ready(s, m.dst)
  {
    var (st, reply) := HandleRequestVote(s.nodes[m.dst], m.vote);
    var h := s.hist;
    var key := (m.dst, m.vote.term);
    s.(nodes := s.nodes[m.dst := st],
       network := s.network + {VoteResponse(m.dst, m.src, m.vote.term, reply)},
       hist := h.(ballots :=
         if reply.voteGranted && key !in h.ballots
         then h.ballots[key := Ballot(m.vote.candidateID, st.log, m.vote.lastLogIndex, m.vote.lastLogTerm,
                                      m.vote.term !in h.leaders)]
         else h.ballots))
  }

  function VoteResponseNext(cfg: Config, s: State, m: Message): State
    requires m.VoteResponse? && Ready(s, m.dst)
  {
    var n := m.dst;
    var st := HandleVoteReply(cfg, n, s.nodes[n], m.reqTerm, m.voteReply);
    var h := s.hist;
    var won := st.role == Leader && s.nodes[n].role != Leader;
    s.(nodes := s.nodes[n := st],
       calls := s.calls - {(n, m.reqTerm, m.src)},
       hist := if !won then h else h.(
         leaders := h.leaders[st.currentTerm := n],
         termLogs := h.termLogs[st.currentTerm := st.log],
         acks := Ack(h.acks, n, st.currentTerm, |st.log| - 1)))
  }

  function SendAppendNext(s: State, n: NodeId, peer: NodeId): State
    requires Ready(s, n)
  {
    s.(network := s.network + {AppendRequest(n, peer, BuildAppendEntries(n, s.nodes[n], peer))})
  }

  function AppendNext(s: State, m: Message): State
    requires m.AppendRequest? && Ready(s, m.dst)
  {
    var (st, reply) := HandleAppendEntries(s.nodes[m.dst], m.app);
    var h := s.hist;
    s.(nodes := s.nodes[m.dst := st],
       network := s.network + {AppendResponse(m.dst, m.src, m.app, reply)},
       hist := if !reply.success then h else
         h.(acks := Ack(h.acks, m.dst, m.app.term, m.app.prevLogIndex + |m.app.entries|)))
  }

  function AppendResponseNext(cfg: Config, s: State, m: Message): State
    requires m.AppendResponse? && Ready(s, m.dst)
  {
    var n := m.dst;
    var st := HandleAppendReply(cfg, n, s.nodes[n], m.src, m.app, m.appReply);
    var h := s.hist;
    s.(nodes := s.nodes[n := st],
       hist := if st.commitIndex == s.nodes[n].commitIndex then h else
         h.(commits := h.commits + {(st.currentTerm, st.commitIndex)}))
  }

  function ProposeNext(s: State, n: NodeId, command: Command): State
    requires Ready(s, n)
  {
    var (st, r) := Propose(s.nodes[n], command);
    var h := s.hist;
    s.(nodes := s.nodes[n := st],
       hist := if !r.isLeader then h else h.(
         termLogs := h.termLogs[st.currentTerm := st.log],
         acks := Ack(h.acks, n, st.currentTerm, |st.log| - 1)))
  }

  function ApplyNext(s: State, n: NodeId): State
    requires Ready(s, n)
  {
    var (st, msgs) := ApplyLogs(s.nodes[n]);
    s.(nodes := s.nodes[n := st], delivered := s.delivered[n := s.delivered[n] + msgs])
  }

  function Next(cfg: Config, s: State, step: Step): State
    requires Enabled(cfg, s, step)
  {
    match step
    case Timeout(n) => TimeoutNext(cfg, s, n)
    case ReceiveVoteRequest(m) => VoteRequestNext(s, m)
    case ReceiveVoteResponse(m) => VoteResponseNext(cfg, s, m)
    case SendAppend(n, peer) => SendAppendNext(s, n, peer)
    case ReceiveAppend(m) => AppendNext(s, m)
    case ReceiveAppendResponse(m) => AppendResponseNext(cfg, s, m)
    case ClientPropose(n, command) => ProposeNext(s, n, command)
    case Apply(n) => ApplyNext(s, n)
  }

  predicate Transition(cfg: Config, s: State, step: Step, s': State) {
    Enabled(cfg, s, step) && s' == Next(cfg, s, step)
  }

  /** States b[0], b[1], ... of one run, linked by its steps. */
  predicate Run(cfg: Config, b: seq<State>, steps: seq<Step>) {
    && |b| == |steps| + 1
    && b[0] == Init(cfg)
    && forall i :: 0 <= i < |steps| ==> Transition(cfg, b[i], steps[i], b[i + 1])
  }

  lemma RunStep(cfg: Config, b: seq<State>, steps: seq<Step>, i: nat)
    requires Run(cfg, b, steps) && 0 < i < |b|
    ensures Transition(cfg, b[i - 1], steps[i - 1], b[i])
  {}

  ghost predicate KeptByAll(cfg: Config, P: State -> bool) {
    forall s, step, s' :: P(s) && Transition(cfg, s, step, s') ==> P(s')
  }

  /** What holds at the start and is kept by every step holds throughout. */
  lemma {:induction false} AlongRun(cfg: Config, P: State -> bool, b: seq<State>, steps: seq<Step>, i: nat)
    requires Run(cfg, b, steps) && i < |b| && P(Init(cfg)) && KeptByAll(cfg, P)
    ensures P(b[i])
  {
    if i > 0 {
      AlongRun(cfg, P, b, steps, i - 1);
      RunStep(cfg, b, steps, i);
    }
  }

  ghost predicate DoneByAll(cfg: Config, P: State -> bool, R: (State, Step, State) -> bool) {
    forall s, step, s' :: P(s) && Transition(cfg, s, step, s') ==> R(s, step, s')
  }

  /** What every step does from states in which P holds, every step of a run does. */
  lemma EachStep(cfg: Config, P: State -> bool, R: (State, Step, State) -> bool, b: seq<State>, steps: seq<Step>, i: nat)
    requires Run(cfg, b, steps) && 0 < i < |b| && P(Init(cfg)) && KeptByAll(cfg, P) && DoneByAll(cfg, P, R)
    ensures R(b[i - 1], steps[i - 1], b[i])
  {
    AlongRun(cfg, P, b, steps, i - 1);
    RunStep(cfg, b, steps, i);
  }
}
