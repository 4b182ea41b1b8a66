# Verified models of the Beaver-Raft core

Beaver-Raft is a job queue in Go whose state survives crashes: a controller drives a table of
jobs, logs every change ahead of making it, recovers from a snapshot and that log, and can
replicate its commands through its own Raft implementation. This project models the three parts
in which correctness depends on many steps at once, and proves what they keep over all runs.
`dafny verify dfyconfig.toml` checks everything.

## The Raft node as a distributed system

`RaftLog` and `RaftServer` are the log store and the node as objects: every method is one
lock-held section of `internal/raft`, and its contract equates the new state with a step function
of `RaftNode`. `Cluster` runs those step functions on any number of nodes over a network that only
accumulates messages, so that any of them may be late, reordered, repeated or lost. A step is an
election timeout, a vote request or its reply, building, handling or answering an append request,
a client's proposal, or applying. The state also carries a history (votes as cast, leaders and
their logs, confirmations, chosen entries) that no step reads. The theorems follow "In Search of
an Understandable Consensus Algorithm", sections 5.2 to 5.4:

- `ElectionSafety`, `LogMatching` (with Leader Append-Only) and `CommitQuorum` hold on every run.
- `LeaderCompleteness` and `StateMachineSafety` need a hypothesis on the run. The vote handler has
  the log comparison of section 5.4.1 switched off (`isUpToDate := true`, internal/raft/rpc.go:40),
  although README.md:101 promises strict adherence to the Raft invariants. The model keeps the
  handler as it is. `RespectsComparison` asks of a run that a vote which is the voter's first in a
  term that nobody has won yet goes to a candidate at least as up to date as the voter.
  `RunVotesUpToDate` shows this to be the same as the recorded votes being up to date, and
  `SafetyNeedsTheComparison` is a run that does without it and delivers two different commands at
  one index.
- `Delivery` says exactly when what reaches the apply channel has no gap, and `LogRepair` bounds
  the refused replication rounds under a stable leader.
- Safety alone would also be kept by a node that does too little. `Elections` shows that votes are
  counted exactly and that more than half of them make a leader; `CommitProgress` that a leader
  commits everything of its term it knows to be on more than half of the peers; `StepRules` what
  every step does to terms, roles, votes, requests, answers and deliveries, told by the run's
  history and the messages. `Availability` joins them: no reachable state is a dead end, since any
  majority can on its own elect, commit and deliver from there.

Nodes share one duplicate-free peer list with real IDs (`Config.Valid`); that every
reachable node is `Ready` is proved, so readiness never holds a step back.

## The job table, its controller and recovery

`Jobs` holds the transitions of the table with its queue and three indexes, `ControllerSteps` the
controller's lock-held sections on it and on the log; `JobServer` and `ControllerServer` are the
objects that share and change job records in place, proved against those functions. `JobSystem`
interleaves any number of dispatchers (pop, log and mark are three sections) with new jobs, worker
results of any job at any time, sweeps, polls and committed commands; appends to the log may fail.

- `Conservation` and `Lifecycle`: no job is lost on any run; completion is final, and all indexes
  are exact, exactly as long as no late failure hits a completed job that is out of retries. That
  can happen wherever results are handled locally, also on the master that internal/cli/cli.go:291
  starts without a Raft node; a master whose server has one makes no such step.
- `JobMoves` says what each section does to one job's record, told by that record: when a sweep
  takes a job, whose deadline a job in flight has, what a result counts for. `Provenance` carries
  ID, payload and timeout of every job back to the request that added it, through snapshots of
  either kind and restarts over any log. `JobProgress`: whatever is not settled can still be
  completed.
- `ReplayByJob`: replaying a log decomposes into one replay per job, so the interleaving of
  different jobs' events is irrelevant.
- `Tracking`, `Fidelity`, `OrderlyRuns`, `Recovery`: in orderly runs (no failed append, outcomes
  only of jobs in flight, no verdict from elsewhere) from any moment at which the log is empty and
  every pending job is in one place, the log accounts for every job at every later moment, those
  added meanwhile included. Dispatchers may be anywhere in their batches then; a job whose dispatch
  was logged before is accounted for as well, by what replay will refuse. From that follow exactly
  when replay succeeds, which status and attempt count each job recovers, and the retry bound.
  Whatever the log, a recovery that completes ends with exactly the jobs of the snapshot.
- `Rotation` and `RotationLoss`: the snapshot is copied under the lock and the log rotated later
  without it. The copy still stands at the rotation exactly under a condition on what happened in
  between and on the dispatchers' hands; and it serves every later recovery exactly if it stands.
  Two runs show what is lost otherwise.
- `RecoveredQueue`: how often each job is in the queue after a recovery. Replay takes nothing off
  the queue, so each replayed dispatch leaves its job in it once too often; a run shows that the
  log may then fail to replay even over a new snapshot.
- `StrayResults` and `RedispatchAfterRecovery` show where this stops: a late success makes the log
  unreplayable, a late failure undoes a completion, and a second crash before the next snapshot
  meets a log that no longer replays once an in-flight job was dispatched again. The header of
  internal/controller/controller.go promises idempotent recovery without these limits; the model
  follows the code.
- `CommandLog`: when applying committed commands twice equals applying them once. `Replicas`: when
  two controllers fed the same commands agree, and why a follower never completes a job that only
  the leader dispatched. `ReplicatedTables` joins this with the Raft theorems: what the controllers
  have applied are prefixes of one command list. `PartialSnapshots`: dropping settled jobs from a
  snapshot changes nothing for all others.

## The group-commit log

`GroupCommit` is the write-ahead log as a step system of appenders, bounded channel, batch writer,
rotation and close, with faults at any point; `WalServer` holds the objects: the writer's loop, the
flush of one batch, rotation, and the lemmas that tie the two together. Batching agrees with a
plain one-at-a-time log, and an append that returned nil is on disk. Sequence numbers are drawn
before a request is sent and restart at rotation, so the file is not in their order.
`WalProgress` counts them, and says what the log can always still do while its writer runs and what
it never does again after its end.

Functions that only compute have no row below: each is the specification of the method, or the
subject of the lemma, that has one.

## Model

| member | source | states |
|---|---|---|
| `RaftLog.GetFindsByIndex` | internal/raft/log.go:60-70 | On a contiguous store, lookup by offset returns an entry exactly when it is the one stored entry with that index, and fails exactly when no entry has it. |
| `RaftLog.DeleteSelects` | internal/raft/log.go:86-100 | Range deletion keeps exactly the entries whose index lies outside the range. |
| `RaftLog.DeleteSplits` | internal/raft/log.go:86-100 | What survives of a contiguous run is the part before the range followed by the part after it. |
| `RaftLog.DeleteSuffix` | internal/raft/log.go:86-100 | Deleting from an index to the last one, as the follower does, is truncation. |
| `RaftLog.DeleteKeepsContiguity` | internal/raft/log.go:86-100 | A deletion leaves a contiguous store if and only if something survives and the range is not a hole strictly inside; then every surviving lookup is unchanged. |
| `RaftLog.AppendKeepsContiguity` | internal/raft/log.go:76-84 | Appending consecutive indices keeps the store contiguous, changes no lookup and makes each new entry findable. |
| `RaftLog.MemoryLogStore.constructor` | internal/raft/log.go:41-46 | A new store holds the dummy entry at index 0. |
| `RaftLog.MemoryLogStore.GetLog` | internal/raft/log.go:60-70 | The method returns what offset lookup on its entries gives. |
| `RaftLog.MemoryLogStore.StoreLogs` | internal/raft/log.go:76-84 | The loop appends the given entries, in order, and nothing else. |
| `RaftLog.MemoryLogStore.DeleteRange` | internal/raft/log.go:86-100 | The rebuilding loop leaves exactly the selected entries, in order. |
| `RaftNode.HighestCommittable` | internal/raft/raft.go:261-278 | The commit rule yields the old commit index, or a committable index above it and within the log. |
| `RaftNode.HighestIsHighest` | internal/raft/raft.go:263-277 | No committable index above the chosen one is passed over. |
| `RaftServer.Raft.constructor` | internal/raft/raft.go:97-112 | A new node is a follower in term 0 with no vote over its store. |
| `RaftServer.Raft.BecomeFollower` | internal/raft/raft.go:153-158 | Steps down into a term and forgets the vote; the whole new state is given. |
| `RaftServer.Raft.BecomeLeader` | internal/raft/raft.go:160-178 | Becomes leader with nextIndex just past the log and matchIndex 0 for every other peer; a leader is left alone. |
| `RaftServer.Raft.ElectionTimeout` | internal/raft/raft.go:127-134 | On a tick a non-leader starts an election in the next term with its own vote; a leader does nothing. |
| `RaftServer.Raft.RequestVote` | internal/raft/rpc.go:18-50 | The vote handler computes the step function on the whole node state and the reply. |
| `RaftServer.Raft.ReceiveVoteReply` | internal/raft/raft.go:327-344 | A vote reply computes the step function on the whole node state; it is counted only by a candidate still in the term it asked for. Whom it elects is StepRules.ElectedIff, whom it deposes StepRules.TermsAreAdopted. |
| `RaftServer.Raft.PrepareAppend` | internal/raft/raft.go:189-230 | The request built for a peer, entry by entry, is the one the step function gives. |
| `RaftServer.Raft.MergeLoop` | internal/raft/rpc.go:103-120 | The conflict loop over the entries leaves the merged log of the specification. |
| `RaftServer.Raft.AppendEntries` | internal/raft/rpc.go:69-135 | The follower handler computes the step function: term, leader, consistency check, merge, commit index, reply. |
| `RaftServer.Raft.AdvanceCommitIndex` | internal/raft/raft.go:261-278 | The downward search sets the commit index the commit rule specifies; that this leaves nothing behind is CommitProgress.NothingLeftBehind. |
| `RaftServer.Raft.ReceiveAppendReply` | internal/raft/raft.go:237-258 | A replication reply computes the step function on the whole node state: the peer's indices and the commit index, or the later term (StepRules.TermsAreAdopted, StepRules.ReplyIsNoted). |
| `RaftServer.Raft.ProposeCommand` | internal/raft/raft.go:372-395 | A leader appends the command at the next index of its term and reports both; others answer -1. |
| `RaftServer.Raft.ApplyCommitted` | internal/raft/raft.go:280-296 | The apply loop advances lastApplied to the commit index and sends the entries found on the way. |
| `AppendMerge.AcceptedRequestMerges` | internal/raft/rpc.go:103-120 | After an accepted request the log is well formed, has every entry of the request by index and term, keeps every matching entry and truncates only at the first term conflict. |
| `AppendMerge.MergeWindowOf` | internal/raft/rpc.go:90-120 | Merging a window of a log that term-matches ours: we agree with it through the window and lose no index on which we agreed. |
| `AppendMerge.CommitRuleMatchesPaper` | internal/raft/rpc.go:122-132 | Taking the log's last index gives the paper's min(leaderCommit, last new entry) if and only if leaderCommit stays within the window or the log ends with it. |
| `LogMatching.BuiltRequestIsWindow` | internal/raft/raft.go:196-229 | Every request a leader builds is an exact window of its log reaching the log's end. |
| `ElectionSafety.UndrawnChangesNothing` | internal/raft/rpc.go:22-50 | A request that draws no new vote leaves the voter's state as it was. |
| `ElectionSafety.WinnerHasMajority` | internal/raft/raft.go:339-343 | A candidate that becomes leader has the recorded votes of more than half of the peers, and nobody has won its term before. |
| `ElectionSafety.StepKeepsElection` | internal/raft/raft.go:298-347 | Every step of the cluster keeps the voting invariant: one recorded vote per node and term, each reply counted once. |
| `ElectionSafety.WinnersAreForever` | internal/raft/raft.go:298-347 | Once a term has a winner no later step of the run records another. |
| `ElectionSafety.ElectionSafety` | internal/raft/raft.go:298-347 | Election Safety: at any two moments of any run, two leaders of one term are the same node. |
| `Elections.MajorityIsHalf` | internal/raft/raft.go:341-342 | The test for a majority asks for more than half of the peers, whatever their number. |
| `Elections.CountIsExact` | internal/raft/raft.go:298-347 | At every moment of every run a candidate has counted its own vote and each vote it was sent in its term, once. |
| `Elections.CandidateLacksMajority` | internal/raft/raft.go:339-343 | Among two or more peers nobody stays a candidate with more than half of the votes: whoever still is one has not been sent them. |
| `Elections.LeaderWasElected` | internal/raft/raft.go:327-344 | On every reachable state a leader has the recorded votes of its term from more than half of the peers. |
| `Elections.SingleNodeNeverLeads` | internal/raft/raft.go:314-344 | A node that is its own only peer is never elected, since the test is made on replies alone. |
| `StepRules.TermsAreAdopted` | internal/raft/raft.go:244-247 | On every run, a later term named by any message a node heeds becomes its term and makes it a follower that has voted for nobody but a candidate that just asked; nothing else but its own timeout moves term, role or vote, save that votes make it leader. |
| `StepRules.StepsKeepApart` | internal/raft/raft.go:122-395 | On every run each step leaves alone what it is not for: other nodes, and of its own node log, known leader, commit index, applied index and peer indices, each of which has the only steps that may move it. |
| `StepRules.TimeoutStands` | internal/raft/raft.go:298-327 | A timeout moves a non-leader to the next term with its own vote and asks every other peer, naming the last entry of its log. |
| `StepRules.VoteIsGrantedIff` | internal/raft/rpc.go:18-50 | A vote is granted if and only if the term is not past and the run has not given the voter's vote of that term to another candidate; the reply names the term the voter is in then. |
| `StepRules.ElectedIff` | internal/raft/raft.go:327-344 | A candidate that hears back in its term leads from then on if and only if its own vote and those it was sent so far are more than half of the peers. |
| `StepRules.WinnerStartsAfresh` | internal/raft/raft.go:160-174 | A new leader keeps its log and starts every other peer at the log's end, with nothing known of it. |
| `LogMatching.StepKeepsLogs` | internal/raft/raft.go:189-259 | Every step keeps all logs and all requests in flight sound against the logs of the leaders that made their entries. |
| `LogMatching.ReachableIsReady` | internal/raft/log.go:60-70 | Every node of every reachable state has a log on which lookup by index works. |
| `LogMatching.LogMatching` | internal/raft/rpc.go:90-120 | Log Matching: the logs of two nodes at any two moments of any run are identical up to any index where their terms agree. |
| `LogMatching.RequestMatchesLog` | internal/raft/rpc.go:90-120 | A log that has the term of an entry in flight at its index has the request's entries and previous entry up to it. |
| `LogMatching.LeaderHoldsItsTerm` | internal/raft/raft.go:372-395 | A leader holds every entry any node ever had from its term, with the same prefix. |
| `LogMatching.LeaderAppendOnly` | internal/raft/raft.go:372-395 | Leader Append-Only: between two moments at which a node leads one term its log only grew. |
| `StepRules.RequestCarriesRest` | internal/raft/raft.go:196-229 | A request to a peer starts at its next index, or the log's end if less, names the entry before and its term, and carries everything from there on and the commit index. |
| `StepRules.AppendIsAnswered` | internal/raft/rpc.go:69-135 | A request is accepted if and only if its term is not past and the log holds the entry before its window; the answer names the term the node was in before; the commit index moves as far as the leader's, up to the log's end. |
| `StepRules.ReplyIsNoted` | internal/raft/raft.go:249-258 | A reply of no later term sets the peer's match and next index to what it confirmed, or moves the next index back by one, never below 1. |
| `CommitQuorum.StepKeepsQuorum` | internal/raft/raft.go:240-278 | Every step keeps recorded confirmations true of the logs of nodes still in the term, and committed pairs backed by a majority. |
| `CommitQuorum.AckWasHeld` | internal/raft/rpc.go:69-135 | Whatever a node confirmed in a term it really held, at some moment while in that term, as the term's leader log had it. |
| `CommitQuorum.MatchIndexIsHeld` | internal/raft/raft.go:249-252 | While a peer is still in the leader's term its log equals the leader's up to matchIndex, stale replies included. |
| `CommitQuorum.CommitIsQuorumBacked` | internal/raft/raft.go:261-278 | When a leader raises its commit index to n, entry n is of its term, and more than half of the peers each held its exact prefix up to n while in that term. |
| `CommitProgress.NothingLeftBehind` | internal/raft/raft.go:261-278 | At every moment of every run a leader has committed every entry of its term that it knows to be on more than half of the peers. |
| `LeaderCompleteness.UpToDateHasPrefix` | internal/raft/rpc.go:38-42 | A log at least as up to date as one holding a chosen prefix holds that prefix too, if all leaders in between do. |
| `LeaderCompleteness.ChosenInLaterLeaders` | internal/raft/rpc.go:38-50 | If the recorded votes respect the comparison, every leader of a later term has every chosen prefix. |
| `StateMachineSafety.RunVotesUpToDate` | internal/raft/rpc.go:38-42 | The recorded votes are up to date if and only if every vote cast so far respected the comparison that the handler leaves out. |
| `StateMachineSafety.CommittedPrefixesAgree` | internal/raft/raft.go:261-278 | On runs that respect the comparison, what two nodes have committed at any two moments agrees on the shorter part. |
| `StateMachineSafety.LeaderCompletenessOverRuns` | internal/raft/raft.go:261-278 | Leader Completeness: on such runs a later leader has everything any node had committed in that or an earlier term. |
| `StateMachineSafety.StateMachineSafety` | internal/raft/raft.go:280-296 | State Machine Safety: on such runs two nodes never deliver different commands at one index. |
| `UnsafeRun.SafetyNeedsTheComparison` | internal/raft/rpc.go:40-43 | Without the comparison it fails: a run of seventeen steps of the handlers after which two nodes have delivered different commands at index 1. |
| `Delivery.DeliveryInOrder` | internal/raft/raft.go:280-296 | On every run delivered indices strictly increase; they are 1, 2, 3, ... up to lastApplied if and only if no apply met a commit index beyond the log's end. |
| `Delivery.CommitIndexRises` | internal/raft/rpc.go:122-132 | On runs that respect the comparison no node's commit index ever decreases. |
| `Delivery.CommittedIsPermanent` | internal/raft/rpc.go:103-132 | On such runs the commit index stays within the log and the committed prefix is never changed. |
| `StepRules.ProposalIsIdentified` | internal/raft/raft.go:372-395 | A proposal to a leader is stored at the index and term returned, and whatever log of the run holds an entry of that index and term holds that command; any other node answers -1 and changes nothing. |
| `StepRules.ApplyCatchesUp` | internal/raft/raft.go:280-296 | An apply step leaves nothing committed unapplied and sends the entries on the way that the log holds, in order, each with its own index. |
| `LogRepair.RoundEffect` | internal/raft/raft.go:189-259 | One replication round: a refusal changes no log and moves the probe back by one, never below 1; an acceptance leaves the leader's log as a prefix. |
| `LogRepair.Repair` | internal/raft/raft.go:253-258 | Repeated rounds stop after at most nextIndex - 1 refusals with the leader's log as a prefix of the follower's. |
| `LogRepair.RepairTerminates` | internal/raft/raft.go:189-259 | That bound holds from every state a run can reach, for every peer not ahead of the leader's term. |
| `Availability.CanBeElected` | internal/raft/raft.go:298-347 | From every reachable state, a node that nobody of a majority is ahead of can become leader by steps of that majority alone. |
| `Availability.CanReplicate` | internal/raft/raft.go:189-259 | From every reachable state, a leader and a peer not ahead of it can bring the peer up to the leader's log, and the leader to know it, by steps of the two. |
| `Availability.NoDeadEnds` | internal/raft/raft.go:122-395 | From every moment of every run, whatever was lost and whatever the other nodes are in, steps of any majority on its own messages suffice to elect any node of it that none of it is ahead of, and to commit a command proposed to it, and to deliver it unless a later index was applied before. |
| `Jobs.TransitionsKeepIndexes` | internal/jobmanager/job_manager.go:162-394 | Every transition keeps the in-flight and dead indexes exact, and the completed index between the completed and the completed-or-dead jobs. |
| `Jobs.SettleKeepsIndexes` | internal/jobmanager/job_manager.go:373-394 | From exact indexes, MarkDead leaves them exact if and only if the job was not completed. |
| `Jobs.TotalIsSum` | internal/jobmanager/job_manager.go:460-470 | With exact indexes the table is the disjoint sum of pending, in-flight, completed and dead jobs. |
| `JobServer.JobManager.constructor` | internal/jobmanager/job_manager.go:134-143 | A new manager is empty. |
| `JobServer.JobManager.Enqueue` | internal/jobmanager/job_manager.go:162-182 | Adds a pending record and queues it, or reports the duplicate; table, indexes and queue are tied to the transition, whose record is the given one (Provenance.RequestStartsJob). |
| `JobServer.JobManager.PopPending` | internal/jobmanager/job_manager.go:197-209 | Takes the head of the queue whatever its status and yields its record, or none. |
| `JobServer.JobManager.MarkInFlight` | internal/jobmanager/job_manager.go:233-259 | Moves a pending record in flight with its deadline; unknown and non-pending jobs are refused. |
| `JobServer.JobManager.MarkCompleted` | internal/jobmanager/job_manager.go:280-307 | Moves an in-flight record to completed in the shared record and both indexes, or refuses. |
| `JobServer.JobManager.Requeue` | internal/jobmanager/job_manager.go:328-357 | Sends an in-flight record back to the queue with one more attempt, or refuses. |
| `JobServer.JobManager.MarkDead` | internal/jobmanager/job_manager.go:373-394 | Kills a known record whatever its status, without removing it from completed. |
| `JobServer.JobManager.GetExpiredJobs` | internal/jobmanager/job_manager.go:412-426 | Returns exactly the in-flight jobs past their deadline, each once, in some order; what the sweep makes of that is JobMoves.SweepTakesExactly. |
| `JobServer.JobManager.GetAllInFlightJobs` | internal/jobmanager/job_manager.go:436-446 | Returns exactly the in-flight jobs, each once, in some order. |
| `JobServer.JobManager.CountByStatus` | internal/jobmanager/job_manager.go:460-470 | The pending figure is the queue length; the others are the index sizes. |
| `JobServer.JobManager.GetTotalJobs` | internal/jobmanager/job_manager.go:631-635 | The number of known jobs. |
| `JobServer.JobManager.Restore` | internal/jobmanager/job_manager.go:493-522 | Rebuilds table and indexes from decoded records; the queue is the pending jobs, each once, in some order. |
| `JobServer.JobManager.Snapshot` | internal/jobmanager/job_manager.go:535-550 | Copies every record. |
| `JobServer.JobManager.PartialSnapshot` | internal/jobmanager/job_manager.go:554-572 | Copies exactly the pending and in-flight records. |
| `JobMoves.RefusedIff` | internal/jobmanager/job_manager.go:162-394 | Each transition is refused if and only if the ID is unknown (or known, when adding) or the status is the wrong one, says which, and then changes nothing; a death is refused for an unknown ID only. |
| `JobMoves.SweepTakesExactly` | internal/controller/controller.go:557-592 | On every run a sweep gives up a job if and only if it is in flight, its deadline is before now and its event can be logged: it dies if this attempt is its last, and else waits with two attempts more; every other job is left as it is, and exactly one TIMEOUT is logged for a job given up. |
| `JobMoves.DeadlineIsOfDispatch` | internal/jobmanager/job_manager.go:233-259 | On every run a job gets into flight only out of waiting, by a dispatcher's or a poll's mark, with the deadline of that mark, and nothing moves the deadline while it flies. |
| `JobMoves.LateSweepEndsAllFlights` | internal/controller/controller.go:543-592 | On every run a sweep later than every deadline given, with no failed append, leaves no job in flight, whatever happened to workers and results. |
| `JobMoves.ResultMoves` | internal/controller/controller.go:482-540 | What a result does to the job's record, status by status, and to the log: a success counts only in flight and once logged, a failure always costs an attempt, and kills at the limit whatever the status. |
| `JobMoves.AddJobsIs` | internal/controller/controller.go:690-695 | A batch is added up to the first job whose ID is known or named before, in order and each as given, and the call succeeds if and only if that is the whole batch. |
| `JobMoves.BatchIsHead` | internal/controller/controller.go:402-410 | A batch is the head of the queue up to the limit or to the first ID without a record, which is thrown away; nothing else moves. |
| `JobMoves.QueueIsFifo` | internal/jobmanager/job_manager.go:177-206 | First in, first out on every run: whatever is added, retried, timed out or committed goes to the end of the queue, and what leaves it leaves from the front. |
| `JobMoves.DispatcherTakesTen` | internal/controller/controller.go:394-411 | A dispatcher takes ten jobs at a time, or all there are. |
| `JobMoves.DispatchesLogged` | internal/controller/job_source_impl.go:33-46 | A poll logs one DISPATCH for each job it takes but for those whose append fails. |
| `JobMoves.DispatchesInOrder` | internal/controller/controller.go:422-428 | Without failed appends these events are in the order of the batch. |
| `Provenance.RequestStartsJob` | internal/jobmanager/job_manager.go:162-180 | A job that a step adds is as the first request for its ID in that step gives it, attempts included, waiting and queued; a request for a known ID leaves that job's ID, payload and timeout alone. |
| `Provenance.JobsAreAsRequested` | internal/controller/controller.go:167-192 | At every moment of every history of work, snapshots of either kind and restarts over any log, each job in the table has the ID, payload and timeout of the request that first added it. |
| `JobProgress.EveryJobCanComplete` | internal/controller/controller.go:390-540 | From every moment of every run, a job that waits in the queue or in a hand, or is in flight, can still be completed with its success logged. |
| `ControllerServer.Controller.HandleRaftCommand` | internal/controller/controller.go:249-292 | Applies one committed command: known jobs are skipped, settled jobs ignore verdicts, any verdict but completed kills. |
| `ControllerServer.Controller.ApplyLoop` | internal/controller/controller.go:233-247 | The loop applies the valid messages in order and records the index of the last one. |
| `ControllerServer.ValidCount` | internal/controller/controller.go:240-244 | If all messages are valid, their commands are applied one for one, and the index recorded is the last one's. |
| `ControllerServer.InvalidIsSkipped` | internal/controller/controller.go:240-244 | An invalid message changes neither what is applied nor the index recorded. |
| `JobServer.JobManager.SetLastAppliedIndex` | internal/jobmanager/job_manager.go:100-104 | Records the index and touches nothing else. |
| `ControllerServer.Controller.AddJobs` | internal/controller/controller.go:687-697 | Adds a batch up to the first known ID and reports that error. |
| `ControllerServer.Controller.PopBatch` | internal/controller/controller.go:401-411 | Pops up to n records in queue order and stops at the first empty pop. |
| `ControllerServer.Controller.MarkBatch` | internal/controller/controller.go:431-440 | Marks every job of a batch in flight, passing over refusals. |
| `ControllerServer.Controller.Poll` | internal/controller/job_source_impl.go:19-65 | Pops, logs and marks a batch in one section; appends that fail lose only their event; a stopped controller changes nothing. |
| `ControllerServer.Controller.HandleResult` | internal/controller/controller.go:482-540 | One worker result: the event is logged before the change, a failure counts an attempt first, and the limit decides between retry and death. |
| `ControllerServer.Controller.SweepTimeouts` | internal/controller/controller.go:557-592 | One sweep times out exactly the expired jobs, each once, logging a timeout for each also when it kills. |
| `ControllerServer.Controller.ReplayWAL` | internal/controller/controller.go:340-381 | Applies events in order and stops at the first one refused, with that error. |
| `ControllerServer.Controller.RequeueInFlight` | internal/controller/controller.go:180-192 | Requeues every job in flight once. |
| `ControllerServer.Controller.Recover` | internal/controller/controller.go:167-192 | Restore, replay and requeue, composed as the source composes them. |
| `ControllerServer.Controller.TakeSnapshot` | internal/controller/controller.go:621-634 | The snapshot is the whole table, or only the active jobs under Raft. |
| `Conservation.StepKeeps` | internal/controller/controller.go:402-440 | Every section of the controller keeps each pending job in the queue or in a dispatcher's hand, the in-flight and dead indexes exact, IDs in the table and dead jobs dead. |
| `Conservation.NoJobIsLost` | internal/controller/controller.go:390-460 | The same over every run with any number of dispatchers and any late results, from any state in which nothing is lost. |
| `Lifecycle.CompletedStaysIff` | internal/controller/controller.go:506-521 | A completed job stays completed in a step if and only if the step is not a logged failure of it at its last attempt. |
| `Lifecycle.CompletedIsFinalIff` | internal/controller/controller.go:506-521 | Over a run a completed job stays completed if and only if no such late failure occurs. |
| `Lifecycle.ExactStaysIff` | internal/controller/controller.go:482-592 | The four indexes stay exact in a step if and only if it is not a late kill of a completed job. |
| `Lifecycle.ExactOverRunIff` | internal/controller/controller.go:482-592 | Over a run, from exact indexes, all four are exact at a moment if and only if no late kill of a completed job came before it. |
| `Lifecycle.LifecycleWithoutLateKills` | internal/controller/controller.go:482-592 | Over all interleavings without a late kill completed and dead are absorbing and disjoint, every index is exact and the classes add up to the table. |
| `Lifecycle.RaftMasterLifecycle` | internal/server/server.go:246-263 | The same with no further condition for a controller that handles no worker result itself: a server with a Raft node proposes every verdict. |
| `ReplayByJob.ReplayDecomposes` | internal/controller/controller.go:340-381 | The log replays without error if and only if every job accepts its own events in order, and then each job ends where its own events lead. |
| `ReplayByJob.ReplayStopsAtRefusal` | internal/controller/controller.go:340-381 | A replay that fails has applied all events before the first one refused, and nothing of those after it. |
| `ReplayByJob.InterleavingIsIrrelevant` | internal/controller/controller.go:340-381 | Two logs with the same events per job, replayed by any two clocks, are both accepted or both refused, and end in tables that differ in the values of deadlines at most. |
| `ReplayByJob.AbsentAccepts` | internal/controller/controller.go:346-372 | Of a job the snapshot lacks, replay accepts nothing but ENQUEUE events. |
| `ReplayByJob.RedispatchAfterRecovery` | internal/controller/controller.go:180-192 | Recovery is not repeatable: once a job that replay left in flight is dispatched again, the grown log no longer replays over the same snapshot. |
| `Fidelity.NextIsFresh` | internal/controller/controller.go:422-428 | In orderly runs a job about to be logged by a dispatcher is pending and not yet logged in any hand. |
| `OrderlyRuns.FreshStartIsCut` | internal/controller/controller.go:167-192 | A fresh start with an empty log, idle dispatchers and a queue of exactly the pending jobs is a moment from which the log accounts for every job. |
| `OrderlyRuns.RunFollows` | internal/controller/controller.go:390-592 | In orderly runs from any moment with an empty log, dispatchers in the middle of their batches included, the log accounts for every job present then: replayed status, replayed attempts and live attempts; or, if its dispatch was logged before, exactly what replay will refuse. |
| `OrderlyRuns.JobFollows` | internal/controller/controller.go:390-592 | The same for every job from its first appearance on, be it added by a client or by a committed command during the run. |
| `Recovery.ReplaySucceedsIff` | internal/controller/controller.go:340-381 | The log of an orderly run replays over the table it began with if and only if it says nothing but ENQUEUE about other jobs and, of each job whose dispatch was logged before it began, the first thing it says, if anything, is its death. |
| `Recovery.CleanReplaySucceedsIff` | internal/controller/controller.go:340-381 | If no dispatcher had logged when the log began, it replays if and only if it is about jobs present then. |
| `Recovery.ReplayFidelity` | internal/controller/controller.go:167-192 | After a crash at any moment of such a run whose log replays, every job of the snapshot recovers the status its logged events imply, in flight read as pending and death by timeout as pending, and one attempt per logged requeue plus one if replay left it in flight. |
| `Recovery.RecoveryLosesNothing` | internal/controller/controller.go:167-192 | Whatever the log says, a recovery that gets through it ends with exactly the jobs of the snapshot, every pending one queued and none in flight. |
| `RecoveredQueue.RecoveredCount` | internal/controller/controller.go:167-192 | Whatever the log says, after such a recovery each job is in the queue once if pending and once more for every time the log took it from waiting: replay takes nothing off the queue. |
| `RecoveredQueue.RecoveredQueueIff` | internal/controller/controller.go:167-192 | The recovered queue is the pending jobs, each once, if and only if no logged event found its job waiting and took it on. |
| `RecoveredQueue.RecoveredTwice` | internal/controller/controller.go:180-192 | One logged dispatch and a crash: recovery leaves the job in the queue twice. |
| `RecoveredQueue.QueuedTwiceBreaksReplay` | internal/controller/controller.go:401-440 | A dispatcher then takes it twice in one batch and logs two dispatches, and the log fails to replay even over a snapshot taken after the recovery. |
| `Recovery.RetryBound` | internal/controller/controller.go:506-538 | In orderly runs every job, from its first appearance on, counts two attempts per failure or timeout while alive and is dead exactly at the fatal one, number MaxRetry/2 + 1 from zero. |
| `Rotation.CopyStandsIff` | internal/controller/controller.go:618-659 | The table copied for a snapshot is still right when the log is rotated, with no dispatch known to the old log alone, if and only if in between nothing but ENQUEUE was logged and no job was added, and at the copy no dispatcher held a job it had logged. |
| `Rotation.StandingCopyRecovers` | internal/controller/controller.go:618-659 | Then recovery from the copy and the rotated log, at any later moment, gives what recovery from the table at the rotation would. |
| `RotationLoss.CopyServesIff` | internal/controller/controller.go:618-659 | The copy stands if and only if it serves every orderly continuation about its jobs: otherwise one of them ends with a log that does not replay over it, or in a recovery that differs from that of the table at the rotation. |
| `Rotation.SuccessInBetweenIsLost` | internal/controller/controller.go:618-659 | A run in which a success logged between copy and rotation is lost: the job is completed, but recovery has it waiting. |
| `Rotation.DispatchBeforeIsMissed` | internal/controller/controller.go:422-440 | A run in which a dispatcher has logged a job and not marked it when the log is rotated; its later success is refused by replay. |
| `StrayResults.LateAckBreaksReplay` | internal/controller/controller.go:490-499 | A run in which a success arrives after its timeout is logged although the job waits again; the log then fails to replay. |
| `StrayResults.CompletionCanBeUndone` | internal/controller/controller.go:506-521 | A run in which a completed job is killed by the late failure of its first attempt and is then in both indexes. |
| `CommandLog.FateIsReal` | internal/controller/controller.go:249-292 | What a list of commands makes of an ID the table has not heard of can be read off the list: unknown, alive and pending, or killed. |
| `CommandLog.ApplyTwiceIff` | internal/controller/controller.go:249-292 | Applying a command list twice equals applying it once if and only if it has no failing verdict on an ID unknown to the table and to the list so far which the list later enqueues and does not kill. |
| `CommandLog.KnownAcksReplay` | internal/controller/controller.go:249-292 | If every verdict names a job that the table or the list so far knows, any tail of the list may be applied again without effect. |
| `CommandLog.ReapplyingLastIsHarmless` | internal/controller/controller.go:233-247 | A snapshot taken after a command was applied and before its index was recorded is safe: reapplying that command and going on gives the same state. |
| `Replicas.MoveAgreesIff` | internal/controller/controller.go:249-292 | Two controllers that agree on which jobs exist, are completed and are dead still agree after a move if and only if it is neither a local death nor a committed success of an open job that is in flight on one side alone. |
| `Replicas.AgreeIff` | internal/controller/controller.go:249-292 | Fed the same commands with any local moves in between, they agree at every moment if and only if no move splits them. |
| `Replicas.LineUp` | internal/controller/controller.go:233-247 | Two histories that apply the same commands in the same order, each at its own pace and with its own local moves, line up into one. |
| `Replicas.FollowerNeverCompletes` | internal/controller/controller.go:282-287 | A success committed for a job dispatched on one controller alone is ignored by the other, and as long as that one does not dispatch the job itself the two never agree again. |
| `ReplicatedTables.DeliveredPrefix` | internal/raft/raft.go:280-296 | On Raft runs that respect the comparison, of what two nodes delivered at any two moments the shorter list is a prefix of the longer. |
| `ReplicatedTables.AheadByTheRest` | internal/controller/controller.go:233-247 | So a controller that is ahead has the table the other one gets from the rest of the deliveries, malformed commands skipped. |
| `ReplicatedTables.ReplicasOfOneLog` | internal/controller/controller.go:233-292 | Two controllers that were delivered equally many messages have histories that line up, and agree on known, completed and dead jobs unless a local death or a success in flight on one side alone splits them. |
| `PartialSnapshots.OpBySlot` | internal/controller/controller.go:249-292 | What an operation does to a job, be it a committed command, a dispatch, a retry, a kill or a timeout, depends on that job's record and index entries alone. |
| `PartialSnapshots.ActiveJobsSimulated` | internal/jobmanager/job_manager.go:554-572 | After restoring a partial snapshot, any later operations give every job not settled at the snapshot, and every new one, exactly the record the full state would, queued if pending. |
| `PartialSnapshots.DroppedStayDroppedIff` | internal/jobmanager/job_manager.go:554-572 | The two tables differ by exactly the dropped jobs if and only if no dropped ID is enqueued again. |
| `GroupCommit.RefinesSimpleLogIff` | internal/storage/wal/wal.go:414-479 | On every run, rotated files, current file, batch and channel are exactly the accepted requests in order if and only if no record has failed to encode; failing syncs and rotations lose nothing. |
| `GroupCommit.OpenedLogIsSimpleIff` | internal/storage/wal/wal.go:188-252 | From opening the log over a file, everything ever written with batch and channel is the file's records followed by the accepted requests in order, if and only if no record has failed to encode. |
| `GroupCommit.StepKeepsWal` | internal/storage/wal/wal.go:271-479 | Every step keeps callers and line in agreement, answers in order of acceptance, and batch and channel within their bounds. |
| `GroupCommit.NilMeansDurable` | internal/storage/wal/wal.go:271-300 | Whatever fails, an append that returned nil has its record in a synced part of a file; a waiting append has exactly its request in batch or channel. |
| `GroupCommit.NumbersMayBeSwapped` | internal/storage/wal/wal.go:271-300 | The file is not in number order: a run of two appends in which the later number is written first. |
| `WalProgress.NumberIsCount` | internal/storage/wal/wal.go:271-276 | At every moment of every run the last number is the count of the appends begun since the last finished rotation, on top of the opening number if there was none. |
| `WalProgress.NumbersAreDistinct` | internal/storage/wal/wal.go:271-276 | Between two rotations no number is drawn twice; the later append draws the larger. |
| `WalProgress.EndIsForever` | internal/storage/wal/wal.go:364-410 | Once the writer has stopped for a close or a failed rotation, nothing is written, put away or answered nil any more. |
| `WalProgress.FailedRotationEnds` | internal/storage/wal/wal.go:377-410 | A rotation that fails ends the log at whichever stage and loses nothing; only a failure to open the new file has put the old one away. |
| `WalProgress.WriterCanAnswerAll` | internal/storage/wal/wal.go:414-479 | From every state of a log whose writer runs, the writer alone can bring it about that every waiting append has returned nil. |
| `WalProgress.AppendCanSucceed` | internal/storage/wal/wal.go:271-300 | From every such state an append that begins now can return nil, under the next number. |
| `WalProgress.ChannelHoldsTwoBuffers` | internal/storage/wal/wal.go:234 | Twice the buffer size of appends fit into the channel before the writer takes any, and not one more. |
| `WalProgress.RotationCanFinish` | internal/storage/wal/wal.go:364-410 | From every open state a rotation can be run to its end: the file with the batch is put away and an empty one is open under fresh numbers, with the channel still waiting. |
| `WalServer.WriterAgrees` | internal/storage/wal/wal.go:414-449 | For every buffer size and every timing, the batch writer ends with the file and answers of writing the arrived requests one at a time, and before that only the batch is outstanding. |
| `WalServer.OneAtATimeIs` | internal/storage/wal/wal.go:453-479 | Writing, syncing and answering requests one at a time appends their records in order, all synced, all answered nil. |
| `WalServer.NilAnswerIsSynced` | internal/storage/wal/wal.go:453-479 | Whatever faults occur, a request the writer answers with nil has its record in the synced part of the file. |
| `WalServer.WriterOfEveryRun` | internal/storage/wal/wal.go:414-449 | Between rotations the writer of the step system is, at every moment of every run, where the loop of the log object is after the signals heard so far. |
| `WalServer.SignalAsSteps` | internal/storage/wal/wal.go:414-449 | Each turn of the loop is one or two steps of the step system. |
| `WalServer.RenewalIsStep` | internal/storage/wal/wal.go:377-410 | The second half of a rotation is the step of the step system that fails where it fails. |
| `WalServer.WAL.constructor` | internal/storage/wal/wal.go:188-252 | A log opens over its file, with the default buffer size when none is given. |
| `WalServer.WAL.DrawNumber` | internal/storage/wal/wal.go:271-276 | An append first draws the next number. |
| `WalServer.WAL.FlushBatch` | internal/storage/wal/wal.go:453-479 | Writes the batch up to an encoding fault, syncs once, and answers every request alike. |
| `WalServer.WAL.BatchWriter` | internal/storage/wal/wal.go:414-449 | The loop over arrivals, ticks and the close signal does what the writer's specification does, faults included. |
| `WalServer.WAL.BeginRotation` | internal/storage/wal/wal.go:365-371 | Refuses when closed or rotating, otherwise closes. |
| `WalServer.WAL.FinishRotation` | internal/storage/wal/wal.go:377-410 | Renews the file and the numbering, or stays closed on a fault; what is written is preserved either way. |

## Left out

- Raft log compaction in the cluster (`Snapshot`, internal/raft/raft.go:398-419): after it the previous entry's term is no longer found and lookups that fail count as matches; compaction is covered only as a property of one store, in `RaftLog.DeleteKeepsContiguity`.
- Restart of Raft nodes: `internal/raft` keeps term and vote only in memory, so a restarted node is a new one and the model has none.
- Timers, randomised timeouts and goroutine scheduling: each lock-held section is one step chosen freely. Of liveness it is proved what can still be reached from every reachable state (`Availability.NoDeadEnds`, `JobProgress.EveryJobCanComplete`, `WalProgress.AppendCanSucceed`) and how many refusals a repair takes, not that the timers bring it about.
- Integer width: terms, indices, attempts and sequence numbers are unbounded here and 64-bit in the source.
- gRPC transport, protobuf code, server handlers, worker registry and leases, CLI, metrics, demo and configuration: plumbing around the core.
- JSON, checksums and file-system semantics: a file is a sequence of records with a synced length; a record that fails to encode leaves nothing behind; rotated files are a list, although their timestamped names may collide.
- Malformed snapshots, log lines and commands: decoding errors end recovery before it starts or skip the command, and no value with another status string is modelled.
- The worker pool: results are arbitrary events, and dropped results are results that never come.
- Creation and update times of jobs, and every other wall-clock value: times enter as parameters.
- StateMachineSafety.StateMachineSafety: one way only, because a run may break the comparison in a vote that decides nothing and still be safe; that the hypothesis cannot simply be dropped is `UnsafeRun.SafetyNeedsTheComparison`, and that it says exactly what the recorded votes say is `StateMachineSafety.RunVotesUpToDate`.
- StateMachineSafety.LeaderCompletenessOverRuns: one way only, for the same reason.
- Recovery.ReplayFidelity: the condition on the log is exact (`Recovery.ReplaySucceedsIff`); that the run is orderly and begins with every pending job in one place are hypotheses, and `StrayResults.LateAckBreaksReplay` and `RecoveredQueue.QueuedTwiceBreaksReplay` show what a stray result and a job queued twice do to it. What holds of any log at all is `ReplayByJob.ReplayDecomposes` and `Recovery.RecoveryLosesNothing`.
- Availability.NoDeadEnds: for two or more peers, because a node that is its own only peer is never elected (`Elections.SingleNodeNeverLeads`); and the command is delivered unless an index at or past its own was applied before, which runs that break the log comparison can bring about.
- Provenance.JobsAreAsRequested: attempts, status and deadline are left to `JobMoves` and `Recovery`; a restart reads any log in full, and of a job in no snapshot nothing is left.
- Snapshot metadata (`LastSeq`, the recorded Raft index inside the file): nothing in recovery reads it.
- Rotation.CopyStandsIff: for orderly runs, so appends refused while the log is closed for the rotation are not in it; a refused append is an Outcome, LogDispatch, sweep or poll with a failed append in `Conservation` and `Lifecycle`.
- Failed appends with their record in the file: to the controller's model a failed append is a missing event, while after a failed sync (internal/storage/wal/wal.go:453-479) the record may be in the file all the same; `GroupCommit` and `WalServer` have that case.
- Appends of other goroutines between the events of one sweep: the sweep holds the controller's lock, but a dispatcher logging its batch does not take it; the two concern different jobs in an orderly run, and `ReplayByJob.InterleavingIsIrrelevant` says that replay does not see such an order.
- Lifecycle.RaftMasterLifecycle: that such a controller has no local workers is an assumption on its configuration.
- Replicas.FollowerNeverCompletes: timeouts of the other controller's own jobs enter as local moves; which controller a client polls is not part of this model.
- RaftServer.Raft.AppendEntries: the goroutine that applies after a commit is the separate step `ApplyCommitted`, since in the source it takes the lock on its own.
- JobServer.JobManager.Restore: asks that every record is filed under its own job's ID, which both snapshot methods guarantee; a file edited by hand might not.
- ControllerServer.Controller.Recover: asks the same of the decoded snapshot, for the same reason.
- GroupCommit.NumbersMayBeSwapped: one run only; the order of numbers is whatever the order of sends was, which no caller controls.
- WalServer.WAL.BatchWriter: the channel is represented by what the select yields; blocking and closing of channels are in the step system.
