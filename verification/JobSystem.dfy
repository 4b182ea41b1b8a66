/** The controller's concurrent parts as one step system: any number of dispatchers, each
    popping, logging and marking a batch in separate sections, interleaved with new jobs, worker
    outcomes of any job at any time, timeout sweeps, polls and committed commands. */
module JobSystem {
  import opened Jobs
  import opened ControllerSteps

  /** A dispatcher's batch between pop and mark, and how much of it has been logged. */
  datatype Hand = Hand(batch: seq<JobId>, logged: nat)

  datatype System = System(table: Table, hands: seq<Hand>, wal: seq<Event>)

  datatype Step =
    | LogEnqueue(id: JobId)
    | AddNew(jobs: seq<Job>)
    | Pop(d: nat)
    | LogDispatch(d: nat, ok: bool)
    | Mark(d: nat, deadline: int)
    | Outcome(id: JobId, success: bool, ok: bool)
    | SweepExpired(now: int, order: seq<JobId>, failed: set<JobId>)
    | Apply(command: Command)
    | PollJobs(n: int, deadline: int, failed: set<JobId>)

  const BATCH_SIZE := 10

  const IDLE := Hand([], 0)

  predicate Enabled(s: System, step: Step) {
    match step
    case Pop(d) => d < |s.hands| && s.hands[d].batch == []
    case LogDispatch(d, _) => d < |s.hands| && s.hands[d].logged < |s.hands[d].batch|
    case Mark(d, _) => d < |s.hands| && s.hands[d].batch != [] && s.hands[d].logged == |s.hands[d].batch|
    case SweepExpired(now, order, _) => Enumerates(order, Expired(s.table, now))
    case _ => true
  }

  function PopNext(s: System, d: nat): System
    requires d < |s.hands|
  {
    var (t, ids) := PopBatch(s.table, BATCH_SIZE);
    s.(table := t, hands := s.hands[d := Hand(ids, 0)])
  }

  function LogDispatchNext(s: System, d: nat, ok: bool): System
    requires d < |s.hands| && s.hands[d].logged < |s.hands[d].batch|
  {
    var h := s.hands[d];
    s.(hands := s.hands[d := h.(logged := h.logged + 1)],
       wal := s.wal + if ok then [Event(DispatchEvent, h.batch[h.logged])] else [])
  }

  function MarkNext(s: System, d: nat, deadline: int): System
    requires d < |s.hands|
  {
    s.(table := MarkAll(s.table, s.hands[d].batch, deadline), hands := s.hands[d := IDLE])
  }

  function Next(maxRetry: int, s: System, step: Step): System
    requires Enabled(s, step)
  {
    match step
    case LogEnqueue(id) => s.(wal := s.wal + [Event(EnqueueEvent, id)])
    case AddNew(jobs) => s.(table := AddJobs(s.table, jobs).0)
    case Pop(d) => PopNext(s, d)
    case LogDispatch(d, ok) => LogDispatchNext(s, d, ok)
    case Mark(d, deadline) => MarkNext(s, d, deadline)
    case Outcome(id, success, ok) =>
      var (t, es) := HandleResult(s.table, id, success, ok, maxRetry);
      s.(table := t, wal := s.wal + es)
    case SweepExpired(_, order, failed) =>
      var (t, es) := Sweep(s.table, order, failed, maxRetry);
      s.(table := t, wal := s.wal + es)
    case Apply(command) => s.(table := ApplyCommand(s.table, command))
    case PollJobs(n, deadline, failed) =>
      var (t, _, es) := Poll(s.table, n, deadline, failed);
      s.(table := t, wal := s.wal + es)
  }

  predicate Transition(maxRetry: int, s: System, step: Step, s': System) {
    Enabled(s, step) && s' == Next(maxRetry, s, step)
  }

  /** States b[0], b[1], ... linked by steps, from any start. */
  predicate Run(maxRetry: int, b: seq<System>, steps: seq<Step>) {
    && |b| == |steps| + 1
    && forall i :: 0 <= i < |steps| ==> Transition(maxRetry, b[i], steps[i], b[i + 1])
  }
}
