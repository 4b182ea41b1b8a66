/** The controller's lock-held sections as pure functions on the job table and the write-ahead
    log. A log append that fails is an input: its event is then missing from the log. */
module ControllerSteps {
  import opened Jobs

  datatype EventKind = EnqueueEvent | DispatchEvent | AckEvent | RetryEvent | TimeoutEvent | DeadEvent

  datatype Event = Event(kind: EventKind, id: JobId)

  /** What the replicated log carries: jobs to add, or a worker's verdict on one job. */
  datatype Command = EnqueueCommand(jobs: seq<Job>) | AckCommand(id: JobId, status: Status)

  // ---- Applying committed commands ----

  /** Jobs whose ID is known are skipped. */
  function ApplyEnqueue(t: Table, jobs: seq<Job>): Table
    decreases |jobs|
  {
    if jobs == [] then t
    else
      var t1, job := ApplyEnqueue(t, jobs[..|jobs| - 1]), jobs[|jobs| - 1];
      if job.id in t1.jobs then t1 else Enqueue(t1, job).0
  }

  /** Anything but a success kills the job, whatever its status, unless it is settled already. */
  function ApplyAck(t: Table, id: JobId, status: Status): Table {
    if id in t.completed || id in t.dead then t
    else if id !in t.jobs then t
    else if status == Completed then MarkCompleted(t, id).0
    else MarkDead(t, id).0
  }

  function ApplyCommand(t: Table, c: Command): Table {
    match c
    case EnqueueCommand(jobs) => ApplyEnqueue(t, jobs)
    case AckCommand(id, status) => ApplyAck(t, id, status)
  }

  // ---- Adding and dispatching ----

  /** The lock-held half of EnqueueJobs: it stops at the first known ID. */
  function AddJobs(t: Table, jobs: seq<Job>): (r: (Table, Result))
    decreases |jobs|
  {
    if jobs == [] then (t, Ok)
    else
      var (t1, r1) := AddJobs(t, jobs[..|jobs| - 1]);
      if r1.Err? then (t1, r1) else Enqueue(t1, jobs[|jobs| - 1])
  }

  /** Up to n pops, ended by the first one that yields nothing. */
  function PopBatch(t: Table, n: int): (r: (Table, seq<JobId>))
    decreases n
  {
    if n <= 0 then (t, [])
    else
      var (t1, ids) := PopBatch(t, n - 1);
      if |ids| < n - 1 then (t1, ids)
      else
        var (t2, popped) := PopPending(t1);
        (t2, if popped.Found? then ids + [popped.id] else ids)
  }

  /** Refused marks are only reported. */
  function MarkAll(t: Table, ids: seq<JobId>, deadline: int): Table
    decreases |ids|
  {
    if ids == [] then t
    else MarkInFlight(MarkAll(t, ids[..|ids| - 1], deadline), ids[|ids| - 1], deadline).0
  }

  /** The DISPATCH events of a batch; failed appends leave none. */
  function DispatchEvents(ids: seq<JobId>, failed: set<JobId>): seq<Event>
    decreases |ids|
  {
    if ids == [] then []
    else
      var last := ids[|ids| - 1];
      DispatchEvents(ids[..|ids| - 1], failed) + if last in failed then [] else [Event(DispatchEvent, last)]
  }

  /** The whole poll is one lock-held section. */
  function Poll(t: Table, n: int, deadline: int, failed: set<JobId>): (r: (Table, seq<JobId>, seq<Event>)) {
    var (t1, ids) := PopBatch(t, n);
    (MarkAll(t1, ids, deadline), ids, DispatchEvents(ids, failed))
  }

  // ---- Outcomes ----

  /** One worker result. On a failure the attempt is counted before the append is tried. */
  function HandleResult(t: Table, id: JobId, success: bool, logged: bool, maxRetry: int): (r: (Table, seq<Event>)) {
    if id !in t.jobs then (t, [])
    else if success then
      if !logged then (t, []) else (MarkCompleted(t, id).0, [Event(AckEvent, id)])
    else
      var t1 := CountAttempt(t, id);
      if !logged then (t1, [])
      else if t1.jobs[id].attempt >= maxRetry then (MarkDead(t1, id).0, [Event(DeadEvent, id)])
      else (Requeue(t1, id).0, [Event(RetryEvent, id)])
  }

  /** One expired job of a sweep. A death by timeout is logged as a timeout. */
  function TimeOut(t: Table, id: JobId, logged: bool, maxRetry: int): (r: (Table, seq<Event>)) {
    if id !in t.jobs || !logged then (t, [])
    else
      var t1 := CountAttempt(t, id);
      (if t1.jobs[id].attempt >= maxRetry then MarkDead(t1, id).0 else Requeue(t1, id).0, [Event(TimeoutEvent, id)])
  }

  function Sweep(t: Table, ids: seq<JobId>, failed: set<JobId>, maxRetry: int): (r: (Table, seq<Event>))
    decreases |ids|
  {
    if ids == [] then (t, [])
    else
      var (t1, es) := Sweep(t, ids[..|ids| - 1], failed, maxRetry);
      var last := ids[|ids| - 1];
      var (t2, e) := TimeOut(t1, last, last !in failed, maxRetry);
      (t2, es + e)
  }

  // ---- Recovery ----

  function ReplayEvent(t: Table, e: Event, deadline: int): (r: (Table, Result)) {
    match e.kind
    case EnqueueEvent => (t, Ok)
    case DispatchEvent =>
      if e.id in t.completed || e.id in t.dead then (t, Ok) else MarkInFlight(t, e.id, deadline)
    case AckEvent => if e.id in t.completed then (t, Ok) else MarkCompleted(t, e.id)
    case RetryEvent => Requeue(t, e.id)
    case TimeoutEvent => Requeue(t, e.id)
    case DeadEvent => MarkDead(t, e.id)
  }

  /** Events in order until the first error; clock gives the deadline used at each position. */
  ghost function Replay(t: Table, es: seq<Event>, clock: nat -> int): (r: (Table, Result))
    decreases |es|
  {
    if es == [] then (t, Ok)
    else
      var (t1, r1) := Replay(t, es[..|es| - 1], clock);
      if r1.Err? then (t1, r1) else ReplayEvent(t1, es[|es| - 1], clock(|es| - 1))
  }

  function RequeueAll(t: Table, ids: seq<JobId>): Table
    decreases |ids|
  {
    if ids == [] then t else Requeue(RequeueAll(t, ids[..|ids| - 1]), ids[|ids| - 1]).0
  }
}
