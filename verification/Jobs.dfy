/** The job table: one map of records, a pending queue and three status indexes, as pure
    transitions. Creation and update times are left out. */
module Jobs {

  type JobId = string

  /** Job data no transition looks at. */
  type Payload = string

  datatype Status = Pending | InFlight | Completed | Dead

  datatype Deadline = NoDeadline | At(ms: int)

  datatype Job = Job(id: JobId, payload: Payload, status: Status, attempt: int, timeout: int,
                     deadline: Deadline, workerID: string)

  datatype Table = Table(
    jobs: map<JobId, Job>,
    queue: seq<JobId>,
    inFlight: set<JobId>,
    completed: set<JobId>,
    dead: set<JobId>)

  datatype Error = DuplicateJob | JobNotFound | NotPending | NotInFlight

  datatype Result = Ok | Err(error: Error)

  datatype Popped = NoJob | Found(id: JobId)

  const EMPTY := Table(map[], [], {}, {}, {})

  // ---- Transitions ----

  function Enqueue(t: Table, job: Job): (r: (Table, Result)) {
    if job.id in t.jobs then (t, Err(DuplicateJob))
    else (t.(jobs := t.jobs[job.id := job.(status := Pending)], queue := t.queue + [job.id]), Ok)
  }

  /** Takes the head off the queue, whatever its status; a head without a record reads as an
      empty queue. */
  function PopPending(t: Table): (r: (Table, Popped)) {
    if t.queue == [] then (t, NoJob)
    else (t.(queue := t.queue[1..]), if t.queue[0] in t.jobs then Found(t.queue[0]) else NoJob)
  }

  function MarkInFlight(t: Table, id: JobId, deadline: int): (r: (Table, Result)) {
    if id !in t.jobs then (t, Err(JobNotFound))
    else if t.jobs[id].status != Pending then (t, Err(NotPending))
    else (t.(jobs := t.jobs[id := t.jobs[id].(status := InFlight, deadline := At(deadline))],
             inFlight := t.inFlight + {id}), Ok)
  }

  function Settled(job: Job, status: Status): Job {
    job.(status := status, deadline := NoDeadline, workerID := "")
  }

  function Retried(job: Job): Job {
    Settled(job, Pending).(attempt := job.attempt + 1)
  }

  function MarkCompleted(t: Table, id: JobId): (r: (Table, Result)) {
    if id !in t.jobs then (t, Err(JobNotFound))
    else if t.jobs[id].status != InFlight then (t, Err(NotInFlight))
    else (t.(jobs := t.jobs[id := Settled(t.jobs[id], Completed)],
             inFlight := t.inFlight - {id}, completed := t.completed + {id}), Ok)
  }

  function Requeue(t: Table, id: JobId): (r: (Table, Result)) {
    if id !in t.jobs then (t, Err(JobNotFound))
    else if t.jobs[id].status != InFlight then (t, Err(NotInFlight))
    else (t.(jobs := t.jobs[id := Retried(t.jobs[id])],
             inFlight := t.inFlight - {id}, queue := t.queue + [id]), Ok)
  }

  /** No status is checked, and a completed job stays in the completed index. */
  function MarkDead(t: Table, id: JobId): (r: (Table, Result)) {
    if id !in t.jobs then (t, Err(JobNotFound))
    else (t.(jobs := t.jobs[id := Settled(t.jobs[id], Dead)],
             inFlight := t.inFlight - {id}, dead := t.dead + {id}), Ok)
  }

  /** The controller's own bookkeeping on a failure, through the shared record. */
  function CountAttempt(t: Table, id: JobId): Table
    requires id in t.jobs
  {
    t.(jobs := t.jobs[id := t.jobs[id].(attempt := t.jobs[id].attempt + 1)])
  }

  function WithStatus(jobs: map<JobId, Job>, status: Status): set<JobId> {
    set id | id in jobs && jobs[id].status == status
  }

  function Expired(t: Table, now: int): set<JobId> {
    set id | id in t.inFlight && id in t.jobs && t.jobs[id].deadline.At? && t.jobs[id].deadline.ms < now
  }

  /** A list of exactly the given elements, each once: what iterating over a map yields. */
  predicate Enumerates(order: seq<JobId>, ids: set<JobId>) {
    && (forall i :: 0 <= i < |order| ==> order[i] in ids)
    && (forall id :: id in ids ==> id in order)
    && (forall i, j :: 0 <= i < j < |order| ==> order[i] != order[j])
  }

  /** The table rebuilt from snapshot data; the iteration order decides the queue. */
  function Restored(data: map<JobId, Job>, order: seq<JobId>): Table {
    Table(data, order, WithStatus(data, InFlight), WithStatus(data, Completed), WithStatus(data, Dead))
  }

  /** Pending and in-flight jobs only. */
  function Active(jobs: map<JobId, Job>): map<JobId, Job> {
    map id | id in jobs && (jobs[id].status == Pending || jobs[id].status == InFlight) :: jobs[id]
  }

  // ---- What the indexes mean ----

  ghost predicate Keyed(jobs: map<JobId, Job>) {
    forall id :: id in jobs ==> jobs[id].id == id
  }

  /** The in-flight and dead indexes are exact; the completed index holds every completed job
      and possibly jobs that died after completing. */
  ghost predicate Indexed(t: Table) {
    && Keyed(t.jobs)
    && t.inFlight == WithStatus(t.jobs, InFlight)
    && t.dead == WithStatus(t.jobs, Dead)
    && WithStatus(t.jobs, Completed) <= t.completed <= WithStatus(t.jobs, Completed) + WithStatus(t.jobs, Dead)
  }

  ghost predicate ExactlyIndexed(t: Table) {
    Indexed(t) && t.completed == WithStatus(t.jobs, Completed)
  }

  /** Every transition keeps the indexes; only MarkDead on a completed job blurs one. */
  lemma TransitionsKeepIndexes(t: Table, id: JobId, job: Job, deadline: int)
    requires Indexed(t)
    ensures Indexed(Enqueue(t, job).0) && Indexed(PopPending(t).0) && Indexed(MarkInFlight(t, id, deadline).0)
    ensures Indexed(MarkCompleted(t, id).0) && Indexed(Requeue(t, id).0) && Indexed(MarkDead(t, id).0)
    ensures id in t.jobs ==> Indexed(CountAttempt(t, id))
  {
    EnqueueKeepsIndexes(t, job);
    DispatchKeepsIndexes(t, id, deadline);
    SettleKeepsIndexes(t, id);
  }

  lemma EnqueueKeepsIndexes(t: Table, job: Job)
    requires Indexed(t)
    ensures Indexed(Enqueue(t, job).0) && (ExactlyIndexed(t) ==> ExactlyIndexed(Enqueue(t, job).0))
  {
    var t' := Enqueue(t, job).0;
    assert forall s: Status :: s != Pending ==> WithStatus(t'.jobs, s) == WithStatus(t.jobs, s);
  }

  lemma DispatchKeepsIndexes(t: Table, id: JobId, deadline: int)
    requires Indexed(t)
    ensures Indexed(MarkInFlight(t, id, deadline).0)
    ensures ExactlyIndexed(t) ==> ExactlyIndexed(MarkInFlight(t, id, deadline).0)
    ensures id in t.jobs ==> Indexed(CountAttempt(t, id)) && (ExactlyIndexed(t) ==> ExactlyIndexed(CountAttempt(t, id)))
  {
    var t' := MarkInFlight(t, id, deadline).0;
    if t' != t {
      assert WithStatus(t'.jobs, InFlight) == t.inFlight + {id};
      assert WithStatus(t'.jobs, Completed) == WithStatus(t.jobs, Completed);
      assert WithStatus(t'.jobs, Dead) == t.dead;
    }
    if id in t.jobs {
      assert forall s: Status :: WithStatus(CountAttempt(t, id).jobs, s) == WithStatus(t.jobs, s);
    }
  }

  lemma SettleKeepsIndexes(t: Table, id: JobId)
    requires Indexed(t)
    ensures Indexed(MarkCompleted(t, id).0) && (ExactlyIndexed(t) ==> ExactlyIndexed(MarkCompleted(t, id).0))
    ensures Indexed(Requeue(t, id).0) && (ExactlyIndexed(t) ==> ExactlyIndexed(Requeue(t, id).0))
    ensures Indexed(MarkDead(t, id).0)
    ensures ExactlyIndexed(t) ==>
              (ExactlyIndexed(MarkDead(t, id).0) <==> !(id in t.jobs && t.jobs[id].status == Completed))
  {
    if id in t.jobs {
      var c, r, d := MarkCompleted(t, id).0, Requeue(t, id).0, MarkDead(t, id).0;
      assert WithStatus(d.jobs, InFlight) == WithStatus(t.jobs, InFlight) - {id};
      assert WithStatus(d.jobs, Completed) == WithStatus(t.jobs, Completed) - {id};
      assert WithStatus(d.jobs, Dead) == WithStatus(t.jobs, Dead) + {id};
      if t.jobs[id].status == InFlight {
        assert WithStatus(c.jobs, InFlight) == WithStatus(r.jobs, InFlight) == WithStatus(t.jobs, InFlight) - {id};
        assert WithStatus(c.jobs, Completed) == WithStatus(t.jobs, Completed) + {id};
        assert WithStatus(r.jobs, Completed) == WithStatus(t.jobs, Completed);
        assert WithStatus(c.jobs, Dead) == WithStatus(r.jobs, Dead) == WithStatus(t.jobs, Dead);
      }
    }
  }

  lemma RestoredIsIndexed(data: map<JobId, Job>, order: seq<JobId>)
    requires Keyed(data)
    ensures ExactlyIndexed(Restored(data, order))
  {}

  lemma FourClasses(all: set<JobId>, a: set<JobId>, b: set<JobId>, c: set<JobId>, d: set<JobId>)
    requires all == a + b + c + d
    requires a !! b && a !! c && a !! d && b !! c && b !! d && c !! d
    ensures |all| == |a| + |b| + |c| + |d|
  {
    assert |a + b| == |a| + |b|;
    assert |(a + b) + c| == |a + b| + |c|;
    assert |((a + b) + c) + d| == |(a + b) + c| + |d|;
  }

  lemma StatusesPartition(jobs: map<JobId, Job>)
    ensures |jobs| == |WithStatus(jobs, Pending)| + |WithStatus(jobs, InFlight)|
                      + |WithStatus(jobs, Completed)| + |WithStatus(jobs, Dead)|
  {
    var p, f, c, d := WithStatus(jobs, Pending), WithStatus(jobs, InFlight), WithStatus(jobs, Completed), WithStatus(jobs, Dead);
    assert jobs.Keys == p + f + c + d by {
      forall id | id in jobs ensures id in p + f + c + d {
        match jobs[id].status { case Pending => case InFlight => case Completed => case Dead => }
      }
    }
    FourClasses(jobs.Keys, p, f, c, d);
  }

  /** With exact indexes the four status classes partition the table. */
  lemma TotalIsSum(t: Table)
    requires ExactlyIndexed(t)
    ensures |t.jobs| == |WithStatus(t.jobs, Pending)| + |t.inFlight| + |t.completed| + |t.dead|
  {
    StatusesPartition(t.jobs);
  }

  // ---- One job at a time ----

  /** Everything the table knows about one ID, the queue aside. */
  datatype Slot = Absent | Slot(job: Job, inFlight: bool, completed: bool, dead: bool)

  ghost function SlotOf(t: Table, id: JobId): Slot {
    if id !in t.jobs then Absent else Slot(t.jobs[id], id in t.inFlight, id in t.completed, id in t.dead)
  }

  /** A transition on one job leaves every other job's slot alone. */
  lemma OthersKeepSlots(t: Table, id: JobId, deadline: int, other: JobId)
    requires other != id
    ensures SlotOf(MarkInFlight(t, id, deadline).0, other) == SlotOf(t, other)
    ensures SlotOf(MarkCompleted(t, id).0, other) == SlotOf(t, other)
    ensures SlotOf(Requeue(t, id).0, other) == SlotOf(t, other)
    ensures SlotOf(MarkDead(t, id).0, other) == SlotOf(t, other)
    ensures id in t.jobs ==> SlotOf(CountAttempt(t, id), other) == SlotOf(t, other)
  {}
}
