/** The job manager object: records shared between one table and three indexes, changed in
    place. Every method is one lock-held section, proved to compute the transition of the same
    name on the table it stands for. */
module JobServer {
  import opened Jobs

  /** A shared job record: the table, the indexes and the controller all change it in place.
      Its ID is the key it is filed under, so different keys mean different records. */
  class JobRecord {
    const id: JobId
    var job: Job

    constructor (job: Job)
      ensures this.job == job && id == job.id
    {
      this.job, id := job, job.id;
    }

    /** The attempt counter is also moved from outside, by the controller. */
    method CountAttempt()
      modifies this
      ensures job == old(job).(attempt := old(job).attempt + 1)
    {
      job := job.(attempt := job.attempt + 1);
    }
  }

  /** An index over the given IDs, sharing the table's records. */
  ghost predicate Index(index: map<JobId, JobRecord>, jobs: map<JobId, JobRecord>, ids: set<JobId>) {
    index.Keys == ids && forall id :: id in index ==> id in jobs && index[id] == jobs[id]
  }

  lemma IndexAdd(index: map<JobId, JobRecord>, jobs: map<JobId, JobRecord>, ids: set<JobId>, id: JobId)
    requires Index(index, jobs, ids) && id in jobs
    ensures Index(index[id := jobs[id]], jobs, ids + {id})
  {}

  lemma IndexDrop(index: map<JobId, JobRecord>, jobs: map<JobId, JobRecord>, ids: set<JobId>, id: JobId)
    requires Index(index, jobs, ids)
    ensures Index(index - {id}, jobs, ids - {id})
  {}

  /** The records, each under its own ID, hold exactly the given values. */
  ghost predicate Holds(records: map<JobId, JobRecord>, jobs: map<JobId, Job>)
    reads records.Values
  {
    && records.Keys == jobs.Keys
    && forall id :: id in records ==>  records[id].id == id && records[id].job == jobs[id]
  }

  datatype SnapshotData = SnapshotData(jobs: map<JobId, Job>, schemaVer: int)

  datatype Stats = Stats(pending: int, inFlight: int, completed: int, dead: int)

  class JobManager {
    var jobs: map<JobId, JobRecord>
    var queue: seq<JobId>
    var inFlight: map<JobId, JobRecord>
    var completed: map<JobId, JobRecord>
    var dead: map<JobId, JobRecord>
    var lastAppliedIndex: int

    // the value all of the above stands for
    ghost var table: Table

    /** An index shares the record of the table, and the value is kept in step. */
    ghost predicate Valid()
      reads this, jobs.Values
    {
      && Holds(jobs, table.jobs) && queue == table.queue
      && Index(inFlight, jobs, table.inFlight) && Index(completed, jobs, table.completed)
      && Index(dead, jobs, table.dead)
    }

    /** The record of an ID, as a frame. */
    ghost function RecordOf(id: JobId): set<JobRecord>
      reads this
    {
      if id in jobs then {jobs[id]} else {}
    }

    constructor ()
      ensures Valid() && table == EMPTY && lastAppliedIndex == 0
    {
      jobs, queue, inFlight, completed, dead := map[], [], map[], map[], map[];
      lastAppliedIndex, table := 0, EMPTY;
    }

    method SetLastAppliedIndex(index: int)
      modifies `lastAppliedIndex
      ensures lastAppliedIndex == index
    {
      lastAppliedIndex := index;
    }

    method Enqueue(job: Job) returns (r: Result)
      requires Valid()
      modifies `jobs, `queue, `table
      ensures Valid()
      ensures table == Jobs.Enqueue(old(table), job).0 && r == Jobs.Enqueue(old(table), job).1
      ensures fresh(jobs.Values - old(jobs.Values))
      ensures forall id :: id in old(jobs) ==> id in jobs && jobs[id] == old(jobs)[id]
    {
      if job.id in jobs {
        return Err(DuplicateJob);
      }
      var rec := new JobRecord(job.(status := Pending));
      jobs := jobs[job.id := rec];
      queue := queue + [job.id];
      table := Jobs.Enqueue(table, job).0;
      return Ok;
    }

    method PopPending() returns (rec: JobRecord?)
      requires Valid()
      modifies `queue, `table
      ensures Valid() && table == Jobs.PopPending(old(table)).0
      ensures Jobs.PopPending(old(table)).1 == if rec == null then NoJob else Found(rec.id)
      ensures rec != null ==> rec.id in jobs && jobs[rec.id] == rec
    {
      if queue == [] {
        return null;
      }
      table := Jobs.PopPending(table).0;
      var id := queue[0];
      queue := queue[1..];
      if id in jobs {
        return jobs[id];
      }
      return null;
    }

    /** Changes a shared record in place; table and indexes see it at once. */
    method Update(id: JobId, job: Job)
      requires Valid() && id in jobs
      modifies `table, RecordOf(id)
      ensures Valid() && table == old(table).(jobs := old(table).jobs[id := job])
    {
      jobs[id].job := job;
      table := table.(jobs := table.jobs[id := job]);
    }

    method MarkInFlight(id: JobId, deadline: int) returns (r: Result)
      requires Valid()
      modifies `inFlight, `table, RecordOf(id)
      ensures Valid()
      ensures table == Jobs.MarkInFlight(old(table), id, deadline).0
      ensures r == Jobs.MarkInFlight(old(table), id, deadline).1
    {
      if id !in jobs {
        return Err(JobNotFound);
      }
      var rec := jobs[id];
      if rec.job.status != Pending {
        return Err(NotPending);
      }
      Update(id, rec.job.(status := InFlight, deadline := At(deadline)));
      IndexAdd(inFlight, jobs, table.inFlight, id);
      table := table.(inFlight := table.inFlight + {id});
      inFlight := inFlight[id := rec];
      assert Holds(jobs, table.jobs) && Index(completed, jobs, table.completed) && Index(dead, jobs, table.dead);
      return Ok;
    }

    method MarkCompleted(id: JobId) returns (r: Result)
      requires Valid()
      modifies `inFlight, `completed, `table, RecordOf(id)
      ensures Valid()
      ensures table == Jobs.MarkCompleted(old(table), id).0 && r == Jobs.MarkCompleted(old(table), id).1
    {
      if id !in jobs {
        return Err(JobNotFound);
      }
      var rec := jobs[id];
      if rec.job.status != InFlight {
        return Err(NotInFlight);
      }
      Update(id, Settled(rec.job, Completed));
      IndexDrop(inFlight, jobs, table.inFlight, id);
      IndexAdd(completed, jobs, table.completed, id);
      table := table.(inFlight := table.inFlight - {id}, completed := table.completed + {id});
      inFlight := inFlight - {id};
      completed := completed[id := rec];
      assert Holds(jobs, table.jobs) && Index(dead, jobs, table.dead);
      return Ok;
    }

    method Requeue(id: JobId) returns (r: Result)
      requires Valid()
      modifies `inFlight, `queue, `table, RecordOf(id)
      ensures Valid()
      ensures table == Jobs.Requeue(old(table), id).0 && r == Jobs.Requeue(old(table), id).1
    {
      if id !in jobs {
        return Err(JobNotFound);
      }
      var rec := jobs[id];
      if rec.job.status != InFlight {
        return Err(NotInFlight);
      }
      Update(id, Retried(rec.job));
      IndexDrop(inFlight, jobs, table.inFlight, id);
      table := table.(inFlight := table.inFlight - {id}, queue := table.queue + [id]);
      inFlight := inFlight - {id};
      queue := queue + [id];
      assert Holds(jobs, table.jobs) && Index(completed, jobs, table.completed) && Index(dead, jobs, table.dead);
      return Ok;
    }

    method MarkDead(id: JobId) returns (r: Result)
      requires Valid()
      modifies `inFlight, `dead, `table, RecordOf(id)
      ensures Valid()
      ensures table == Jobs.MarkDead(old(table), id).0 && r == Jobs.MarkDead(old(table), id).1
    {
      if id !in jobs {
        return Err(JobNotFound);
      }
      var rec := jobs[id];
      Update(id, Settled(rec.job, Dead));
      IndexDrop(inFlight, jobs, table.inFlight, id);
      IndexAdd(dead, jobs, table.dead, id);
      table := table.(inFlight := table.inFlight - {id}, dead := table.dead + {id});
      inFlight := inFlight - {id};
      dead := dead[id := rec];
      assert Holds(jobs, table.jobs) && Index(completed, jobs, table.completed);
      return Ok;
    }

    /** In-flight jobs whose deadline has passed, in the order the map happens to yield them. */
    method GetExpiredJobs(now: int) returns (expired: seq<JobId>)
      requires Valid()
      ensures Enumerates(expired, Expired(table, now))
    {
      expired := [];
      var rest := inFlight.Keys;
      while rest != {}
        invariant rest <= inFlight.Keys
        invariant Enumerates(expired, Expired(table, now) - rest)
        decreases |rest|
      {
        var id :| id in rest;
        var job := inFlight[id].job;
        if job.deadline.At? && job.deadline.ms < now {
          EnumeratesOneMore(expired, Expired(table, now) - rest, id);
          assert Expired(table, now) - (rest - {id}) == (Expired(table, now) - rest) + {id};
          expired := expired + [id];
        } else {
          assert Expired(table, now) - (rest - {id}) == Expired(table, now) - rest;
        }
        rest := rest - {id};
      }
      assert Expired(table, now) - rest == Expired(table, now);
    }

    method GetAllInFlightJobs() returns (ids: seq<JobId>)
      requires Valid()
      ensures Enumerates(ids, table.inFlight)
    {
      ids := [];
      var rest := inFlight.Keys;
      while rest != {}
        invariant rest <= inFlight.Keys
        invariant Enumerates(ids, inFlight.Keys - rest)
        decreases |rest|
      {
        var id :| id in rest;
        EnumeratesOneMore(ids, inFlight.Keys - rest, id);
        assert inFlight.Keys - (rest - {id}) == (inFlight.Keys - rest) + {id};
        rest := rest - {id};
        ids := ids + [id];
      }
      assert inFlight.Keys - rest == inFlight.Keys;
    }

    /** The pending count is the queue length, whatever the queue holds. */
    method CountByStatus() returns (s: Stats)
      requires Valid()
      ensures s == Stats(|table.queue|, |table.inFlight|, |table.completed|, |table.dead|)
    {
      s := Stats(|queue|, |inFlight|, |completed|, |dead|);
      assert |inFlight| == |inFlight.Keys| && |completed| == |completed.Keys| && |dead| == |dead.Keys|;
    }

    /** Takes over decoded records, sorting each into its index. */
    method Restore(data: map<JobId, JobRecord>, ghost values: map<JobId, Job>)
      requires Holds(data, values)
      modifies `jobs, `queue, `inFlight, `completed, `dead, `table
      ensures Valid() && jobs == data
      ensures Enumerates(queue, WithStatus(values, Pending)) && table == Restored(values, queue)
    {
      var order, active, done, failed := SortRecords(data, values);
      jobs, queue, inFlight, completed, dead := data, order, active, done, failed;
      table := Restored(values, order);
    }

    static method SortRecords(data: map<JobId, JobRecord>, ghost values: map<JobId, Job>)
      returns (order: seq<JobId>, active: map<JobId, JobRecord>, done: map<JobId, JobRecord>, failed: map<JobId, JobRecord>)
      requires Holds(data, values)
      ensures Enumerates(order, WithStatus(values, Pending))
      ensures Index(active, data, WithStatus(values, InFlight)) && Index(done, data, WithStatus(values, Completed))
      ensures Index(failed, data, WithStatus(values, Dead))
    {
      order, active, done, failed := [], map[], map[], map[];
      var rest := data.Keys;
      while rest != {}
        invariant rest <= data.Keys
        invariant Enumerates(order, WithStatus(values, Pending) - rest)
        invariant Index(active, data, WithStatus(values, InFlight) - rest)
        invariant Index(done, data, WithStatus(values, Completed) - rest)
        invariant Index(failed, data, WithStatus(values, Dead) - rest)
        decreases |rest|
      {
        var id :| id in rest;
        StatusSplits(values, rest, id, Pending);
        StatusSplits(values, rest, id, InFlight);
        StatusSplits(values, rest, id, Completed);
        StatusSplits(values, rest, id, Dead);
        var rec := data[id];
        match rec.job.status {
          case Pending =>
            EnumeratesOneMore(order, WithStatus(values, Pending) - rest, id);
            order := order + [id];
          case InFlight =>
            IndexAdd(active, data, WithStatus(values, InFlight) - rest, id);
            active := active[id := rec];
          case Completed =>
            IndexAdd(done, data, WithStatus(values, Completed) - rest, id);
            done := done[id := rec];
          case Dead =>
            IndexAdd(failed, data, WithStatus(values, Dead) - rest, id);
            failed := failed[id := rec];
        }
        rest := rest - {id};
      }
      AllSorted(values, Pending);
      AllSorted(values, InFlight);
      AllSorted(values, Completed);
      AllSorted(values, Dead);
    }

    /** A copy of every record. */
    method Snapshot() returns (data: SnapshotData)
      requires Valid()
      ensures data == SnapshotData(table.jobs, 1)
    {
      var copy: map<JobId, Job> := map[];
      var rest := jobs.Keys;
      while rest != {}
        invariant rest <= jobs.Keys && copy == table.jobs - rest
        decreases |rest|
      {
        var id :| id in rest;
        rest := rest - {id};
        copy := copy[id := jobs[id].job];
      }
      return SnapshotData(copy, 1);
    }

    /** A copy of the active records only. */
    method PartialSnapshot() returns (data: SnapshotData)
      requires Valid()
      ensures data == SnapshotData(Active(table.jobs), 2)
    {
      var copy: map<JobId, Job> := map[];
      var rest := jobs.Keys;
      while rest != {}
        invariant rest <= jobs.Keys && copy == Active(table.jobs) - rest
        decreases |rest|
      {
        var id :| id in rest;
        ActiveMore(table.jobs, rest, id);
        rest := rest - {id};
        var job := jobs[id].job;
        if job.status == Pending || job.status == InFlight {
          copy := copy[id := job];
        }
      }
      return SnapshotData(copy, 2);
    }

    method IsCompleted(id: JobId) returns (r: bool)
      requires Valid()
      ensures r == (id in table.completed)
    {
      r := id in completed;
    }

    method IsDead(id: JobId) returns (r: bool)
      requires Valid()
      ensures r == (id in table.dead)
    {
      r := id in dead;
    }

    method GetJob(id: JobId) returns (rec: JobRecord?)
      requires Valid()
      ensures rec == null <==> id !in table.jobs
      ensures rec != null ==> id in jobs && rec == jobs[id] && rec.job == table.jobs[id]
    {
      rec := if id in jobs then jobs[id] else null;
    }

    method GetTotalJobs() returns (n: int)
      requires Valid()
      ensures n == |table.jobs|
    {
      n := |jobs|;
      assert |jobs| == |jobs.Keys| && |table.jobs| == |table.jobs.Keys|;
    }
  }

  lemma ActiveMore(data: map<JobId, Job>, rest: set<JobId>, id: JobId)
    requires id in rest && id in data
    ensures Active(data) - (rest - {id})
         == if data[id].status == Pending || data[id].status == InFlight
            then (Active(data) - rest)[id := data[id]] else Active(data) - rest
  {}

  lemma AllSorted(data: map<JobId, Job>, s: Status)
    ensures WithStatus(data, s) - {} == WithStatus(data, s)
  {}

  lemma StatusSplits(data: map<JobId, Job>, rest: set<JobId>, id: JobId, s: Status)
    requires id in rest && id in data
    ensures data[id].status == s ==> WithStatus(data, s) - (rest - {id}) == (WithStatus(data, s) - rest) + {id}
    ensures data[id].status != s ==> WithStatus(data, s) - (rest - {id}) == WithStatus(data, s) - rest
  {}

  lemma EnumeratesOneMore(order: seq<JobId>, ids: set<JobId>, id: JobId)
    requires Enumerates(order, ids) && id !in ids
    ensures Enumerates(order + [id], ids + {id})
  {
    forall k | k in ids + {id} ensures k in order + [id] {
      if k != id { assert k in order; }
    }
  }
}
