/** The controller object over its job manager and its write-ahead log. Every method is one
    lock-held section, proved to compute the function of the same name. Times and the fate of
    each log append come from outside. */
module ControllerServer {
  import opened Jobs
  import opened ControllerSteps
  import opened CommandLog
  import opened JobServer

  /** What the apply channel carries; only valid messages hold a command. */
  datatype ApplyMsg = ApplyMsg(valid: bool, index: int, command: Command)

  function Commands(msgs: seq<ApplyMsg>): seq<Command>
    decreases |msgs|
  {
    if msgs == [] then []
    else Commands(msgs[..|msgs| - 1]) + if msgs[|msgs| - 1].valid then [msgs[|msgs| - 1].command] else []
  }

  /** The index of the last valid message, or the given one if there is none. */
  function LastIndex(msgs: seq<ApplyMsg>, start: int): int
    decreases |msgs|
  {
    if msgs == [] then start
    else if msgs[|msgs| - 1].valid then msgs[|msgs| - 1].index
    else LastIndex(msgs[..|msgs| - 1], start)
  }

  lemma OneMoreCommand(t: Table, start: int, msgs: seq<ApplyMsg>, i: nat)
    requires i < |msgs|
    ensures ApplyAll(t, Commands(msgs[..i + 1]))
         == if msgs[i].valid then ApplyCommand(ApplyAll(t, Commands(msgs[..i])), msgs[i].command) else ApplyAll(t, Commands(msgs[..i]))
    ensures LastIndex(msgs[..i + 1], start) == if msgs[i].valid then msgs[i].index else LastIndex(msgs[..i], start)
  {
    assert msgs[..i + 1][..i] == msgs[..i];
    var before := Commands(msgs[..i]);
    if msgs[i].valid {
      assert (before + [msgs[i].command])[..|before|] == before;
    } else {
      assert Commands(msgs[..i + 1]) == before + [];
      assert before + [] == before;
    }
  }

  /** Valid messages alone count: all of them, in order. */
  lemma {:induction false} ValidCount(msgs: seq<ApplyMsg>, start: int)
    requires forall i :: 0 <= i < |msgs| ==> msgs[i].valid
    ensures |Commands(msgs)| == |msgs| && forall i :: 0 <= i < |msgs| ==> Commands(msgs)[i] == msgs[i].command
    ensures LastIndex(msgs, start) == if msgs == [] then start else msgs[|msgs| - 1].index
    decreases |msgs|
  {
    if msgs != [] { ValidCount(msgs[..|msgs| - 1], start); }
  }

  lemma {:induction false} InvalidIsSkipped(before: seq<ApplyMsg>, m: ApplyMsg, after: seq<ApplyMsg>, start: int)
    requires !m.valid
    ensures Commands(before + [m] + after) == Commands(before + after)
    ensures LastIndex(before + [m] + after, start) == LastIndex(before + after, start)
    decreases |after|
  {
    if after == [] {
      assert (before + [m] + after)[..|before|] == before == before + after;
    } else {
      var init := after[..|after| - 1];
      InvalidIsSkipped(before, m, init, start);
      assert (before + [m] + after)[..|before| + |after|] == before + [m] + init;
      assert (before + after)[..|before| + |init|] == before + init;
    }
  }

  class Controller {
    const maxRetry: int
    const jobManager: JobManager
    var wal: seq<Event>
    var stopped: bool

    ghost predicate Valid()
      reads this, jobManager, jobManager.jobs.Values
    {
      jobManager.Valid()
    }

    constructor (maxRetry: int)
      ensures Valid() && this.maxRetry == maxRetry && wal == [] && !stopped
      ensures fresh(jobManager) && jobManager.table == EMPTY
    {
      this.maxRetry, wal, stopped := maxRetry, [], false;
      jobManager := new JobManager();
    }

    /** Jobs that are known already are skipped. */
    method EnqueueCommitted(jobs: seq<Job>)
      requires Valid()
      modifies jobManager
      ensures Valid() && jobManager.table == ApplyEnqueue(old(jobManager.table), jobs)
      ensures fresh(jobManager.jobs.Values - old(jobManager.jobs.Values))
    {
      for i := 0 to |jobs|
        invariant Valid() && fresh(jobManager.jobs.Values - old(jobManager.jobs.Values))
        invariant jobManager.table == ApplyEnqueue(old(jobManager.table), jobs[..i])
      {
        assert jobs[..i + 1][..i] == jobs[..i];
        var known := jobManager.GetJob(jobs[i].id);
        if known != null {
          continue;
        }
        var _ := jobManager.Enqueue(jobs[i]);
      }
      assert jobs[..|jobs|] == jobs;
    }

    method HandleRaftCommand(c: Command)
      requires Valid()
      modifies this, jobManager, jobManager.jobs.Values
      ensures Valid() && wal == old(wal) && fresh(jobManager.jobs.Values - old(jobManager.jobs.Values))
      ensures jobManager.table == ApplyCommand(old(jobManager.table), c)
    {
      match c
      case EnqueueCommand(jobs) =>
        EnqueueCommitted(jobs);
      case AckCommand(id, status) =>
        var completed := jobManager.IsCompleted(id);
        var dead := jobManager.IsDead(id);
        if completed || dead {
          return;
        }
        var rec := jobManager.GetJob(id);
        if rec != null {
          if status == Completed {
            var _ := jobManager.MarkCompleted(rec.id);
          } else {
            var _ := jobManager.MarkDead(rec.id);
          }
        }
    }

    /** The apply loop over the messages it receives. */
    method ApplyLoop(msgs: seq<ApplyMsg>)
      requires Valid()
      modifies this, jobManager, jobManager.jobs.Values
      ensures Valid() && wal == old(wal)
      ensures jobManager.table == ApplyAll(old(jobManager.table), Commands(msgs))
      ensures jobManager.lastAppliedIndex == LastIndex(msgs, old(jobManager.lastAppliedIndex))
    {
      ghost var t, start := jobManager.table, jobManager.lastAppliedIndex;
      for i := 0 to |msgs|
        invariant Valid() && wal == old(wal) && fresh(jobManager.jobs.Values - old(jobManager.jobs.Values))
        invariant jobManager.table == ApplyAll(t, Commands(msgs[..i]))
        invariant jobManager.lastAppliedIndex == LastIndex(msgs[..i], start)
      {
        OneMoreCommand(t, start, msgs, i);
        ApplyMessage(msgs[i]);
      }
      assert msgs[..|msgs|] == msgs;
    }

    method ApplyMessage(msg: ApplyMsg)
      requires Valid()
      modifies this, jobManager, jobManager.jobs.Values
      ensures Valid() && wal == old(wal) && fresh(jobManager.jobs.Values - old(jobManager.jobs.Values))
      ensures jobManager.table == if msg.valid then ApplyCommand(old(jobManager.table), msg.command) else old(jobManager.table)
      ensures jobManager.lastAppliedIndex == if msg.valid then msg.index else old(jobManager.lastAppliedIndex)
    {
      if msg.valid {
        HandleRaftCommand(msg.command);
        jobManager.SetLastAppliedIndex(msg.index);
      }
    }

    /** The lock-held half of EnqueueJobs. */
    method AddJobs(jobs: seq<Job>) returns (r: Result)
      requires Valid()
      modifies this, jobManager, jobManager.jobs.Values
      ensures Valid() && wal == old(wal)
      ensures (jobManager.table, r) == ControllerSteps.AddJobs(old(jobManager.table), jobs)
    {
      r := Ok;
      for i := 0 to |jobs|
        invariant Valid() && wal == old(wal)
        invariant fresh(jobManager.jobs.Values - old(jobManager.jobs.Values))
        invariant r == Ok
        invariant (jobManager.table, r) == ControllerSteps.AddJobs(old(jobManager.table), jobs[..i])
      {
        assert jobs[..i + 1][..i] == jobs[..i];
        r := jobManager.Enqueue(jobs[i]);
        if r.Err? {
          FirstErrorStays(old(jobManager.table), jobs, i + 1);
          return;
        }
      }
      assert jobs[..|jobs|] == jobs;
    }

    /** Up to n records off the queue, in one lock-held section. */
    method PopBatch(n: int) returns (batch: seq<JobRecord>)
      requires Valid()
      modifies jobManager
      ensures Valid() && jobManager.jobs == old(jobManager.jobs)
      ensures jobManager.table == ControllerSteps.PopBatch(old(jobManager.table), n).0
      ensures Ids(batch) == ControllerSteps.PopBatch(old(jobManager.table), n).1
    {
      batch := [];
      var i := 0;
      while i < n
        invariant Valid() && jobManager.jobs == old(jobManager.jobs)
        invariant 0 <= i && |batch| == i && (i <= n || i == 0)
        invariant jobManager.table == ControllerSteps.PopBatch(old(jobManager.table), i).0
        invariant Ids(batch) == ControllerSteps.PopBatch(old(jobManager.table), i).1
      {
        var rec := jobManager.PopPending();
        if rec == null {
          IdsLength(batch);
          ShortBatchStays(old(jobManager.table), i + 1, n);
          return;
        }
        IdsSnoc(batch, rec);
        batch := batch + [rec];
        i := i + 1;
      }
    }

    /** The marking phase of a dispatcher. */
    method MarkBatch(batch: seq<JobRecord>, deadline: int)
      requires Valid()
      modifies jobManager, jobManager.jobs.Values
      ensures Valid() && jobManager.jobs == old(jobManager.jobs)
      ensures jobManager.table == MarkAll(old(jobManager.table), Ids(batch), deadline)
    {
      ghost var ids := Ids(batch);
      IdsLength(batch);
      for i := 0 to |batch|
        invariant Valid() && jobManager.jobs == old(jobManager.jobs)
        invariant jobManager.table == MarkAll(old(jobManager.table), ids[..i], deadline)
      {
        OneMoreMarked(old(jobManager.table), ids, i, deadline);
        var _ := jobManager.MarkInFlight(batch[i].id, deadline);
      }
      assert ids[..|ids|] == ids;
    }

    /** One append to the log; its caller is told whether it succeeded. */
    method Append(kind: EventKind, id: JobId, succeeds: bool) returns (logged: bool)
      modifies `wal
      ensures logged == succeeds && wal == old(wal) + if succeeds then [Event(kind, id)] else []
    {
      if succeeds {
        wal := wal + [Event(kind, id)];
      }
      return succeeds;
    }

    /** The worker-facing poll: pop, log and mark without letting go of the lock. Appends for
        the jobs in failed do not succeed, which is only reported. */
    method Poll(n: int, deadline: int, failed: set<JobId>) returns (batch: seq<JobRecord>, closed: bool)
      requires Valid()
      modifies `wal, jobManager, jobManager.jobs.Values
      ensures Valid() && closed == stopped
      ensures stopped ==> batch == [] && jobManager.table == old(jobManager.table) && wal == old(wal)
      ensures !stopped ==>
                var (t, ids, es) := ControllerSteps.Poll(old(jobManager.table), n, deadline, failed);
                jobManager.table == t && Ids(batch) == ids && wal == old(wal) + es
    {
      closed := stopped;
      if closed {
        return [], closed;
      }
      batch := PopBatch(n);
      LogAndMark(batch, deadline, failed);
    }

    method LogAndMark(batch: seq<JobRecord>, deadline: int, failed: set<JobId>)
      requires Valid()
      modifies `wal, jobManager, jobManager.jobs.Values
      ensures Valid() && jobManager.jobs == old(jobManager.jobs)
      ensures jobManager.table == MarkAll(old(jobManager.table), Ids(batch), deadline)
      ensures wal == old(wal) + DispatchEvents(Ids(batch), failed)
    {
      ghost var ids := Ids(batch);
      IdsLength(batch);
      for i := 0 to |batch|
        invariant Valid() && jobManager.jobs == old(jobManager.jobs)
        invariant jobManager.table == MarkAll(old(jobManager.table), ids[..i], deadline)
        invariant wal == old(wal) + DispatchEvents(ids[..i], failed)
      {
        assert ids[..i + 1][..i] == ids[..i];
        var id := batch[i].id;
        LogGrows(old(wal), DispatchEvents(ids[..i], failed), if id in failed then [] else [Event(DispatchEvent, id)]);
        var _ := Append(DispatchEvent, id, id !in failed);
        var _ := jobManager.MarkInFlight(id, deadline);
      }
      assert ids[..|ids|] == ids;
    }

    /** One worker result; logged tells whether its append succeeds. */
    method HandleResult(id: JobId, success: bool, logged: bool)
      requires Valid()
      modifies `wal, jobManager, jobManager.jobs.Values
      ensures Valid()
      ensures var (t, es) := ControllerSteps.HandleResult(old(jobManager.table), id, success, logged, maxRetry);
              jobManager.table == t && wal == old(wal) + es
    {
      var rec := jobManager.GetJob(id);
      if rec == null {
        return;
      }
      if success {
        var ok := Append(AckEvent, id, logged);
        if !ok {
          return;
        }
        var _ := jobManager.MarkCompleted(id);
      } else {
        CountAttempt(rec);
        if rec.job.attempt >= maxRetry {
          var ok := Append(DeadEvent, id, logged);
          if !ok {
            return;
          }
          var _ := jobManager.MarkDead(id);
        } else {
          var ok := Append(RetryEvent, id, logged);
          if !ok {
            return;
          }
          var _ := jobManager.Requeue(id);
        }
      }
    }

    /** One tick of the timeout loop, in the order the expired jobs come out of the map. */
    method SweepTimeouts(now: int, failed: set<JobId>) returns (ghost order: seq<JobId>)
      requires Valid()
      modifies `wal, jobManager, jobManager.jobs.Values
      ensures Valid() && Enumerates(order, Expired(old(jobManager.table), now))
      ensures var (t, es) := Sweep(old(jobManager.table), order, failed, maxRetry);
              jobManager.table == t && wal == old(wal) + es
    {
      var ids := jobManager.GetExpiredJobs(now);
      order := ids;
      ghost var es: seq<Event> := [];
      for i := 0 to |ids|
        invariant Valid() && jobManager.jobs == old(jobManager.jobs)
        invariant Sweep(old(jobManager.table), ids[..i], failed, maxRetry) == (jobManager.table, es)
        invariant wal == old(wal) + es
      {
        assert ids[..i + 1][..i] == ids[..i];
        ghost var more := TimeOut(jobManager.table, ids[i], ids[i] !in failed, maxRetry).1;
        TimeOutOne(ids[i], ids[i] !in failed);
        LogGrows(old(wal), es, more);
        es := es + more;
      }
      assert ids[..|ids|] == ids;
    }

    method TimeOutOne(id: JobId, succeeds: bool)
      requires Valid()
      modifies `wal, jobManager, jobManager.jobs.Values
      ensures Valid() && jobManager.jobs == old(jobManager.jobs)
      ensures var (t, es) := TimeOut(old(jobManager.table), id, succeeds, maxRetry);
              jobManager.table == t && wal == old(wal) + es
    {
      var rec := jobManager.GetJob(id);
      if rec == null {
        return;
      }
      var ok := Append(TimeoutEvent, id, succeeds);
      if !ok {
        return;
      }
      CountAttempt(rec);
      DieOrRetry(id);
    }

    method DieOrRetry(id: JobId)
      requires Valid() && id in jobManager.table.jobs
      modifies jobManager, jobManager.jobs.Values
      ensures Valid() && jobManager.jobs == old(jobManager.jobs)
      ensures var t := old(jobManager.table);
              jobManager.table == if t.jobs[id].attempt >= maxRetry then Jobs.MarkDead(t, id).0 else Jobs.Requeue(t, id).0
    {
      if jobManager.jobs[id].job.attempt >= maxRetry {
        var _ := jobManager.MarkDead(id);
      } else {
        var _ := jobManager.Requeue(id);
      }
    }

    /** Applies logged events in order and stops at the first one the table refuses. */
    method ReplayWAL(es: seq<Event>, clock: nat -> int) returns (r: Result)
      requires Valid()
      modifies jobManager, jobManager.jobs.Values
      ensures Valid() && jobManager.jobs == old(jobManager.jobs)
      ensures (jobManager.table, r) == Replay(old(jobManager.table), es, clock)
    {
      r := Ok;
      for i := 0 to |es|
        invariant Valid() && jobManager.jobs == old(jobManager.jobs) && r == Ok
        invariant (jobManager.table, r) == Replay(old(jobManager.table), es[..i], clock)
      {
        assert es[..i + 1][..i] == es[..i];
        r := ReplayOne(es[i], clock(i));
        if r.Err? {
          FirstRefusalStays(old(jobManager.table), es, i + 1, clock);
          return;
        }
      }
      assert es[..|es|] == es;
    }

    method ReplayOne(e: Event, deadline: int) returns (r: Result)
      requires Valid()
      modifies jobManager, jobManager.jobs.Values
      ensures Valid() && jobManager.jobs == old(jobManager.jobs)
      ensures (jobManager.table, r) == ReplayEvent(old(jobManager.table), e, deadline)
    {
      match e.kind
      case EnqueueEvent =>
        r := Ok;
      case DispatchEvent =>
        var completed := jobManager.IsCompleted(e.id);
        var dead := jobManager.IsDead(e.id);
        if completed || dead {
          return Ok;
        }
        r := jobManager.MarkInFlight(e.id, deadline);
      case AckEvent =>
        var completed := jobManager.IsCompleted(e.id);
        if completed {
          return Ok;
        }
        r := jobManager.MarkCompleted(e.id);
      case RetryEvent =>
        r := jobManager.Requeue(e.id);
      case TimeoutEvent =>
        r := jobManager.Requeue(e.id);
      case DeadEvent =>
        r := jobManager.MarkDead(e.id);
    }

    /** The last recovery step of Start: whatever is in flight goes back to the queue. */
    method RequeueInFlight() returns (ghost order: seq<JobId>)
      requires Valid()
      modifies jobManager, jobManager.jobs.Values
      ensures Valid() && Enumerates(order, old(jobManager.table).inFlight)
      ensures jobManager.table == RequeueAll(old(jobManager.table), order)
    {
      var ids := jobManager.GetAllInFlightJobs();
      order := ids;
      for i := 0 to |ids|
        invariant Valid() && jobManager.jobs == old(jobManager.jobs)
        invariant jobManager.table == RequeueAll(old(jobManager.table), ids[..i])
      {
        assert ids[..i + 1][..i] == ids[..i];
        var _ := jobManager.Requeue(ids[i]);
      }
      assert ids[..|ids|] == ids;
    }

    /** The recovery part of Start: restore, replay, requeue what was in flight. */
    method Recover(data: map<JobId, JobRecord>, ghost values: map<JobId, Job>, es: seq<Event>, clock: nat -> int)
      returns (r: Result, ghost restored: seq<JobId>, ghost requeued: seq<JobId>)
      requires Valid() && Holds(data, values)
      modifies jobManager, jobManager.jobs.Values, data.Values
      ensures Valid() && Enumerates(restored, WithStatus(values, Pending))
      ensures r == Replay(Restored(values, restored), es, clock).1
      ensures r == Ok ==>
                var t := Replay(Restored(values, restored), es, clock).0;
                Enumerates(requeued, t.inFlight) && jobManager.table == RequeueAll(t, requeued)
    {
      jobManager.Restore(data, values);
      restored, requeued := jobManager.queue, [];
      r := ReplayWAL(es, clock);
      if r == Ok {
        requeued := RequeueInFlight();
      }
    }

    /** Under Raft only the active jobs go into the snapshot. */
    method TakeSnapshot(raft: bool) returns (data: SnapshotData)
      requires Valid()
      ensures data.jobs == if raft then Active(jobManager.table.jobs) else jobManager.table.jobs
    {
      if raft {
        data := jobManager.PartialSnapshot();
      } else {
        data := jobManager.Snapshot();
      }
    }

    /** Counting an attempt goes around the job manager, through the shared record. */
    method CountAttempt(rec: JobRecord)
      requires Valid() && rec.id in jobManager.jobs && jobManager.jobs[rec.id] == rec
      modifies rec, jobManager`table
      ensures Valid() && rec.id in old(jobManager.table).jobs
      ensures jobManager.table == Jobs.CountAttempt(old(jobManager.table), rec.id)
    {
      rec.CountAttempt();
      jobManager.table := Jobs.CountAttempt(jobManager.table, rec.id);
    }
  }

  lemma OneMoreMarked(t: Table, ids: seq<JobId>, i: nat, deadline: int)
    requires i < |ids|
    ensures MarkAll(t, ids[..i + 1], deadline) == Jobs.MarkInFlight(MarkAll(t, ids[..i], deadline), ids[i], deadline).0
  {
    assert ids[..i + 1][..i] == ids[..i];
  }

  /** IDs never change, so they can be read off a batch at any time. */
  ghost function Ids(batch: seq<JobRecord>): seq<JobId>
    decreases |batch|
  {
    if batch == [] then [] else Ids(batch[..|batch| - 1]) + [batch[|batch| - 1].id]
  }

  lemma {:induction false} IdsSnoc(batch: seq<JobRecord>, rec: JobRecord)
    ensures Ids(batch + [rec]) == Ids(batch) + [rec.id] && |Ids(batch)| == |batch|
  {
    assert (batch + [rec])[..|batch|] == batch;
    IdsLength(batch);
  }

  lemma {:induction false} IdsLength(batch: seq<JobRecord>)
    ensures |Ids(batch)| == |batch| && forall i :: 0 <= i < |batch| ==> Ids(batch)[i] == batch[i].id
    decreases |batch|
  {
    if batch != [] {
      IdsLength(batch[..|batch| - 1]);
    }
  }

  lemma LogGrows(wal: seq<Event>, es: seq<Event>, more: seq<Event>)
    ensures (wal + es) + more == wal + (es + more)
  {}

  lemma {:induction false} FirstErrorStays(t: Table, jobs: seq<Job>, i: nat)
    requires i <= |jobs| && ControllerSteps.AddJobs(t, jobs[..i]).1.Err?
    ensures ControllerSteps.AddJobs(t, jobs) == ControllerSteps.AddJobs(t, jobs[..i])
    decreases |jobs|
  {
    if i < |jobs| {
      var init := jobs[..|jobs| - 1];
      assert init[..i] == jobs[..i];
      FirstErrorStays(t, init, i);
    } else {
      assert jobs[..i] == jobs;
    }
  }

  lemma {:induction false} FirstRefusalStays(t: Table, es: seq<Event>, i: nat, clock: nat -> int)
    requires i <= |es| && Replay(t, es[..i], clock).1.Err?
    ensures Replay(t, es, clock) == Replay(t, es[..i], clock)
    decreases |es|
  {
    if i < |es| {
      var init := es[..|es| - 1];
      assert init[..i] == es[..i];
      FirstRefusalStays(t, init, i, clock);
    } else {
      assert es[..i] == es;
    }
  }

  lemma {:induction false} ShortBatchStays(t: Table, i: int, n: int)
    requires 0 < i <= n && |ControllerSteps.PopBatch(t, i).1| < i
    ensures ControllerSteps.PopBatch(t, n) == ControllerSteps.PopBatch(t, i)
    decreases n
  {
    if i < n {
      ShortBatchStays(t, i, n - 1);
    }
  }
}
