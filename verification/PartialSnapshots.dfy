/** A partial snapshot leaves out settled jobs; what that changes for the future, and what not. */
module PartialSnapshots {
  import opened Jobs
  import opened ControllerSteps
  import opened SlotSteps
  import opened Conservation

  /** What may happen to the table after a restart, short of popping the queue. */
  datatype Op =
    | Committed(command: Command)
    | Dispatch(id: JobId, deadline: int)
    | Retry(id: JobId)
    | Kill(id: JobId)
    | Expire(id: JobId, maxRetry: int)

  function ApplyOp(t: Table, op: Op): Table {
    match op
    case Committed(c) => ApplyCommand(t, c)
    case Dispatch(id, deadline) => MarkInFlight(t, id, deadline).0
    case Retry(id) => Requeue(t, id).0
    case Kill(id) => MarkDead(t, id).0
    case Expire(id, maxRetry) => TimeOut(t, id, true, maxRetry).0
  }

  function ApplyOps(t: Table, ops: seq<Op>): Table
    decreases |ops|
  {
    if ops == [] then t else ApplyOp(ApplyOps(t, ops[..|ops| - 1]), ops[|ops| - 1])
  }

  predicate Enqueues(op: Op, id: JobId) {
    op.Committed? && op.command.EnqueueCommand? && Names(op.command.jobs, id)
  }

  // ---- One operation, one job ----

  lemma {:induction false} EnqueueBySlot(t: Table, u: Table, jobs: seq<Job>, id: JobId)
    requires Indexed(t) && Indexed(u) && SlotOf(t, id) == SlotOf(u, id)
    ensures Indexed(ApplyEnqueue(t, jobs)) && Indexed(ApplyEnqueue(u, jobs))
    ensures SlotOf(ApplyEnqueue(t, jobs), id) == SlotOf(ApplyEnqueue(u, jobs), id)
    decreases |jobs|
  {
    if jobs != [] {
      var init, last := jobs[..|jobs| - 1], jobs[|jobs| - 1];
      EnqueueBySlot(t, u, init, id);
      EnqueueOneBySlot(ApplyEnqueue(t, init), ApplyEnqueue(u, init), last, id);
    }
  }

  lemma EnqueueOneBySlot(t: Table, u: Table, job: Job, id: JobId)
    requires Indexed(t) && Indexed(u) && SlotOf(t, id) == SlotOf(u, id)
    ensures Indexed(Enqueue(t, job).0) && Indexed(Enqueue(u, job).0)
    ensures SlotOf(Enqueue(t, job).0, id) == SlotOf(Enqueue(u, job).0, id)
  {
    EnqueueKeepsIndexes(t, job);
    EnqueueKeepsIndexes(u, job);
  }

  lemma AckBySlot(t: Table, u: Table, k: JobId, status: Status, id: JobId)
    requires Indexed(t) && Indexed(u) && SlotOf(t, id) == SlotOf(u, id)
    ensures SlotOf(ApplyAck(t, k, status), id) == SlotOf(ApplyAck(u, k, status), id)
  {
    if k != id {
      OthersKeepSlots(t, k, 0, id);
      OthersKeepSlots(u, k, 0, id);
    }
  }

  lemma MoveBySlot(t: Table, u: Table, k: JobId, deadline: int, id: JobId)
    requires SlotOf(t, id) == SlotOf(u, id)
    ensures SlotOf(MarkInFlight(t, k, deadline).0, id) == SlotOf(MarkInFlight(u, k, deadline).0, id)
    ensures SlotOf(Requeue(t, k).0, id) == SlotOf(Requeue(u, k).0, id)
    ensures SlotOf(MarkDead(t, k).0, id) == SlotOf(MarkDead(u, k).0, id)
  {
    if k != id {
      OthersKeepSlots(t, k, deadline, id);
      OthersKeepSlots(u, k, deadline, id);
    }
  }

  lemma ExpireBySlot(t: Table, u: Table, k: JobId, maxRetry: int, id: JobId)
    requires SlotOf(t, id) == SlotOf(u, id)
    ensures SlotOf(TimeOut(t, k, true, maxRetry).0, id) == SlotOf(TimeOut(u, k, true, maxRetry).0, id)
  {
    if k != id {
      TimeOutOther(t, k, true, maxRetry, id);
      TimeOutOther(u, k, true, maxRetry, id);
    } else {
      TimeOutBySlot(t, u, id, true, maxRetry);
    }
  }

  /** What an operation does to a job depends on that job's slot alone. */
  lemma OpBySlot(t: Table, u: Table, op: Op, id: JobId)
    requires Indexed(t) && Indexed(u) && SlotOf(t, id) == SlotOf(u, id)
    ensures SlotOf(ApplyOp(t, op), id) == SlotOf(ApplyOp(u, op), id)
  {
    match op
    case Committed(c) =>
      match c {
        case EnqueueCommand(jobs) => EnqueueBySlot(t, u, jobs, id);
        case AckCommand(k, status) => AckBySlot(t, u, k, status, id);
      }
    case Dispatch(k, deadline) => MoveBySlot(t, u, k, deadline, id);
    case Retry(k) => MoveBySlot(t, u, k, 0, id);
    case Kill(k) => MoveBySlot(t, u, k, 0, id);
    case Expire(k, maxRetry) => ExpireBySlot(t, u, k, maxRetry, id);
  }

  lemma OpKeeps(t: Table, op: Op)
    ensures KeepsAll(t, ApplyOp(t, op))
  {
    match op
    case Committed(c) => ApplyKeeps(t, c);
    case Dispatch(id, deadline) => MarkKeeps(t, id, deadline);
    case Retry(id) => SettleKeeps(t, id);
    case Kill(id) => SettleKeeps(t, id);
    case Expire(id, maxRetry) => TimeOutKeeps(t, id, true, maxRetry);
  }

  lemma {:induction false} OpsKeep(t: Table, ops: seq<Op>)
    ensures KeepsAll(t, ApplyOps(t, ops))
    decreases |ops|
  {
    if ops != [] {
      var t1 := ApplyOps(t, ops[..|ops| - 1]);
      OpsKeep(t, ops[..|ops| - 1]);
      OpKeeps(t1, ops[|ops| - 1]);
      KeepsTrans(t, t1, ApplyOp(t1, ops[|ops| - 1]));
    }
  }

  lemma {:induction false} OpsBySlot(t: Table, u: Table, ops: seq<Op>, id: JobId)
    requires Indexed(t) && Indexed(u) && SlotOf(t, id) == SlotOf(u, id)
    ensures SlotOf(ApplyOps(t, ops), id) == SlotOf(ApplyOps(u, ops), id)
    decreases |ops|
  {
    if ops != [] {
      var init := ops[..|ops| - 1];
      OpsBySlot(t, u, init, id);
      OpsKeep(t, init);
      OpsKeep(u, init);
      OpBySlot(ApplyOps(t, init), ApplyOps(u, init), ops[|ops| - 1], id);
    }
  }

  // ---- Absent jobs ----

  /** An ID enters the table only by an operation that enqueues it. */
  lemma {:induction false} OpsAbsent(t: Table, ops: seq<Op>, id: JobId)
    ensures id in ApplyOps(t, ops).jobs <==> id in t.jobs || exists i :: 0 <= i < |ops| && Enqueues(ops[i], id)
    decreases |ops|
  {
    if ops != [] {
      var init, last := ops[..|ops| - 1], ops[|ops| - 1];
      OpsAbsent(t, init, id);
      if last.Committed? && last.command.EnqueueCommand? {
        ApplyEnqueueAdds(ApplyOps(t, init), last.command.jobs, id);
      }
      if exists i :: 0 <= i < |init| && Enqueues(init[i], id) {
        var i :| 0 <= i < |init| && Enqueues(init[i], id);
        assert Enqueues(ops[i], id);
      }
      if i :| 0 <= i < |ops| && Enqueues(ops[i], id) {
        if i < |init| { assert Enqueues(init[i], id); }
      }
    }
  }

  // ---- The simulation ----

  /** The settled jobs: what a partial snapshot leaves out. */
  function Dropped(jobs: map<JobId, Job>): set<JobId> {
    WithStatus(jobs, Completed) + WithStatus(jobs, Dead)
  }

  lemma RestoredSlot(s: Table, order: seq<JobId>, id: JobId)
    requires Indexed(s) && id !in Dropped(s.jobs)
    ensures SlotOf(Restored(Active(s.jobs), order), id) == SlotOf(s, id)
  {}

  /** Partial snapshots preserve behaviour: restore the active jobs only, then let anything
      happen. Every job that was not settled at the snapshot, and every job that is new, has at
      all times exactly the record it would have had in the full state, and is queued if pending. */
  lemma ActiveJobsSimulated(s: Table, order: seq<JobId>, ops: seq<Op>, id: JobId)
    requires Indexed(s) && id !in Dropped(s.jobs)
    requires Enumerates(order, WithStatus(Active(s.jobs), Pending))
    ensures var partial, full := ApplyOps(Restored(Active(s.jobs), order), ops), ApplyOps(s, ops);
            && SlotOf(partial, id) == SlotOf(full, id)
            && (Has(partial, id, Pending) ==> id in partial.queue)
  {
    var p := Restored(Active(s.jobs), order);
    RestoredIsIndexed(Active(s.jobs), order);
    RestoredSlot(s, order, id);
    OpsBySlot(p, s, ops, id);
    OpsKeep(p, ops);
    if Has(p, id, Pending) { assert id in order; }
  }

  /** The two tables differ by exactly the dropped jobs exactly when no dropped ID is enqueued
      again: the full state would skip it, the restored one takes it as new. */
  lemma DroppedStayDroppedIff(s: Table, order: seq<JobId>, ops: seq<Op>)
    requires Indexed(s) && Enumerates(order, WithStatus(Active(s.jobs), Pending))
    ensures ApplyOps(Restored(Active(s.jobs), order), ops).jobs == ApplyOps(s, ops).jobs - Dropped(s.jobs)
        <==> forall id, i :: id in Dropped(s.jobs) && 0 <= i < |ops| ==> !Enqueues(ops[i], id)
  {
    var p := Restored(Active(s.jobs), order);
    var partial, full := ApplyOps(p, ops), ApplyOps(s, ops);
    forall id | id in Dropped(s.jobs)
      ensures id in partial.jobs <==> exists i :: 0 <= i < |ops| && Enqueues(ops[i], id)
    {
      OpsAbsent(p, ops, id);
    }
    forall id | id !in Dropped(s.jobs) ensures SlotOf(partial, id) == SlotOf(full, id) {
      ActiveJobsSimulated(s, order, ops, id);
    }
    if forall id, i :: id in Dropped(s.jobs) && 0 <= i < |ops| ==> !Enqueues(ops[i], id) {
      SameOutside(partial, full, Dropped(s.jobs));
    } else {
      var id, i :| id in Dropped(s.jobs) && 0 <= i < |ops| && Enqueues(ops[i], id);
      assert id in partial.jobs;
    }
  }

  lemma SameOutside(t: Table, u: Table, ids: set<JobId>)
    requires forall id :: id in ids ==> id !in t.jobs
    requires forall id :: id !in ids ==> SlotOf(t, id) == SlotOf(u, id)
    ensures t.jobs == u.jobs - ids
  {
    forall id ensures id in t.jobs <==> id in u.jobs - ids {
      assert id !in ids ==> SlotOf(t, id) == SlotOf(u, id);
    }
    forall id | id in t.jobs ensures t.jobs[id] == (u.jobs - ids)[id] {
      assert SlotOf(t, id) == SlotOf(u, id);
    }
  }
}
