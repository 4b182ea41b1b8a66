/** Each section of the controller seen from one job: which slots it leaves alone. */
module SlotSteps {
  import opened Jobs
  import opened ControllerSteps

  lemma {:induction false} AddJobsSlot(t: Table, jobs: seq<Job>, id: JobId)
    requires id in t.jobs
    ensures SlotOf(AddJobs(t, jobs).0, id) == SlotOf(t, id)
    decreases |jobs|
  {
    if jobs != [] {
      AddJobsSlot(t, jobs[..|jobs| - 1], id);
    }
  }

  lemma {:induction false} ApplyEnqueueSlot(t: Table, jobs: seq<Job>, id: JobId)
    requires id in t.jobs
    ensures SlotOf(ApplyEnqueue(t, jobs), id) == SlotOf(t, id)
    decreases |jobs|
  {
    if jobs != [] {
      ApplyEnqueueSlot(t, jobs[..|jobs| - 1], id);
    }
  }

  predicate Names(jobs: seq<Job>, id: JobId) {
    exists i :: 0 <= i < |jobs| && jobs[i].id == id
  }

  /** Enqueueing adds exactly the jobs it names, waiting, and settles nothing. */
  lemma {:induction false} ApplyEnqueueAdds(t: Table, jobs: seq<Job>, id: JobId)
    ensures var t' := ApplyEnqueue(t, jobs);
            && (id in t'.jobs <==> id in t.jobs || Names(jobs, id))
            && (id in t'.jobs && id !in t.jobs ==> t'.jobs[id].status == Pending)
            && t'.completed == t.completed && t'.dead == t.dead
    decreases |jobs|
  {
    if jobs != [] {
      var init, last := jobs[..|jobs| - 1], jobs[|jobs| - 1];
      ApplyEnqueueAdds(t, init, id);
      if Names(init, id) {
        var i :| 0 <= i < |init| && init[i].id == id;
        assert jobs[i].id == id;
      }
      if Names(jobs, id) && last.id != id {
        var i :| 0 <= i < |jobs| && jobs[i].id == id;
        assert init[i].id == id;
      }
    }
  }

  lemma {:induction false} PopBatchSlot(t: Table, n: int, id: JobId)
    ensures SlotOf(PopBatch(t, n).0, id) == SlotOf(t, id)
    decreases n
  {
    if n > 0 {
      PopBatchSlot(t, n - 1, id);
    }
  }

  /** Marking a batch moves exactly its pending jobs. */
  lemma {:induction false} MarkAllSlot(t: Table, ids: seq<JobId>, deadline: int, id: JobId)
    ensures SlotOf(MarkAll(t, ids, deadline), id) ==
              if id in ids && id in t.jobs && t.jobs[id].status == Pending
              then SlotOf(MarkInFlight(t, id, deadline).0, id) else SlotOf(t, id)
    decreases |ids|
  {
    if ids != [] {
      var init, last := ids[..|ids| - 1], ids[|ids| - 1];
      MarkAllSlot(t, init, deadline, id);
      assert ids == init + [last];
      if last != id {
        OthersKeepSlots(MarkAll(t, init, deadline), last, deadline, id);
      }
    }
  }

  lemma TimeOutOther(t: Table, id: JobId, ok: bool, maxRetry: int, other: JobId)
    requires other != id
    ensures SlotOf(TimeOut(t, id, ok, maxRetry).0, other) == SlotOf(t, other)
  {
    if id in t.jobs {
      OthersKeepSlots(t, id, 0, other);
      OthersKeepSlots(CountAttempt(t, id), id, 0, other);
    }
  }

  lemma ResultOther(t: Table, id: JobId, success: bool, ok: bool, maxRetry: int, other: JobId)
    requires other != id
    ensures SlotOf(HandleResult(t, id, success, ok, maxRetry).0, other) == SlotOf(t, other)
  {
    OthersKeepSlots(t, id, 0, other);
    if id in t.jobs {
      OthersKeepSlots(CountAttempt(t, id), id, 0, other);
    }
  }

  /** A sweep moves a listed job once and no other. */
  lemma {:induction false} SweepSlot(t: Table, ids: seq<JobId>, failed: set<JobId>, maxRetry: int, id: JobId)
    requires forall i, j :: 0 <= i < j < |ids| ==> ids[i] != ids[j]
    ensures SlotOf(Sweep(t, ids, failed, maxRetry).0, id) ==
              if id in ids then SlotOf(TimeOut(t, id, id !in failed, maxRetry).0, id) else SlotOf(t, id)
    decreases |ids|
  {
    if ids != [] {
      var init, last := ids[..|ids| - 1], ids[|ids| - 1];
      SweepSlot(t, init, failed, maxRetry, id);
      assert ids == init + [last];
      var t1 := Sweep(t, init, failed, maxRetry).0;
      if last != id {
        TimeOutOther(t1, last, last !in failed, maxRetry, id);
      } else {
        TimeOutBySlot(t, t1, id, id !in failed, maxRetry);
      }
    }
  }

  /** What a timeout does to a job depends on that job's slot alone. */
  lemma TimeOutBySlot(t: Table, t1: Table, id: JobId, ok: bool, maxRetry: int)
    requires SlotOf(t, id) == SlotOf(t1, id)
    ensures SlotOf(TimeOut(t, id, ok, maxRetry).0, id) == SlotOf(TimeOut(t1, id, ok, maxRetry).0, id)
  {}

  lemma ApplyOther(t: Table, c: Command, id: JobId)
    requires id in t.jobs && (c.AckCommand? ==> c.id != id || id in t.completed || id in t.dead)
    ensures SlotOf(ApplyCommand(t, c), id) == SlotOf(t, id)
  {
    match c
    case EnqueueCommand(jobs) => ApplyEnqueueSlot(t, jobs, id);
    case AckCommand(other, _) =>
      if other != id { OthersKeepSlots(t, other, 0, id); }
  }
}
