/** No job is lost, on every run of the job system. */
module Conservation {
  import opened Jobs
  import opened ControllerSteps
  import opened JobSystem

  // ---- What every change of the table keeps ----

  predicate Has(t: Table, id: JobId, status: Status) {
    id in t.jobs && t.jobs[id].status == status
  }

  /** Jobs stay, dead jobs stay dead, queued jobs stay queued, and whatever becomes pending is
      queued. */
  ghost predicate Keeps(t: Table, t': Table) {
    && t.jobs.Keys <= t'.jobs.Keys
    && (forall id :: Has(t, id, Dead) ==> Has(t', id, Dead))
    && (forall id :: Has(t', id, Pending) ==> Has(t, id, Pending) || id in t'.queue)
    && (forall id :: id in t.queue ==> id in t'.queue)
  }

  ghost predicate KeepsAll(t: Table, t': Table) {
    Keeps(t, t') && (Indexed(t) ==> Indexed(t'))
  }

  lemma KeepsTrans(t: Table, t1: Table, t2: Table)
    requires KeepsAll(t, t1) && KeepsAll(t1, t2)
    ensures KeepsAll(t, t2)
  {}

  lemma EnqueueKeeps(t: Table, job: Job)
    ensures KeepsAll(t, Enqueue(t, job).0)
  {
    if Indexed(t) { EnqueueKeepsIndexes(t, job); }
  }

  lemma MarkKeeps(t: Table, id: JobId, deadline: int)
    ensures KeepsAll(t, MarkInFlight(t, id, deadline).0)
  {
    if Indexed(t) { DispatchKeepsIndexes(t, id, deadline); }
  }

  lemma SettleKeeps(t: Table, id: JobId)
    ensures KeepsAll(t, MarkCompleted(t, id).0) && KeepsAll(t, MarkDead(t, id).0) && KeepsAll(t, Requeue(t, id).0)
  {
    if Indexed(t) { SettleKeepsIndexes(t, id); }
  }

  lemma CountKeeps(t: Table, id: JobId)
    requires id in t.jobs
    ensures KeepsAll(t, CountAttempt(t, id))
  {
    if Indexed(t) { DispatchKeepsIndexes(t, id, 0); }
  }

  lemma {:induction false} AddJobsKeeps(t: Table, jobs: seq<Job>)
    ensures KeepsAll(t, AddJobs(t, jobs).0)
    decreases |jobs|
  {
    if jobs != [] {
      var t1 := AddJobs(t, jobs[..|jobs| - 1]).0;
      AddJobsKeeps(t, jobs[..|jobs| - 1]);
      EnqueueKeeps(t1, jobs[|jobs| - 1]);
      KeepsTrans(t, t1, Enqueue(t1, jobs[|jobs| - 1]).0);
    }
  }

  lemma {:induction false} ApplyEnqueueKeeps(t: Table, jobs: seq<Job>)
    ensures KeepsAll(t, ApplyEnqueue(t, jobs))
    decreases |jobs|
  {
    if jobs != [] {
      var t1 := ApplyEnqueue(t, jobs[..|jobs| - 1]);
      ApplyEnqueueKeeps(t, jobs[..|jobs| - 1]);
      EnqueueKeeps(t1, jobs[|jobs| - 1]);
      KeepsTrans(t, t1, Enqueue(t1, jobs[|jobs| - 1]).0);
    }
  }

  lemma ApplyKeeps(t: Table, c: Command)
    ensures KeepsAll(t, ApplyCommand(t, c))
  {
    match c
    case EnqueueCommand(jobs) => ApplyEnqueueKeeps(t, jobs);
    case AckCommand(id, _) => SettleKeeps(t, id);
  }

  lemma {:induction false} MarkAllKeeps(t: Table, ids: seq<JobId>, deadline: int)
    ensures KeepsAll(t, MarkAll(t, ids, deadline)) && MarkAll(t, ids, deadline).queue == t.queue
    ensures forall id :: Has(MarkAll(t, ids, deadline), id, Pending) ==> Has(t, id, Pending) && id !in ids
    decreases |ids|
  {
    if ids != [] {
      var t1, last := MarkAll(t, ids[..|ids| - 1], deadline), ids[|ids| - 1];
      MarkAllKeeps(t, ids[..|ids| - 1], deadline);
      MarkKeeps(t1, last, deadline);
      KeepsTrans(t, t1, MarkInFlight(t1, last, deadline).0);
      assert ids == ids[..|ids| - 1] + [last];
    }
  }

  lemma ResultKeeps(t: Table, id: JobId, success: bool, ok: bool, maxRetry: int)
    ensures KeepsAll(t, HandleResult(t, id, success, ok, maxRetry).0)
  {
    SettleKeeps(t, id);
    if id in t.jobs {
      var t1 := CountAttempt(t, id);
      CountKeeps(t, id);
      SettleKeeps(t1, id);
      KeepsTrans(t, t1, MarkDead(t1, id).0);
      KeepsTrans(t, t1, Requeue(t1, id).0);
    }
  }

  lemma TimeOutKeeps(t: Table, id: JobId, ok: bool, maxRetry: int)
    ensures KeepsAll(t, TimeOut(t, id, ok, maxRetry).0)
  {
    if id in t.jobs {
      var t1 := CountAttempt(t, id);
      CountKeeps(t, id);
      SettleKeeps(t1, id);
      KeepsTrans(t, t1, MarkDead(t1, id).0);
      KeepsTrans(t, t1, Requeue(t1, id).0);
    }
  }

  lemma {:induction false} SweepKeeps(t: Table, ids: seq<JobId>, failed: set<JobId>, maxRetry: int)
    ensures KeepsAll(t, Sweep(t, ids, failed, maxRetry).0)
    decreases |ids|
  {
    if ids != [] {
      var t1, last := Sweep(t, ids[..|ids| - 1], failed, maxRetry).0, ids[|ids| - 1];
      SweepKeeps(t, ids[..|ids| - 1], failed, maxRetry);
      TimeOutKeeps(t1, last, last !in failed, maxRetry);
      KeepsTrans(t, t1, TimeOut(t1, last, last !in failed, maxRetry).0);
    }
  }

  /** Popping touches nothing but the queue, and whatever known job leaves the queue is in the
      batch. */
  lemma {:induction false} PopBatchMoves(t: Table, n: int)
    ensures var (t', ids) := PopBatch(t, n);
            && t' == t.(queue := t'.queue)
            && forall id :: id in t.queue && id in t.jobs ==> id in t'.queue || id in ids
    decreases n
  {
    if n > 0 {
      PopBatchMoves(t, n - 1);
      var (t1, ids) := PopBatch(t, n - 1);
      if t1.queue != [] {
        assert t1.queue == [t1.queue[0]] + t1.queue[1..];
      }
    }
  }

  // ---- The invariant ----

  ghost predicate InHand(s: System, id: JobId) {
    exists d :: 0 <= d < |s.hands| && id in s.hands[d].batch
  }

  /** The in-flight and dead indexes are exact, and every pending job is in the queue or in the
      hand of a dispatcher between its pop and its mark. */
  ghost predicate NothingLost(s: System) {
    Indexed(s.table) && forall id :: Has(s.table, id, Pending) ==> id in s.table.queue || InHand(s, id)
  }

  ghost predicate Carries(s: System, s': System) {
    && s.table.jobs.Keys <= s'.table.jobs.Keys
    && forall id :: Has(s.table, id, Dead) ==> Has(s'.table, id, Dead)
  }

  /** A step that changes only the table, and hands keep their batches. */
  lemma TableStepKeeps(s: System, s': System)
    requires NothingLost(s) && KeepsAll(s.table, s'.table)
    requires |s'.hands| == |s.hands| && forall d :: 0 <= d < |s.hands| ==> s'.hands[d].batch == s.hands[d].batch
    ensures NothingLost(s') && Carries(s, s')
  {
    forall id | Has(s'.table, id, Pending) ensures id in s'.table.queue || InHand(s', id) {
      if id !in s'.table.queue {
        assert InHand(s, id);
        var d :| 0 <= d < |s.hands| && id in s.hands[d].batch;
        assert id in s'.hands[d].batch;
      }
    }
  }

  lemma PopKeeps(s: System, d: nat)
    requires NothingLost(s) && d < |s.hands| && s.hands[d].batch == []
    ensures NothingLost(PopNext(s, d)) && Carries(s, PopNext(s, d))
  {
    var s' := PopNext(s, d);
    PopBatchMoves(s.table, BATCH_SIZE);
    forall id | Has(s'.table, id, Pending) ensures id in s'.table.queue || InHand(s', id) {
      if id in s.table.queue {
        assert id in s'.table.queue || id in s'.hands[d].batch;
      } else {
        var e :| 0 <= e < |s.hands| && id in s.hands[e].batch;
        assert e != d && id in s'.hands[e].batch;
      }
    }
  }

  lemma MarkStepKeeps(s: System, d: nat, deadline: int)
    requires NothingLost(s) && d < |s.hands|
    ensures NothingLost(MarkNext(s, d, deadline)) && Carries(s, MarkNext(s, d, deadline))
  {
    var s' := MarkNext(s, d, deadline);
    MarkAllKeeps(s.table, s.hands[d].batch, deadline);
    forall id | Has(s'.table, id, Pending) ensures id in s'.table.queue || InHand(s', id) {
      if id !in s.table.queue {
        var e :| 0 <= e < |s.hands| && id in s.hands[e].batch;
        assert e != d && id in s'.hands[e].batch;
      }
    }
  }

  lemma PollKeeps(s: System, n: int, deadline: int, failed: set<JobId>)
    requires NothingLost(s)
    ensures var s' := s.(table := Poll(s.table, n, deadline, failed).0); NothingLost(s') && Carries(s, s')
  {
    var (t1, ids) := PopBatch(s.table, n);
    PopBatchMoves(s.table, n);
    MarkAllKeeps(t1, ids, deadline);
    var s' := s.(table := Poll(s.table, n, deadline, failed).0);
    forall id | Has(s'.table, id, Pending) ensures id in s'.table.queue || InHand(s', id) {
      if id !in s.table.queue {
        var d :| 0 <= d < |s.hands| && id in s.hands[d].batch;
        assert id in s'.hands[d].batch;
      }
    }
  }

  lemma StepKeeps(maxRetry: int, s: System, step: Step)
    requires Enabled(s, step) && NothingLost(s)
    ensures NothingLost(Next(maxRetry, s, step)) && Carries(s, Next(maxRetry, s, step))
  {
    var s' := Next(maxRetry, s, step);
    match step
    case LogEnqueue(_) => TableStepKeeps(s, s');
    case AddNew(jobs) => AddJobsKeeps(s.table, jobs); TableStepKeeps(s, s');
    case Pop(d) => PopKeeps(s, d);
    case LogDispatch(_, _) => TableStepKeeps(s, s');
    case Mark(d, deadline) => MarkStepKeeps(s, d, deadline);
    case Outcome(id, success, ok) => ResultKeeps(s.table, id, success, ok, maxRetry); TableStepKeeps(s, s');
    case SweepExpired(_, order, failed) => SweepKeeps(s.table, order, failed, maxRetry); TableStepKeeps(s, s');
    case Apply(c) => ApplyKeeps(s.table, c); TableStepKeeps(s, s');
    case PollJobs(n, deadline, failed) =>
      PollKeeps(s, n, deadline, failed);
      TableStepKeeps(s.(table := s'.table), s');
  }

  // ---- Over runs ----

  /** No job is lost: from any state in which nothing is, over any interleaving, no ID ever
      leaves the table, dead jobs stay dead, the in-flight and dead indexes stay exact and every
      pending job stays within reach of a dispatcher. */
  lemma {:induction false} NoJobIsLost(maxRetry: int, b: seq<System>, steps: seq<Step>, i: nat, j: nat)
    requires Run(maxRetry, b, steps) && i <= j < |b| && NothingLost(b[0])
    ensures NothingLost(b[j]) && b[i].table.jobs.Keys <= b[j].table.jobs.Keys
    ensures b[j].table.inFlight == WithStatus(b[j].table.jobs, InFlight)
    ensures b[j].table.dead == WithStatus(b[j].table.jobs, Dead) && b[i].table.dead <= b[j].table.dead
    decreases j
  {
    if j > 0 {
      NoJobIsLost(maxRetry, b, steps, if i < j then i else j - 1, j - 1);
      assert Transition(maxRetry, b[j - 1], steps[j - 1], b[j]);
      StepKeeps(maxRetry, b[j - 1], steps[j - 1]);
      DeadCarried(b[j - 1], b[j]);
    }
  }

  lemma DeadCarried(s: System, s': System)
    requires Carries(s, s') && Indexed(s.table) && Indexed(s'.table)
    ensures s.table.dead <= s'.table.dead
  {
    forall id | id in s.table.dead ensures id in s'.table.dead {
      assert Has(s.table, id, Dead);
    }
  }
}
