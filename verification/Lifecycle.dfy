/** When completion is final and the indexes stay exact: as long as no late failure kills a
    completed job; and so always on a master that applies worker verdicts through Raft. */
module Lifecycle {
  import opened Jobs
  import opened ControllerSteps
  import opened SlotSteps
  import opened JobSystem
  import opened Conservation

  /** A failing result for a job that is already completed and out of retries. */
  predicate LateKill(maxRetry: int, s: System, step: Step, id: JobId) {
    step == Outcome(id, false, true) && Has(s.table, id, Completed) && s.table.jobs[id].attempt + 1 >= maxRetry
  }

  predicate KillsCompleted(maxRetry: int, s: System, step: Step) {
    step.Outcome? && LateKill(maxRetry, s, step, step.id)
  }

  /** Steps other than a result for the job itself leave a settled job's slot as it is. */
  lemma SettledUntouched(maxRetry: int, s: System, step: Step, id: JobId)
    requires Enabled(s, step) && Indexed(s.table) && !(step.Outcome? && step.id == id)
    requires Has(s.table, id, Completed) || Has(s.table, id, Dead)
    ensures SlotOf(Next(maxRetry, s, step).table, id) == SlotOf(s.table, id)
  {
    match step
    case AddNew(jobs) => AddJobsSlot(s.table, jobs, id);
    case Pop(d) => PopBatchSlot(s.table, BATCH_SIZE, id);
    case Mark(d, deadline) => MarkAllSlot(s.table, s.hands[d].batch, deadline, id);
    case Outcome(other, success, ok) => ResultOther(s.table, other, success, ok, maxRetry, id);
    case SweepExpired(now, order, failed) => SweepSlot(s.table, order, failed, maxRetry, id);
    case Apply(c) => ApplyOther(s.table, c, id);
    case PollJobs(n, deadline, failed) =>
      PopBatchSlot(s.table, n, id);
      MarkAllSlot(PopBatch(s.table, n).0, PopBatch(s.table, n).1, deadline, id);
    case _ =>
  }

  /** A completed job stays completed in a step exactly when the step is not a late kill. */
  lemma CompletedStaysIff(maxRetry: int, s: System, step: Step, id: JobId)
    requires Enabled(s, step) && Indexed(s.table) && Has(s.table, id, Completed)
    ensures Has(Next(maxRetry, s, step).table, id, Completed) <==> !LateKill(maxRetry, s, step, id)
  {
    if !(step.Outcome? && step.id == id) {
      SettledUntouched(maxRetry, s, step, id);
    }
  }

  /** Over a run, a completed job is completed for good exactly when no late kill of it occurs. */
  lemma {:induction false} CompletedIsFinalIff(maxRetry: int, b: seq<System>, steps: seq<Step>, i: nat, j: nat, id: JobId)
    requires Run(maxRetry, b, steps) && i <= j < |b| && NothingLost(b[0]) && Has(b[i].table, id, Completed)
    ensures Has(b[j].table, id, Completed) <==> forall k :: i <= k < j ==> !LateKill(maxRetry, b[k], steps[k], id)
    decreases j
  {
    if i < j {
      CompletedIsFinalIff(maxRetry, b, steps, i, j - 1, id);
      NoJobIsLost(maxRetry, b, steps, i, j - 1);
      assert Transition(maxRetry, b[j - 1], steps[j - 1], b[j]);
      if Has(b[j - 1].table, id, Completed) {
        CompletedStaysIff(maxRetry, b[j - 1], steps[j - 1], id);
      } else {
        NeverCompletedAgain(maxRetry, b, steps, i, j - 1, id);
        DeadStays(maxRetry, b[j - 1], steps[j - 1], id);
      }
    }
  }

  lemma DeadStays(maxRetry: int, s: System, step: Step, id: JobId)
    requires Enabled(s, step) && NothingLost(s) && Has(s.table, id, Dead)
    ensures Has(Next(maxRetry, s, step).table, id, Dead)
  {
    StepKeeps(maxRetry, s, step);
  }

  /** Whatever was completed at some time is completed or dead at every later one. */
  lemma {:induction false} NeverCompletedAgain(maxRetry: int, b: seq<System>, steps: seq<Step>, i: nat, j: nat, id: JobId)
    requires Run(maxRetry, b, steps) && i <= j < |b| && NothingLost(b[0]) && Has(b[i].table, id, Completed)
    ensures Has(b[j].table, id, Completed) || Has(b[j].table, id, Dead)
    decreases j
  {
    if i < j {
      NeverCompletedAgain(maxRetry, b, steps, i, j - 1, id);
      NoJobIsLost(maxRetry, b, steps, i, j - 1);
      assert Transition(maxRetry, b[j - 1], steps[j - 1], b[j]);
      if Has(b[j - 1].table, id, Dead) {
        DeadStays(maxRetry, b[j - 1], steps[j - 1], id);
      } else {
        CompletedMayDie(maxRetry, b[j - 1], steps[j - 1], id);
      }
    }
  }

  lemma CompletedMayDie(maxRetry: int, s: System, step: Step, id: JobId)
    requires Enabled(s, step) && Indexed(s.table) && Has(s.table, id, Completed)
    ensures var t := Next(maxRetry, s, step).table; Has(t, id, Completed) || Has(t, id, Dead)
  {
    if !(step.Outcome? && step.id == id) {
      SettledUntouched(maxRetry, s, step, id);
    }
  }

  // ---- Exact indexes ----

  lemma {:induction false} AddJobsExact(t: Table, jobs: seq<Job>)
    requires ExactlyIndexed(t)
    ensures ExactlyIndexed(AddJobs(t, jobs).0)
    decreases |jobs|
  {
    if jobs != [] {
      AddJobsExact(t, jobs[..|jobs| - 1]);
      EnqueueKeepsIndexes(AddJobs(t, jobs[..|jobs| - 1]).0, jobs[|jobs| - 1]);
    }
  }

  lemma {:induction false} ApplyEnqueueExact(t: Table, jobs: seq<Job>)
    requires ExactlyIndexed(t)
    ensures ExactlyIndexed(ApplyEnqueue(t, jobs))
    decreases |jobs|
  {
    if jobs != [] {
      ApplyEnqueueExact(t, jobs[..|jobs| - 1]);
      EnqueueKeepsIndexes(ApplyEnqueue(t, jobs[..|jobs| - 1]), jobs[|jobs| - 1]);
    }
  }

  lemma {:induction false} MarkAllExact(t: Table, ids: seq<JobId>, deadline: int)
    requires ExactlyIndexed(t)
    ensures ExactlyIndexed(MarkAll(t, ids, deadline))
    decreases |ids|
  {
    if ids != [] {
      MarkAllExact(t, ids[..|ids| - 1], deadline);
      DispatchKeepsIndexes(MarkAll(t, ids[..|ids| - 1], deadline), ids[|ids| - 1], deadline);
    }
  }

  lemma ResultExactIff(t: Table, id: JobId, success: bool, ok: bool, maxRetry: int)
    requires ExactlyIndexed(t)
    ensures ExactlyIndexed(HandleResult(t, id, success, ok, maxRetry).0)
        <==> !(!success && ok && Has(t, id, Completed) && t.jobs[id].attempt + 1 >= maxRetry)
  {
    SettleKeepsIndexes(t, id);
    DispatchKeepsIndexes(t, id, 0);
    if id in t.jobs {
      SettleKeepsIndexes(CountAttempt(t, id), id);
    }
  }

  lemma TimeOutExact(t: Table, id: JobId, ok: bool, maxRetry: int)
    requires ExactlyIndexed(t) && !Has(t, id, Completed)
    ensures ExactlyIndexed(TimeOut(t, id, ok, maxRetry).0)
  {
    DispatchKeepsIndexes(t, id, 0);
    if id in t.jobs {
      SettleKeepsIndexes(CountAttempt(t, id), id);
    }
  }

  lemma {:induction false} SweepExact(t: Table, ids: seq<JobId>, failed: set<JobId>, maxRetry: int)
    requires ExactlyIndexed(t) && forall i, j :: 0 <= i < j < |ids| ==> ids[i] != ids[j]
    requires forall i :: 0 <= i < |ids| ==> !Has(t, ids[i], Completed)
    ensures ExactlyIndexed(Sweep(t, ids, failed, maxRetry).0)
    decreases |ids|
  {
    if ids != [] {
      var init, last := ids[..|ids| - 1], ids[|ids| - 1];
      SweepExact(t, init, failed, maxRetry);
      SweepSlot(t, init, failed, maxRetry, last);
      TimeOutExact(Sweep(t, init, failed, maxRetry).0, last, last !in failed, maxRetry);
    }
  }

  lemma ApplyExact(t: Table, c: Command)
    requires ExactlyIndexed(t)
    ensures ExactlyIndexed(ApplyCommand(t, c))
  {
    match c
    case EnqueueCommand(jobs) => ApplyEnqueueExact(t, jobs);
    case AckCommand(id, _) => SettleKeepsIndexes(t, id);
  }

  lemma PopExact(t: Table, n: int)
    requires ExactlyIndexed(t)
    ensures ExactlyIndexed(PopBatch(t, n).0)
  {
    PopBatchMoves(t, n);
  }

  /** The four indexes stay exact in a step exactly when it is not a late kill. */
  lemma ExactStaysIff(maxRetry: int, s: System, step: Step)
    requires Enabled(s, step) && ExactlyIndexed(s.table)
    ensures ExactlyIndexed(Next(maxRetry, s, step).table) <==> !KillsCompleted(maxRetry, s, step)
  {
    match step
    case AddNew(jobs) => AddJobsExact(s.table, jobs);
    case Pop(d) => PopExact(s.table, BATCH_SIZE);
    case Mark(d, deadline) => MarkAllExact(s.table, s.hands[d].batch, deadline);
    case Outcome(id, success, ok) => ResultExactIff(s.table, id, success, ok, maxRetry);
    case SweepExpired(now, order, failed) => SweepExact(s.table, order, failed, maxRetry);
    case Apply(c) => ApplyExact(s.table, c);
    case PollJobs(n, deadline, failed) =>
      PopExact(s.table, n);
      MarkAllExact(PopBatch(s.table, n).0, PopBatch(s.table, n).1, deadline);
    case _ =>
  }

  lemma CompletedCarried(maxRetry: int, s: System, step: Step)
    requires Enabled(s, step) && !KillsCompleted(maxRetry, s, step) && ExactlyIndexed(s.table)
    requires ExactlyIndexed(Next(maxRetry, s, step).table)
    ensures s.table.completed <= Next(maxRetry, s, step).table.completed
  {
    forall id | id in s.table.completed ensures id in Next(maxRetry, s, step).table.completed {
      CompletedStaysIff(maxRetry, s, step, id);
    }
  }

  /** A job that died after it was completed: both indexes hold it. */
  predicate Blurred(t: Table, id: JobId) {
    id in t.completed && Has(t, id, Dead)
  }

  lemma SomeBlurred(t: Table) returns (id: JobId)
    requires Indexed(t) && !ExactlyIndexed(t)
    ensures Blurred(t, id)
  {
    id :| id in t.completed && id !in WithStatus(t.jobs, Completed);
    assert id in WithStatus(t.jobs, Dead);
  }

  lemma BlurStays(maxRetry: int, s: System, step: Step, id: JobId)
    requires Enabled(s, step) && Indexed(s.table) && Blurred(s.table, id)
    ensures Blurred(Next(maxRetry, s, step).table, id)
  {
    if !(step.Outcome? && step.id == id) {
      SettledUntouched(maxRetry, s, step, id);
    }
  }

  lemma StaysBlurred(maxRetry: int, s: System, step: Step, s': System)
    requires Transition(maxRetry, s, step, s') && Indexed(s.table) && !ExactlyIndexed(s.table)
    ensures !ExactlyIndexed(s'.table)
  {
    var id := SomeBlurred(s.table);
    BlurStays(maxRetry, s, step, id);
    assert id in WithStatus(s'.table.jobs, Dead);
  }

  lemma ExactStep(maxRetry: int, s: System, step: Step, s': System)
    requires Transition(maxRetry, s, step, s') && ExactlyIndexed(s.table)
    ensures ExactlyIndexed(s'.table) <==> !KillsCompleted(maxRetry, s, step)
    ensures ExactlyIndexed(s'.table) ==> s.table.completed <= s'.table.completed
  {
    ExactStaysIff(maxRetry, s, step);
    if ExactlyIndexed(s'.table) { CompletedCarried(maxRetry, s, step); }
  }

  /** Over a run, all indexes are exact at a moment if and only if no late kill came before it:
      once blurred, the completed index stays so. */
  lemma {:induction false} ExactOverRunIff(maxRetry: int, b: seq<System>, steps: seq<Step>, j: nat)
    requires Run(maxRetry, b, steps) && j < |b| && NothingLost(b[0]) && ExactlyIndexed(b[0].table)
    ensures ExactlyIndexed(b[j].table) <==> forall k :: 0 <= k < j ==> !KillsCompleted(maxRetry, b[k], steps[k])
    decreases j
  {
    if j > 0 {
      ExactOverRunIff(maxRetry, b, steps, j - 1);
      NoJobIsLost(maxRetry, b, steps, 0, j - 1);
      assert Transition(maxRetry, b[j - 1], steps[j - 1], b[j]);
      if ExactlyIndexed(b[j - 1].table) {
        ExactStep(maxRetry, b[j - 1], steps[j - 1], b[j]);
      } else {
        StaysBlurred(maxRetry, b[j - 1], steps[j - 1], b[j]);
      }
    }
  }

  /** Exactness and completion carry over any stretch without a late kill. */
  lemma {:induction false} CompletedOverRun(maxRetry: int, b: seq<System>, steps: seq<Step>, i: nat, j: nat)
    requires Run(maxRetry, b, steps) && i <= j < |b| && ExactlyIndexed(b[i].table)
    requires forall k :: 0 <= k < j ==> !KillsCompleted(maxRetry, b[k], steps[k])
    ensures ExactlyIndexed(b[j].table) && b[i].table.completed <= b[j].table.completed
    decreases j
  {
    if i < j {
      CompletedOverRun(maxRetry, b, steps, i, j - 1);
      assert Transition(maxRetry, b[j - 1], steps[j - 1], b[j]);
      ExactStep(maxRetry, b[j - 1], steps[j - 1], b[j]);
    }
  }

  /** The lifecycle over any interleaving without a late kill: completed and dead are absorbing
      and disjoint, every index is exact and the classes add up to the table. */
  lemma LifecycleWithoutLateKills(maxRetry: int, b: seq<System>, steps: seq<Step>, i: nat, j: nat)
    requires Run(maxRetry, b, steps) && i <= j < |b| && NothingLost(b[0]) && ExactlyIndexed(b[0].table)
    requires forall k :: 0 <= k < j ==> !KillsCompleted(maxRetry, b[k], steps[k])
    ensures ExactlyIndexed(b[j].table) && b[j].table.completed !! b[j].table.dead
    ensures b[i].table.completed <= b[j].table.completed && b[i].table.dead <= b[j].table.dead
    ensures var t := b[j].table;
            |t.jobs| == |WithStatus(t.jobs, Pending)| + |t.inFlight| + |t.completed| + |t.dead|
  {
    ExactOverRunIff(maxRetry, b, steps, i);
    CompletedOverRun(maxRetry, b, steps, i, j);
    NoJobIsLost(maxRetry, b, steps, i, j);
    TotalIsSum(b[j].table);
  }

  /** A server with a Raft node proposes every verdict instead of handling it, so a master with
      one and without workers of its own makes no Outcome step; then the lifecycle holds with no
      further condition. */
  lemma RaftMasterLifecycle(maxRetry: int, b: seq<System>, steps: seq<Step>, i: nat, j: nat)
    requires Run(maxRetry, b, steps) && i <= j < |b| && NothingLost(b[0]) && ExactlyIndexed(b[0].table)
    requires forall k :: 0 <= k < j ==> !steps[k].Outcome?
    ensures ExactlyIndexed(b[j].table) && b[j].table.completed !! b[j].table.dead
    ensures b[i].table.completed <= b[j].table.completed && b[i].table.dead <= b[j].table.dead
    ensures var t := b[j].table;
            |t.jobs| == |WithStatus(t.jobs, Pending)| + |t.inFlight| + |t.completed| + |t.dead|
  {
    forall k | 0 <= k < j ensures !KillsCompleted(maxRetry, b[k], steps[k]) {
      assert !steps[k].Outcome?;
    }
    LifecycleWithoutLateKills(maxRetry, b, steps, i, j);
  }
}
