/** What the controller's sections do to one job's record, told by that record alone. */
module JobMoves {
  import opened Jobs
  import opened ControllerSteps
  import opened SlotSteps
  import opened JobSystem
  import opened Conservation
  import opened Provenance

  // ---- The indexes, on every run ----

  lemma StepIndexed(maxRetry: int, s: System, step: Step)
    requires Enabled(s, step) && Indexed(s.table)
    ensures Indexed(Next(maxRetry, s, step).table)
  {
    match step
    case LogEnqueue(_) =>
    case AddNew(jobs) => AddJobsKeeps(s.table, jobs);
    case Pop(_) => PopBatchMoves(s.table, BATCH_SIZE);
    case LogDispatch(_, _) =>
    case Mark(d, deadline) => MarkAllKeeps(s.table, s.hands[d].batch, deadline);
    case Outcome(id, success, ok) => ResultKeeps(s.table, id, success, ok, maxRetry);
    case SweepExpired(_, order, failed) => SweepKeeps(s.table, order, failed, maxRetry);
    case Apply(c) => ApplyKeeps(s.table, c);
    case PollJobs(n, deadline, _) =>
      PopBatchMoves(s.table, n);
      MarkAllKeeps(PopBatch(s.table, n).0, PopBatch(s.table, n).1, deadline);
  }

  lemma {:induction false} RunIndexed(maxRetry: int, b: seq<System>, steps: seq<Step>, i: nat)
    requires Run(maxRetry, b, steps) && Indexed(b[0].table) && i < |b|
    ensures Indexed(b[i].table)
  {
    if i > 0 {
      RunIndexed(maxRetry, b, steps, i - 1);
      assert Transition(maxRetry, b[i - 1], steps[i - 1], b[i]);
      StepIndexed(maxRetry, b[i - 1], steps[i - 1]);
    }
  }

  // ---- Timeouts ----

  predicate Overdue(job: Job, now: int) {
    job.status == InFlight && job.deadline.At? && now > job.deadline.ms
  }

  /** The job leaves flight: it dies if this attempt is its last, and otherwise waits again with
      two attempts counted. */
  predicate GivenUp(maxRetry: int, job: Job, job': Job) {
    job' == if job.attempt + 1 >= maxRetry
            then Job(job.id, job.payload, Dead, job.attempt + 1, job.timeout, NoDeadline, "")
            else Job(job.id, job.payload, Pending, job.attempt + 2, job.timeout, NoDeadline, "")
  }

  /** The sweep gives up exactly the overdue jobs whose event it could log. */
  ghost predicate SweptRightly(maxRetry: int, t: Table, t': Table, now: int, failed: set<JobId>, id: JobId) {
    id in t.jobs && id in t'.jobs &&
    if Overdue(t.jobs[id], now) && id !in failed then
      && GivenUp(maxRetry, t.jobs[id], t'.jobs[id])
      && id !in t'.inFlight && (t'.jobs[id].status == Pending ==> id in t'.queue) && (t'.jobs[id].status == Dead ==> id in t'.dead)
    else
      SlotOf(t', id) == SlotOf(t, id)
  }

  lemma OverdueIsExpired(t: Table, now: int, id: JobId)
    requires Indexed(t)
    ensures id in Expired(t, now) <==> id in t.jobs && Overdue(t.jobs[id], now)
  {}

  lemma TimeOutGivesUp(t: Table, id: JobId, maxRetry: int)
    requires Indexed(t) && Has(t, id, InFlight)
    ensures var t' := TimeOut(t, id, true, maxRetry).0;
            && id in t'.jobs && GivenUp(maxRetry, t.jobs[id], t'.jobs[id])
            && id !in t'.inFlight && (t'.jobs[id].status == Dead ==> id in t'.dead)
            && (t'.jobs[id].status == Pending ==> id in t'.queue)
  {}

  lemma SweepMoves(maxRetry: int, t: Table, now: int, order: seq<JobId>, failed: set<JobId>, id: JobId)
    requires Indexed(t) && Enumerates(order, Expired(t, now)) && id in t.jobs
    ensures SweptRightly(maxRetry, t, Sweep(t, order, failed, maxRetry).0, now, failed, id)
  {
    var t' := Sweep(t, order, failed, maxRetry).0;
    SweepSlot(t, order, failed, maxRetry, id);
    OverdueIsExpired(t, now, id);
    if Overdue(t.jobs[id], now) && id !in failed {
      TimeOutGivesUp(t, id, maxRetry);
      assert SlotOf(t', id) == SlotOf(TimeOut(t, id, true, maxRetry).0, id);
      SweepKeeps(t, order, failed, maxRetry);
      assert Has(t', id, Pending) ==> Has(t, id, Pending) || id in t'.queue;
    }
  }

  lemma {:induction false} SweepLogs(t: Table, order: seq<JobId>, failed: set<JobId>, maxRetry: int)
    requires forall i :: 0 <= i < |order| ==> order[i] in t.jobs
    ensures forall e: Event :: e in Sweep(t, order, failed, maxRetry).1
                        <==> e.kind == TimeoutEvent && e.id in order && e.id !in failed
    decreases |order|
  {
    if order != [] {
      var init, last := order[..|order| - 1], order[|order| - 1];
      SweepLogs(t, init, failed, maxRetry);
      SweepKeeps(t, init, failed, maxRetry);
      assert order == init + [last];
    }
  }

  /** Over every run, a sweep at `now` gives up a job if and only if the job is in flight with a
      deadline before now and its event can be logged; every other job it leaves as it is, one at
      or before its deadline included. It logs a TIMEOUT for each job it gives up and no more. */
  lemma SweepTakesExactly(maxRetry: int, b: seq<System>, steps: seq<Step>, i: nat, now: int, order: seq<JobId>, failed: set<JobId>)
    requires Run(maxRetry, b, steps) && Indexed(b[0].table) && i < |steps| && steps[i] == SweepExpired(now, order, failed)
    ensures forall id :: id in b[i].table.jobs ==> SweptRightly(maxRetry, b[i].table, b[i + 1].table, now, failed, id)
    ensures b[i].wal <= b[i + 1].wal
    ensures forall e: Event :: e in b[i + 1].wal[|b[i].wal|..]
                        <==> e.kind == TimeoutEvent && e.id in b[i].table.jobs
                             && Overdue(b[i].table.jobs[e.id], now) && e.id !in failed
  {
    RunIndexed(maxRetry, b, steps, i);
    assert Transition(maxRetry, b[i], steps[i], b[i + 1]);
    var t := b[i].table;
    forall id | id in t.jobs ensures SweptRightly(maxRetry, t, b[i + 1].table, now, failed, id) {
      SweepMoves(maxRetry, t, now, order, failed, id);
    }
    forall k | 0 <= k < |order| ensures order[k] in t.jobs {
      assert order[k] in Expired(t, now);
    }
    SweepLogs(t, order, failed, maxRetry);
    assert b[i + 1].wal[|b[i].wal|..] == Sweep(t, order, failed, maxRetry).1;
    forall id ensures id in order <==> id in t.jobs && Overdue(t.jobs[id], now) {
      OverdueIsExpired(t, now, id);
    }
  }

  // ---- Deadlines ----

  /** The step marks the batch the job is in. */
  predicate Marks(s: System, step: Step, id: JobId) {
    match step
    case Mark(d, _) => d < |s.hands| && id in s.hands[d].batch
    case PollJobs(n, _, _) => id in PopBatch(s.table, n).1
    case _ => false
  }

  /** A job in flight was in flight before, with the same deadline, or has been marked just now
      with the one of this batch. */
  ghost predicate FliesFrom(s: System, step: Step, s': System, id: JobId) {
    id in s.table.jobs && id in s'.table.jobs &&
    if Has(s.table, id, InFlight) then s'.table.jobs[id] == s.table.jobs[id].(attempt := s'.table.jobs[id].attempt)
    else
      && Has(s.table, id, Pending) && Marks(s, step, id) && (step.Mark? || step.PollJobs?)
      && s'.table.jobs[id] == s.table.jobs[id].(status := InFlight, deadline := At(step.deadline))
  }

  lemma MarkedFlies(t: Table, ids: seq<JobId>, deadline: int, id: JobId)
    ensures id in MarkAll(t, ids, deadline).jobs <==> id in t.jobs
    ensures id in t.jobs ==>
              MarkAll(t, ids, deadline).jobs[id] ==
                (if id in ids && t.jobs[id].status == Pending then t.jobs[id].(status := InFlight, deadline := At(deadline))
                 else t.jobs[id])
  {
    MarkAllSlot(t, ids, deadline, id);
  }

  lemma ResultFlies(t: Table, k: JobId, success: bool, ok: bool, maxRetry: int, id: JobId)
    requires var t' := HandleResult(t, k, success, ok, maxRetry).0; Has(t', id, InFlight)
    ensures Has(t, id, InFlight)
    ensures var job' := HandleResult(t, k, success, ok, maxRetry).0.jobs[id]; job' == t.jobs[id].(attempt := job'.attempt)
  {}

  lemma TimeOutFlies(t: Table, id: JobId, ok: bool, maxRetry: int)
    requires var t' := TimeOut(t, id, ok, maxRetry).0; Has(t', id, InFlight)
    ensures Has(t, id, InFlight)
    ensures var job' := TimeOut(t, id, ok, maxRetry).0.jobs[id]; job' == t.jobs[id].(attempt := job'.attempt)
  {}

  lemma ApplyFlies(t: Table, c: Command, id: JobId)
    requires Has(ApplyCommand(t, c), id, InFlight)
    ensures Has(t, id, InFlight) && ApplyCommand(t, c).jobs[id] == t.jobs[id]
  {
    if c.EnqueueCommand? {
      NewIsPending(t, ApplyCommand(t, c), c.jobs, id) by { ApplyTakes(t, c); }
      ApplyEnqueueSlot(t, c.jobs, id);
    } else if c.id != id {
      OthersKeepSlots(t, c.id, 0, id);
    }
  }

  lemma NewIsPending(t: Table, t': Table, jobs: seq<Job>, id: JobId)
    requires NewAsAsked(t, t', jobs) && Has(t', id, InFlight)
    ensures id in t.jobs
  {
    assert id !in t.jobs ==> AsAsked(t', jobs, id);
  }

  lemma StepFlies(maxRetry: int, s: System, step: Step, id: JobId)
    requires Enabled(s, step) && Has(Next(maxRetry, s, step).table, id, InFlight)
    ensures FliesFrom(s, step, Next(maxRetry, s, step), id)
  {
    if step.AddNew? {
      AddJobsAsked(s.table, step.jobs);
      NewIsPending(s.table, AddJobs(s.table, step.jobs).0, step.jobs, id);
      AddJobsSlot(s.table, step.jobs, id);
    } else if step.Pop? {
      PopBatchSlot(s.table, BATCH_SIZE, id);
    } else if step.Mark? {
      MarkedFlies(s.table, s.hands[step.d].batch, step.deadline, id);
    } else if step.Outcome? {
      ResultFlies(s.table, step.id, step.success, step.ok, maxRetry, id);
    } else if step.SweepExpired? {
      SweepFlies(s.table, step.order, step.failed, maxRetry, id);
    } else if step.Apply? {
      ApplyFlies(s.table, step.command, id);
    } else if step.PollJobs? {
      PopBatchSlot(s.table, step.n, id);
      MarkedFlies(PopBatch(s.table, step.n).0, PopBatch(s.table, step.n).1, step.deadline, id);
    }
  }

  lemma SweepFlies(t: Table, order: seq<JobId>, failed: set<JobId>, maxRetry: int, id: JobId)
    requires forall i, j :: 0 <= i < j < |order| ==> order[i] != order[j]
    requires Has(Sweep(t, order, failed, maxRetry).0, id, InFlight)
    ensures Has(t, id, InFlight)
    ensures var job' := Sweep(t, order, failed, maxRetry).0.jobs[id]; job' == t.jobs[id].(attempt := job'.attempt)
  {
    SweepSlot(t, order, failed, maxRetry, id);
    if id in order { TimeOutFlies(t, id, id !in failed, maxRetry); }
  }

  /** Over every run: a job gets into flight only out of waiting, by a dispatcher's or a poll's
      mark, which sets its deadline; and while it stays in flight nothing moves that deadline. */
  lemma DeadlineIsOfDispatch(maxRetry: int, b: seq<System>, steps: seq<Step>, i: nat, id: JobId)
    requires Run(maxRetry, b, steps) && i < |steps| && Has(b[i + 1].table, id, InFlight)
    ensures FliesFrom(b[i], steps[i], b[i + 1], id)
  {
    assert Transition(maxRetry, b[i], steps[i], b[i + 1]);
    StepFlies(maxRetry, b[i], steps[i], id);
  }

  /** Every job in flight has a deadline, no later than the given time. */
  ghost predicate DueBy(t: Table, time: int) {
    forall id :: Has(t, id, InFlight) ==> t.jobs[id].deadline.At? && t.jobs[id].deadline.ms <= time
  }

  /** No batch is marked with a later deadline. */
  predicate MarksBy(steps: seq<Step>, time: int) {
    forall i :: 0 <= i < |steps| && (steps[i].Mark? || steps[i].PollJobs?) ==> steps[i].deadline <= time
  }

  lemma {:induction false} RunDueBy(maxRetry: int, b: seq<System>, steps: seq<Step>, i: nat, time: int)
    requires Run(maxRetry, b, steps) && i < |b| && DueBy(b[0].table, time) && MarksBy(steps, time)
    ensures DueBy(b[i].table, time)
  {
    if i > 0 {
      RunDueBy(maxRetry, b, steps, i - 1, time);
      forall id | Has(b[i].table, id, InFlight)
        ensures b[i].table.jobs[id].deadline.At? && b[i].table.jobs[id].deadline.ms <= time
      {
        DeadlineIsOfDispatch(maxRetry, b, steps, i - 1, id);
      }
    }
  }

  /** Nothing stays in flight for good: a sweep later than every deadline given so far that can
      log its events leaves no job in flight, whatever happened to workers and results. */
  lemma LateSweepEndsAllFlights(maxRetry: int, b: seq<System>, steps: seq<Step>, i: nat, now: int, order: seq<JobId>, time: int)
    requires Run(maxRetry, b, steps) && Indexed(b[0].table) && i < |steps| && steps[i] == SweepExpired(now, order, {})
    requires DueBy(b[0].table, time) && MarksBy(steps, time) && now > time
    ensures b[i + 1].table.inFlight == {}
  {
    RunIndexed(maxRetry, b, steps, i);
    RunIndexed(maxRetry, b, steps, i + 1);
    RunDueBy(maxRetry, b, steps, i, time);
    SweepTakesExactly(maxRetry, b, steps, i, now, order, {});
    if b[i + 1].table.inFlight != {} {
      var id :| id in b[i + 1].table.inFlight;
      DeadlineIsOfDispatch(maxRetry, b, steps, i, id);
      SweptIsDown(maxRetry, b[i].table, b[i + 1].table, now, time, id);
    }
  }

  lemma SweptIsDown(maxRetry: int, t: Table, t': Table, now: int, time: int, id: JobId)
    requires Indexed(t) && Indexed(t') && DueBy(t, time) && now > time
    requires SweptRightly(maxRetry, t, t', now, {}, id)
    ensures id !in t'.inFlight
  {
    assert Has(t, id, InFlight) ==> Overdue(t.jobs[id], now);
  }

  // ---- Results ----

  /** A result on a known job. A success counts only for a job in flight and only once logged. A
      failure always costs an attempt; logged, it kills the job at the limit, whatever the job's
      status, and otherwise puts it back if it was in flight, at the cost of one attempt more. */
  ghost predicate ResultCounts(maxRetry: int, t: Table, t': Table, id: JobId, success: bool, ok: bool) {
    id in t.jobs && id in t'.jobs &&
    var job, job' := t.jobs[id], t'.jobs[id];
    if success then
      job' == if ok && job.status == InFlight then job.(status := Completed, deadline := NoDeadline, workerID := "") else job
    else if ok && job.attempt + 1 >= maxRetry then
      job' == job.(status := Dead, attempt := job.attempt + 1, deadline := NoDeadline, workerID := "")
    else if ok && job.status == InFlight then
      job' == job.(status := Pending, attempt := job.attempt + 2, deadline := NoDeadline, workerID := "") && id in t'.queue
    else
      job' == job.(attempt := job.attempt + 1)
  }

  function VerdictKind(maxRetry: int, job: Job, success: bool): EventKind {
    if success then AckEvent else if job.attempt + 1 >= maxRetry then DeadEvent else RetryEvent
  }

  lemma ResultMoves(maxRetry: int, s: System, id: JobId, success: bool, ok: bool, other: JobId)
    ensures var s' := Next(maxRetry, s, Outcome(id, success, ok));
            && (other != id || id !in s.table.jobs ==> SlotOf(s'.table, other) == SlotOf(s.table, other))
            && (id in s.table.jobs ==> ResultCounts(maxRetry, s.table, s'.table, id, success, ok))
            && s'.wal == s.wal + (if !ok || id !in s.table.jobs then []
                                  else [Event(VerdictKind(maxRetry, s.table.jobs[id], success), id)])
  {
    if other != id { ResultOther(s.table, id, success, ok, maxRetry, other); }
  }

  // ---- Adding ----

  ghost function Ids(jobs: seq<Job>): seq<JobId> {
    seq(|jobs|, k requires 0 <= k < |jobs| => jobs[k].id)
  }

  /** The list up to k names new jobs, each once, and t' is t with those added, in order and each
      as given. */
  ghost predicate AddedUpTo(t: Table, t': Table, jobs: seq<Job>, k: int) {
    && 0 <= k <= |jobs|
    && (forall i :: 0 <= i < k ==> jobs[i].id !in t.jobs && !Names(jobs[..i], jobs[i].id))
    && t' == t.(jobs := t'.jobs, queue := t.queue + Ids(jobs[..k]))
    && (forall id :: id in t'.jobs <==> id in t.jobs || Names(jobs[..k], id))
    && (forall id :: id in t.jobs ==> id in t'.jobs && t'.jobs[id] == t.jobs[id])
    && (forall i :: 0 <= i < k ==> jobs[i].id in t'.jobs && t'.jobs[jobs[i].id] == jobs[i].(status := Pending))
  }

  lemma AddedLonger(t: Table, t': Table, init: seq<Job>, last: Job, k: int)
    requires AddedUpTo(t, t', init, k)
    ensures AddedUpTo(t, t', init + [last], k) && (init + [last])[..k] == init[..k]
  {
    var jobs := init + [last];
    forall i | 0 <= i <= k ensures jobs[..i] == init[..i] {}
  }

  lemma AddedOneMore(t: Table, t': Table, init: seq<Job>, last: Job)
    requires AddedUpTo(t, t', init, |init|) && last.id !in t'.jobs
    ensures AddedUpTo(t, Enqueue(t', last).0, init + [last], |init| + 1)
  {
    var jobs := init + [last];
    AddedLonger(t, t', init, last, |init|);
    assert jobs[..|init| + 1] == jobs && init[..|init|] == init;
    assert t.queue + Ids(init) + [last.id] == t.queue + Ids(jobs);
    forall id ensures Names(jobs, id) <==> Names(init, id) || last.id == id {
      NamesSnoc(init, last, id);
    }
    forall i | 0 <= i < |init| ensures jobs[i].id != last.id {
      assert Names(init, init[i].id);
    }
  }

  /** Adding takes the list up to the first job whose ID is known or named before, and reports
      whether that was the whole list. */
  lemma {:induction false} AddJobsIs(t: Table, jobs: seq<Job>) returns (k: nat)
    ensures AddedUpTo(t, AddJobs(t, jobs).0, jobs, k)
    ensures k < |jobs| ==> jobs[k].id in t.jobs || Names(jobs[..k], jobs[k].id)
    ensures AddJobs(t, jobs).1 == if k == |jobs| then Ok else Err(DuplicateJob)
    decreases |jobs|
  {
    if jobs == [] {
      k := 0;
      assert t.queue + Ids(jobs[..k]) == t.queue;
    } else {
      var init, last := jobs[..|jobs| - 1], jobs[|jobs| - 1];
      k := AddJobsIs(t, init);
      assert jobs == init + [last];
      var t1 := AddJobs(t, init).0;
      AddedLonger(t, t1, init, last, k);
      if k == |init| && last.id !in t1.jobs {
        AddedOneMore(t, t1, init, last);
        k := k + 1;
      }
    }
  }

  /** A transition is refused exactly for an unknown ID or the wrong status, says which, and then
      changes nothing; a death is refused for an unknown ID only. */
  lemma RefusedIff(t: Table, id: JobId, deadline: int, job: Job)
    ensures Enqueue(t, job).1 == (if job.id in t.jobs then Err(DuplicateJob) else Ok)
    ensures MarkInFlight(t, id, deadline).1
         == (if Has(t, id, Pending) then Ok else if id in t.jobs then Err(NotPending) else Err(JobNotFound))
    ensures MarkCompleted(t, id).1 == Requeue(t, id).1
         == (if Has(t, id, InFlight) then Ok else if id in t.jobs then Err(NotInFlight) else Err(JobNotFound))
    ensures MarkDead(t, id).1 == (if id in t.jobs then Ok else Err(JobNotFound))
    ensures Enqueue(t, job).1.Err? ==> Enqueue(t, job).0 == t
    ensures MarkInFlight(t, id, deadline).1.Err? ==> MarkInFlight(t, id, deadline).0 == t
    ensures MarkCompleted(t, id).1.Err? ==> MarkCompleted(t, id).0 == Requeue(t, id).0 == t
    ensures MarkDead(t, id).1.Err? ==> MarkDead(t, id).0 == t
  {}

  // ---- Popping and logging ----

  /** A batch is the head of the queue up to n jobs or the first ID without a record, which is
      thrown away; nothing else moves. */
  lemma {:induction false} BatchIsHead(t: Table, n: nat)
    ensures var (t', ids) := PopBatch(t, n);
            && |ids| <= n && |ids| <= |t.queue| && ids == t.queue[..|ids|]
            && (forall i :: 0 <= i < |ids| ==> ids[i] in t.jobs)
            && (|ids| == n || |ids| == |t.queue| || t.queue[|ids|] !in t.jobs)
            && t' == t.(queue := if |ids| < n && |ids| < |t.queue| then t.queue[|ids| + 1..] else t.queue[|ids|..])
    decreases n
  {
    if n > 0 {
      BatchIsHead(t, n - 1);
      var (t1, ids) := PopBatch(t, n - 1);
      if |ids| == n - 1 && t1.queue != [] {
        assert t.queue[..|ids| + 1] == t.queue[..|ids|] + [t.queue[|ids|]];
      }
    }
  }

  /** A dispatcher takes up to ten jobs at a time. */
  lemma DispatcherTakesTen(maxRetry: int, s: System, d: nat)
    requires Enabled(s, Pop(d))
    ensures var ids := Next(maxRetry, s, Pop(d)).hands[d].batch;
            && |ids| <= 10 && |ids| <= |s.table.queue| && ids == s.table.queue[..|ids|]
            && (|ids| == 10 || |ids| == |s.table.queue| || s.table.queue[|ids|] !in s.table.jobs)
  {
    BatchIsHead(s.table, BATCH_SIZE);
  }

  /** A poll logs one DISPATCH for each job it takes, but for those whose append fails. */
  lemma {:induction false} DispatchesLogged(ids: seq<JobId>, failed: set<JobId>, e: Event)
    ensures multiset(DispatchEvents(ids, failed))[e]
              == if e.kind == DispatchEvent && e.id !in failed then multiset(ids)[e.id] else 0
    decreases |ids|
  {
    if ids != [] {
      var init, last := ids[..|ids| - 1], ids[|ids| - 1];
      DispatchesLogged(init, failed, e);
      assert ids == init + [last];
      assert multiset(ids) == multiset(init) + multiset{last};
    }
  }

  lemma {:induction false} DispatchesInOrder(ids: seq<JobId>)
    ensures |DispatchEvents(ids, {})| == |ids|
    ensures forall i :: 0 <= i < |ids| ==> DispatchEvents(ids, {})[i] == Event(DispatchEvent, ids[i])
    decreases |ids|
  {
    if ids != [] { DispatchesInOrder(ids[..|ids| - 1]); }
  }

  // ---- The queue ----

  /** Some of the front is gone and something may have come to the end. */
  ghost predicate Fifo(q: seq<JobId>, q': seq<JobId>) {
    exists k: nat, more: seq<JobId> :: LeftOf(q, more, k, q')
  }

  ghost predicate LeftOf(q: seq<JobId>, more: seq<JobId>, k: nat, q': seq<JobId>) {
    k <= |q + more| && q' == (q + more)[k..]
  }

  lemma FifoTrans(q: seq<JobId>, q1: seq<JobId>, q2: seq<JobId>)
    requires Fifo(q, q1) && Fifo(q1, q2)
    ensures Fifo(q, q2)
  {
    var k: nat, more :| LeftOf(q, more, k, q1);
    var l: nat, rest :| LeftOf(q1, rest, l, q2);
    assert (q + more)[k..] + rest == (q + (more + rest))[k..];
    assert (q + (more + rest))[k..][l..] == (q + (more + rest))[k + l..];
    assert LeftOf(q, more + rest, k + l, q2);
  }

  lemma {:induction false} ApplyEnqueueGrows(t: Table, jobs: seq<Job>)
    ensures t.queue <= ApplyEnqueue(t, jobs).queue
    decreases |jobs|
  {
    if jobs != [] { ApplyEnqueueGrows(t, jobs[..|jobs| - 1]); }
  }

  lemma {:induction false} SweepGrows(t: Table, ids: seq<JobId>, failed: set<JobId>, maxRetry: int)
    ensures t.queue <= Sweep(t, ids, failed, maxRetry).0.queue
    decreases |ids|
  {
    if ids != [] { SweepGrows(t, ids[..|ids| - 1], failed, maxRetry); }
  }

  lemma ResultGrows(t: Table, id: JobId, success: bool, ok: bool, maxRetry: int)
    ensures t.queue <= HandleResult(t, id, success, ok, maxRetry).0.queue
  {}

  lemma ApplyGrows(t: Table, c: Command)
    ensures t.queue <= ApplyCommand(t, c).queue
  {
    if c.EnqueueCommand? { ApplyEnqueueGrows(t, c.jobs); }
  }

  lemma PopQueue(t: Table, n: nat)
    ensures var q, q' := t.queue, PopBatch(t, n).0.queue; |q'| <= |q| && q' == q[|q| - |q'|..]
  {
    BatchIsHead(t, n);
  }

  /** Pops and polls take off the front; everything else at most adds at the end. */
  lemma StepQueue(maxRetry: int, s: System, step: Step)
    requires Enabled(s, step)
    ensures var q, q' := s.table.queue, Next(maxRetry, s, step).table.queue;
            if step.Pop? || step.PollJobs? then |q'| <= |q| && q' == q[|q| - |q'|..] else q <= q'
  {
    if step.AddNew? {
      AddJobsGrows(s.table, step.jobs);
    } else if step.Pop? {
      PopQueue(s.table, BATCH_SIZE);
    } else if step.Mark? {
      MarkAllKeeps(s.table, s.hands[step.d].batch, step.deadline);
    } else if step.Outcome? {
      ResultGrows(s.table, step.id, step.success, step.ok, maxRetry);
    } else if step.SweepExpired? {
      SweepGrows(s.table, step.order, step.failed, maxRetry);
    } else if step.Apply? {
      ApplyGrows(s.table, step.command);
    } else if step.PollJobs? {
      PollQueue(s.table, step.n, step.deadline, step.failed);
    }
  }

  lemma PollQueue(t: Table, n: int, deadline: int, failed: set<JobId>)
    ensures var q, q' := t.queue, Poll(t, n, deadline, failed).0.queue; |q'| <= |q| && q' == q[|q| - |q'|..]
  {
    if n > 0 { PopQueue(t, n); }
    MarkAllKeeps(PopBatch(t, n).0, PopBatch(t, n).1, deadline);
  }

  lemma AddJobsGrows(t: Table, jobs: seq<Job>)
    ensures t.queue <= AddJobs(t, jobs).0.queue
  {
    var _ := AddJobsIs(t, jobs);
  }

  /** First in, first out, on every run: whatever is added, retried, timed out or committed goes
      to the end of the queue, and what leaves it leaves from the front. */
  lemma {:induction false} QueueIsFifo(maxRetry: int, b: seq<System>, steps: seq<Step>, i: nat, j: nat)
    requires Run(maxRetry, b, steps) && i <= j < |b|
    ensures Fifo(b[i].table.queue, b[j].table.queue)
    decreases j
  {
    var q := b[i].table.queue;
    if i == j {
      assert LeftOf(q, [], 0, q);
    } else {
      QueueIsFifo(maxRetry, b, steps, i, j - 1);
      assert Transition(maxRetry, b[j - 1], steps[j - 1], b[j]);
      StepQueue(maxRetry, b[j - 1], steps[j - 1]);
      StepFifo(b[j - 1].table.queue, b[j].table.queue);
      FifoTrans(q, b[j - 1].table.queue, b[j].table.queue);
    }
  }

  lemma StepFifo(q: seq<JobId>, q': seq<JobId>)
    requires q <= q' || (|q'| <= |q| && q' == q[|q| - |q'|..])
    ensures Fifo(q, q')
  {
    if q <= q' {
      assert q + q'[|q|..] == q';
      assert LeftOf(q, q'[|q|..], 0, q');
    } else {
      assert q + [] == q;
      assert LeftOf(q, [], |q| - |q'|, q');
    }
  }
}
