/** When the copied snapshot does not stand at the rotation of the log, something is lost: some
    continuation of the run ends in a recovery that is wrong. */
module RotationLoss {
  import opened Jobs
  import opened ControllerSteps
  import opened SlotSteps
  import opened JobSystem
  import opened Conservation
  import opened ReplayByJob
  import opened Tracking
  import opened Fidelity
  import opened OrderlyRuns
  import opened Recovery
  import opened Rotation

  // ---- How a job's record moves on ----

  predicate Alive(job: Job) {
    job.status == Pending || job.status == InFlight
  }

  /** Where a job can get in an orderly run: every failure adds two to its attempts, the fatal
      one adds one, and what is settled stays. */
  predicate Advances(job: Job, job': Job) {
    || job' == job
    || (job'.attempt == job.attempt && job.status == Pending && job'.status == InFlight)
    || (job'.attempt == job.attempt && Alive(job) && job'.status == Completed)
    || (job'.attempt > job.attempt && Alive(job)
        && (job'.attempt - job.attempt) % 2 == if job'.status == Dead then 1 else 0)
  }

  lemma AdvancesTrans(a: Job, b: Job, c: Job)
    requires Advances(a, b) && Advances(b, c)
    ensures Advances(a, c)
  {}

  lemma EndAdvances(job: Job, job': Job, kind: EventKind, maxRetry: int)
    requires job.status == InFlight && Ends(job, job', kind, maxRetry)
    ensures Advances(job, job')
  {}

  lemma MarkAdvances(t: Table, ids: seq<JobId>, deadline: int, id: JobId)
    requires id in t.jobs
    ensures id in MarkAll(t, ids, deadline).jobs && Advances(t.jobs[id], MarkAll(t, ids, deadline).jobs[id])
  {
    MarkAllSlot(t, ids, deadline, id);
  }

  lemma OutcomeAdvances(t: Table, k: JobId, success: bool, maxRetry: int, id: JobId)
    requires Has(t, k, InFlight) && id in t.jobs
    ensures var t' := HandleResult(t, k, success, true, maxRetry).0; id in t'.jobs && Advances(t.jobs[id], t'.jobs[id])
  {
    if k == id {
      var kind := ResultEnds(t, id, success, maxRetry);
      EndAdvances(t.jobs[id], HandleResult(t, id, success, true, maxRetry).0.jobs[id], kind, maxRetry);
    } else {
      ResultOther(t, k, success, true, maxRetry, id);
    }
  }

  lemma SweepAdvances(t: Table, now: int, order: seq<JobId>, maxRetry: int, id: JobId)
    requires Indexed(t) && Enumerates(order, Expired(t, now)) && id in t.jobs
    ensures var t' := Sweep(t, order, {}, maxRetry).0; id in t'.jobs && Advances(t.jobs[id], t'.jobs[id])
  {
    ExpiredInFlight(t, now, order);
    SweepSlot(t, order, {}, maxRetry, id);
    if id in order {
      EndAdvances(t.jobs[id], TimeOut(t, id, true, maxRetry).0.jobs[id], TimeoutEvent, maxRetry);
    }
  }

  lemma StepAdvances(maxRetry: int, s: System, step: Step, id: JobId)
    requires Enabled(s, step) && Orderly(s, step) && Indexed(s.table) && id in s.table.jobs
    ensures var t := Next(maxRetry, s, step).table; id in t.jobs && Advances(s.table.jobs[id], t.jobs[id])
  {
    match step
    case AddNew(jobs) => AddJobsSlot(s.table, jobs, id);
    case Apply(c) => ApplyEnqueueSlot(s.table, c.jobs, id);
    case Pop(_) => PopBatchSlot(s.table, BATCH_SIZE, id);
    case Mark(d, deadline) => MarkAdvances(s.table, s.hands[d].batch, deadline, id);
    case Outcome(k, success, _) => OutcomeAdvances(s.table, k, success, maxRetry, id);
    case SweepExpired(now, order, _) => SweepAdvances(s.table, now, order, maxRetry, id);
    case PollJobs(n, deadline, _) =>
      PopBatchSlot(s.table, n, id);
      MarkAdvances(PopBatch(s.table, n).0, PopBatch(s.table, n).1, deadline, id);
    case _ =>
  }

  ghost predicate AdvancedTo(id: JobId, job: Job, s: System) {
    Sound(s) && id in s.table.jobs && Advances(job, s.table.jobs[id])
  }

  lemma TransitionAdvances(maxRetry: int, s: System, step: Step, s': System, id: JobId, job: Job)
    requires Transition(maxRetry, s, step, s') && Orderly(s, step) && AdvancedTo(id, job, s)
    ensures AdvancedTo(id, job, s')
  {
    StepKeepsAll(maxRetry, s, step, s');
    StepAdvances(maxRetry, s, step, id);
    AdvancesTrans(job, s.table.jobs[id], s'.table.jobs[id]);
  }

  lemma RunStepAdvances(maxRetry: int, b: seq<System>, steps: seq<Step>, j: nat, id: JobId, job: Job)
    requires Run(maxRetry, b, steps) && OrderlyRun(b, steps) && 0 < j < |b| && AdvancedTo(id, job, b[j - 1])
    ensures AdvancedTo(id, job, b[j])
  {
    TransitionAdvances(maxRetry, b[j - 1], steps[j - 1], b[j], id, job);
  }

  lemma RunAdvances(maxRetry: int, b: seq<System>, steps: seq<Step>, c: nat, r: nat, id: JobId)
    requires Run(maxRetry, b, steps) && OrderlyRun(b, steps) && c <= r < |b| && Sound(b[c]) && id in b[c].table.jobs
    ensures id in b[r].table.jobs && Advances(b[c].table.jobs[id], b[r].table.jobs[id])
  {
    var job := b[c].table.jobs[id];
    forall j | 0 < j < |b| && AdvancedTo(id, job, b[j - 1]) ensures AdvancedTo(id, job, b[j]) {
      RunStepAdvances(maxRetry, b, steps, j, id, job);
    }
    KeptFrom(s => AdvancedTo(id, job, s), b, c, r);
  }

  // ---- What a recovery without a log makes of a record ----

  function RecoveredJob(job: Job): Job {
    if job.status == InFlight then Retried(job) else job
  }

  /** A recovery tells a record from whatever the job went on to. */
  lemma RecoverySeparates(job: Job, job': Job)
    requires Advances(job, job') && RecoveredJob(job) == RecoveredJob(job')
    ensures job == job'
  {}

  lemma RequeuedJob(t: Table, requeued: seq<JobId>, id: JobId)
    requires Indexed(t) && Enumerates(requeued, t.inFlight)
    ensures id in RequeueAll(t, requeued).jobs <==> id in t.jobs
    ensures id in t.jobs ==> RequeueAll(t, requeued).jobs[id] == RecoveredJob(t.jobs[id])
  {
    RequeueAllSlot(t, requeued, id);
    assert id in requeued <==> id in t.inFlight;
  }

  /** The order in which jobs are requeued shows in the queue alone. */
  lemma RequeueOrderIrrelevant(t: Table, requeued: seq<JobId>, requeued': seq<JobId>)
    requires Indexed(t) && Enumerates(requeued, t.inFlight) && Enumerates(requeued', t.inFlight)
    ensures RequeueAll(t, requeued).jobs == RequeueAll(t, requeued').jobs
  {
    forall id
      ensures id in RequeueAll(t, requeued).jobs <==> id in RequeueAll(t, requeued').jobs
      ensures id in RequeueAll(t, requeued).jobs ==> RequeueAll(t, requeued).jobs[id] == RequeueAll(t, requeued').jobs[id]
    {
      RequeuedJob(t, requeued, id);
      RequeuedJob(t, requeued', id);
    }
  }

  lemma {:induction false} SomeEnumeration(ids: set<JobId>) returns (order: seq<JobId>)
    ensures Enumerates(order, ids)
    decreases |ids|
  {
    if ids == {} {
      order := [];
    } else {
      var id :| id in ids;
      var rest := SomeEnumeration(ids - {id});
      order := rest + [id];
      forall k | k in ids ensures k in order {
        if k != id { assert k in rest; }
      }
    }
  }

  // ---- A snapshot that serves ----

  /** The log replays over the copy, and recovery gives every job the record that recovery from
      the table itself would. */
  ghost predicate RightlyRecovers(copy: map<JobId, Job>, jobs: map<JobId, Job>, wal: seq<Event>, order: seq<JobId>,
                                  clock: nat -> int, requeued: seq<JobId>, requeued': seq<JobId>) {
    var (t, r), (t', r') := Replay(Restored(copy, order), wal, clock), Replay(Restored(jobs, order), wal, clock);
    && r == Ok
    && (Enumerates(requeued, t.inFlight) && Enumerates(requeued', t'.inFlight) ==>
          RequeueAll(t, requeued).jobs == RequeueAll(t', requeued').jobs)
  }

  ghost predicate Serves(copy: map<JobId, Job>, jobs: map<JobId, Job>, wal: seq<Event>) {
    forall order, clock, requeued, requeued' :: RightlyRecovers(copy, jobs, wal, order, clock, requeued, requeued')
  }

  function Fresh(s: System): System {
    s.(wal := [])
  }

  /** An orderly continuation whose log is about the given jobs. */
  ghost predicate Continues(maxRetry: int, s: System, b: seq<System>, steps: seq<Step>, jobs: map<JobId, Job>) {
    Run(maxRetry, b, steps) && OrderlyRun(b, steps) && b[0] == s && OnlyKnownJobs(b[|steps|].wal, jobs)
  }

  lemma FreshIsCut(s: System)
    requires Sound(s)
    ensures AtCut(Fresh(s)) && forall id :: LoggedInHand(Fresh(s), id) <==> LoggedInHand(s, id)
  {
    forall id ensures LoggedInHand(Fresh(s), id) <==> LoggedInHand(s, id) {
      SameHands(s, Fresh(s), id);
    }
  }

  lemma StandingServes(maxRetry: int, copy: System, s: System, b: seq<System>, steps: seq<Step>)
    requires Sound(s) && CopyStands(copy, s) && Continues(maxRetry, Fresh(s), b, steps, copy.table.jobs)
    ensures Serves(copy.table.jobs, s.table.jobs, b[|steps|].wal)
  {
    FreshIsCut(s);
    var data, wal := copy.table.jobs, b[|steps|].wal;
    forall order, clock, requeued, requeued' ensures RightlyRecovers(data, data, wal, order, clock, requeued, requeued') {
      CleanReplaySucceedsIff(maxRetry, b, steps, |steps|, order, clock);
      RestoredIsIndexed(data, order);
      ReplayDecomposes(Restored(data, order), wal, clock);
      var t := Replay(Restored(data, order), wal, clock).0;
      if Enumerates(requeued, t.inFlight) && Enumerates(requeued', t.inFlight) {
        RequeueOrderIrrelevant(t, requeued, requeued');
      }
    }
  }

  // ---- A changed table ----

  /** If the table has changed, a crash right after the rotation already shows it. */
  lemma ChangedIsMissed(maxRetry: int, copy: map<JobId, Job>, s: System) returns (b: seq<System>, steps: seq<Step>)
    requires Keyed(copy) && Indexed(s.table) && copy != s.table.jobs
    requires forall id :: id in copy ==> id in s.table.jobs && Advances(copy[id], s.table.jobs[id])
    ensures Continues(maxRetry, Fresh(s), b, steps, copy) && !Serves(copy, s.table.jobs, b[|steps|].wal)
  {
    b, steps := [Fresh(s)], [];
    var jobs := s.table.jobs;
    var requeued := SomeEnumeration(WithStatus(copy, InFlight));
    var requeued' := SomeEnumeration(WithStatus(jobs, InFlight));
    var clock: nat -> int := _ => 0;
    assert Replay(Restored(copy, []), [], clock) == (Restored(copy, []), Ok);
    assert Replay(Restored(jobs, []), [], clock) == (Restored(jobs, []), Ok);
    EmptyRecoveriesDiffer(copy, jobs, requeued, requeued');
    assert !RightlyRecovers(copy, jobs, [], [], clock, requeued, requeued');
  }

  lemma EmptyRecoveriesDiffer(copy: map<JobId, Job>, jobs: map<JobId, Job>, requeued: seq<JobId>, requeued': seq<JobId>)
    requires Keyed(copy) && Keyed(jobs) && copy != jobs
    requires forall id :: id in copy ==> id in jobs && Advances(copy[id], jobs[id])
    requires Enumerates(requeued, WithStatus(copy, InFlight)) && Enumerates(requeued', WithStatus(jobs, InFlight))
    ensures RequeueAll(Restored(copy, []), requeued).jobs != RequeueAll(Restored(jobs, []), requeued').jobs
  {
    RestoredIsIndexed(copy, []);
    RestoredIsIndexed(jobs, []);
    var id := Difference(copy, jobs);
    RequeuedJob(Restored(copy, []), requeued, id);
    RequeuedJob(Restored(jobs, []), requeued', id);
    if id in copy && RecoveredJob(copy[id]) == RecoveredJob(jobs[id]) { RecoverySeparates(copy[id], jobs[id]); }
  }

  lemma Difference(copy: map<JobId, Job>, jobs: map<JobId, Job>) returns (id: JobId)
    requires copy != jobs && forall id :: id in copy ==> id in jobs
    ensures id in jobs && (id in copy ==> copy[id] != jobs[id])
  {
    if id' :| id' in jobs && id' !in copy {
      id := id';
    } else {
      assert copy.Keys == jobs.Keys;
      id :| id in copy && copy[id] != jobs[id];
    }
  }

  // ---- A dispatch that only the old log held ----

  lemma ConsRun(maxRetry: int, s: System, step: Step, b: seq<System>, steps: seq<Step>)
    requires Run(maxRetry, b, steps) && OrderlyRun(b, steps) && Transition(maxRetry, s, step, b[0]) && Orderly(s, step)
    ensures Run(maxRetry, [s] + b, [step] + steps) && OrderlyRun([s] + b, [step] + steps)
  {
    forall i | 0 <= i < |steps| + 1
      ensures Transition(maxRetry, ([s] + b)[i], ([step] + steps)[i], ([s] + b)[i + 1]) && Orderly(([s] + b)[i], ([step] + steps)[i])
    {
      if i > 0 { assert Transition(maxRetry, b[i - 1], steps[i - 1], b[i]); }
    }
  }

  /** Job id has been logged in hand d, and the log has nothing of it since. */
  ghost predicate Owed(s: System, d: nat, id: JobId) {
    && Sound(s) && Foreign(s.wal, id) && d < |s.hands|
    && exists i :: 0 <= i < s.hands[d].logged && i < |s.hands[d].batch| && s.hands[d].batch[i] == id
  }

  lemma OwedStaysOwed(maxRetry: int, s: System, d: nat, id: JobId)
    requires Owed(s, d, id) && s.hands[d].logged < |s.hands[d].batch|
    ensures Owed(LogDispatchNext(s, d, true), d, id)
  {
    var s', h := LogDispatchNext(s, d, true), s.hands[d];
    var i :| 0 <= i < h.logged && i < |h.batch| && h.batch[i] == id;
    assert LoggedInHand(s, id);
    NextIsFresh(s, d);
    LogPlaced(s, d, true);
    assert s'.hands[d].batch[i] == id;
  }

  /** The rest of the batch is logged, then marked, and the job succeeds. */
  lemma {:induction false} OwedSuccess(maxRetry: int, s: System, d: nat, id: JobId) returns (b: seq<System>, steps: seq<Step>)
    requires Owed(s, d, id)
    ensures Run(maxRetry, b, steps) && OrderlyRun(b, steps) && b[0] == s
    ensures FirstKind(b[|steps|].wal, id) == AckEvent && b[|steps|].table.jobs.Keys == s.table.jobs.Keys
    decreases |s.hands[d].batch| - s.hands[d].logged
  {
    if s.hands[d].logged < |s.hands[d].batch| {
      var s1 := LogDispatchNext(s, d, true);
      OwedStaysOwed(maxRetry, s, d, id);
      var b1, steps1 := OwedSuccess(maxRetry, s1, d, id);
      assert Transition(maxRetry, s, LogDispatch(d, true), s1);
      ConsRun(maxRetry, s, LogDispatch(d, true), b1, steps1);
      b, steps := [s] + b1, [LogDispatch(d, true)] + steps1;
    } else {
      b, steps := MarkAndSucceed(maxRetry, s, d, id);
    }
  }

  lemma MarkAndSucceed(maxRetry: int, s: System, d: nat, id: JobId) returns (b: seq<System>, steps: seq<Step>)
    requires Owed(s, d, id) && s.hands[d].logged == |s.hands[d].batch|
    ensures Run(maxRetry, b, steps) && OrderlyRun(b, steps) && b[0] == s
    ensures FirstKind(b[|steps|].wal, id) == AckEvent && b[|steps|].table.jobs.Keys == s.table.jobs.Keys
  {
    var s1 := MarkNext(s, d, 0);
    MarkTakesOff(s, d, id);
    var s2 := Next(maxRetry, s1, Outcome(id, true, true));
    steps, b := [Mark(d, 0), Outcome(id, true, true)], [s, s1, s2];
    assert Transition(maxRetry, s, Mark(d, 0), s1) && Transition(maxRetry, s1, Outcome(id, true, true), s2);
    AckComesFirst(s.wal, id);
  }

  lemma MarkTakesOff(s: System, d: nat, id: JobId)
    requires Owed(s, d, id)
    ensures Has(MarkNext(s, d, 0).table, id, InFlight) && MarkNext(s, d, 0).table.jobs.Keys == s.table.jobs.Keys
  {
    var batch := s.hands[d].batch;
    var i :| 0 <= i < s.hands[d].logged && i < |batch| && batch[i] == id;
    HeldIsPending(s, d, i);
    MarkAllSlot(s.table, batch, 0, id);
    forall k ensures k in MarkAll(s.table, batch, 0).jobs <==> k in s.table.jobs {
      MarkAllSlot(s.table, batch, 0, k);
    }
  }

  lemma AckComesFirst(wal: seq<Event>, id: JobId)
    requires Foreign(wal, id)
    ensures FirstKind(wal + [Event(AckEvent, id)], id) == AckEvent
  {
    assert [] + wal == wal;
    ForeignEvents(Absent, [], wal, id, _ => 0);
    assert (wal + [Event(AckEvent, id)])[..|wal|] == wal;
  }

  lemma OwedIsMissed(maxRetry: int, copy: map<JobId, Job>, s: System, id: JobId) returns (b: seq<System>, steps: seq<Step>)
    requires Sound(s) && copy == s.table.jobs && LoggedInHand(s, id)
    ensures Continues(maxRetry, Fresh(s), b, steps, copy) && !Serves(copy, s.table.jobs, b[|steps|].wal)
  {
    FreshIsCut(s);
    var d, i :| 0 <= d < |s.hands| && 0 <= i < s.hands[d].logged && i < |s.hands[d].batch| && s.hands[d].batch[i] == id;
    HeldIsPending(s, d, i);
    assert Owed(Fresh(s), d, id);
    b, steps := OwedSuccess(maxRetry, Fresh(s), d, id);
    RunNames(maxRetry, b, steps, |steps|);
    var wal, clock: nat -> int := b[|steps|].wal, _ => 0;
    ReplaySucceedsIff(maxRetry, b, steps, |steps|, [], clock);
    assert !JobReplays(b[0], wal, id);
    assert !RightlyRecovers(copy, s.table.jobs, wal, [], clock, [], []);
  }

  /** Copy at state c, rotation at state r: the copy stands if and only if it serves every orderly
      continuation about its jobs. If it does not, one such continuation ends with a log that
      does not replay over it, or in a recovery that differs from that of the table. */
  lemma CopyServesIff(maxRetry: int, b: seq<System>, steps: seq<Step>, c: nat, r: nat)
    requires Run(maxRetry, b, steps) && OrderlyRun(b, steps) && c <= r < |b| && Sound(b[c])
    ensures CopyStands(b[c], b[r])
        <==> forall b': seq<System>, steps': seq<Step> :: Continues(maxRetry, Fresh(b[r]), b', steps', b[c].table.jobs) ==>
               Serves(b[c].table.jobs, b[r].table.jobs, b'[|steps'|].wal)
  {
    RunPlaced(maxRetry, b, steps, c, r);
    var copy := b[c].table.jobs;
    if CopyStands(b[c], b[r]) {
      forall b': seq<System>, steps': seq<Step> | Continues(maxRetry, Fresh(b[r]), b', steps', copy)
        ensures Serves(copy, b[r].table.jobs, b'[|steps'|].wal)
      {
        StandingServes(maxRetry, b[c], b[r], b', steps');
      }
    } else if b[r].table.jobs != copy {
      forall id | id in copy ensures id in b[r].table.jobs && Advances(copy[id], b[r].table.jobs[id]) {
        RunAdvances(maxRetry, b, steps, c, r, id);
      }
      var b', steps' := ChangedIsMissed(maxRetry, copy, b[r]);
    } else {
      var id :| LoggedInHand(b[r], id);
      var b', steps' := OwedIsMissed(maxRetry, copy, b[r], id);
    }
  }
}
