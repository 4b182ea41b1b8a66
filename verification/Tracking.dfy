/** Runs without crashes, failed appends, unlogged commands or stray results: where each pending
    job is, and how the log tracks every job. */
module Tracking {
  import opened Jobs
  import opened ControllerSteps
  import opened SlotSteps
  import opened JobSystem
  import opened Conservation
  import opened ReplayByJob

  // ---- Every pending job is in exactly one place ----

  function Held(hands: seq<Hand>): multiset<JobId>
    decreases |hands|
  {
    if hands == [] then multiset{} else Held(hands[..|hands| - 1]) + multiset(hands[|hands| - 1].batch)
  }

  ghost predicate Once(t: Table, held: multiset<JobId>) {
    forall id :: (multiset(t.queue) + held)[id] == if Has(t, id, Pending) then 1 else 0
  }

  lemma MultisetSwap(a: multiset<JobId>, b: multiset<JobId>, c: multiset<JobId>, d: multiset<JobId>, e: multiset<JobId>)
    requires a + b == c + d
    ensures (a + e) + b == (c + e) + d
  {
    forall x ensures ((a + e) + b)[x] == ((c + e) + d)[x] {
      assert (a + b)[x] == (c + d)[x];
    }
  }

  lemma {:induction false} HeldUpdate(hands: seq<Hand>, d: nat, h: Hand)
    requires d < |hands|
    ensures Held(hands[d := h]) + multiset(hands[d].batch) == Held(hands) + multiset(h.batch)
    decreases |hands|
  {
    var init, last := hands[..|hands| - 1], hands[|hands| - 1];
    if d < |hands| - 1 {
      HeldUpdate(init, d, h);
      assert hands[d := h][..|hands| - 1] == init[d := h];
      assert init[d] == hands[d];
      MultisetSwap(Held(init[d := h]), multiset(hands[d].batch), Held(init), multiset(h.batch), multiset(last.batch));
    } else {
      assert hands[d := h][..|hands| - 1] == init;
      assert Held(hands) == Held(init) + multiset(last.batch);
      assert Held(hands[d := h]) == Held(init) + multiset(h.batch);
    }
  }

  lemma {:induction false} HeldContains(hands: seq<Hand>, d: nat, id: JobId)
    requires d < |hands|
    ensures multiset(hands[d].batch)[id] <= Held(hands)[id]
    decreases |hands|
  {
    if d < |hands| - 1 {
      HeldContains(hands[..|hands| - 1], d, id);
    }
  }

  lemma EnqueueOnce(t: Table, job: Job, held: multiset<JobId>)
    requires Once(t, held)
    ensures Once(Enqueue(t, job).0, held)
  {
    var t' := Enqueue(t, job).0;
    if t' != t {
      assert multiset(t'.queue) == multiset(t.queue) + multiset{job.id};
      forall id ensures (multiset(t'.queue) + held)[id] == if Has(t', id, Pending) then 1 else 0 {
        assert (multiset(t.queue) + held)[id] == if Has(t, id, Pending) then 1 else 0;
      }
    }
  }

  lemma {:induction false} AddJobsOnce(t: Table, jobs: seq<Job>, held: multiset<JobId>)
    requires Once(t, held)
    ensures Once(AddJobs(t, jobs).0, held)
    decreases |jobs|
  {
    if jobs != [] {
      AddJobsOnce(t, jobs[..|jobs| - 1], held);
      EnqueueOnce(AddJobs(t, jobs[..|jobs| - 1]).0, jobs[|jobs| - 1], held);
    }
  }

  lemma {:induction false} ApplyEnqueueOnce(t: Table, jobs: seq<Job>, held: multiset<JobId>)
    requires Once(t, held)
    ensures Once(ApplyEnqueue(t, jobs), held)
    decreases |jobs|
  {
    if jobs != [] {
      ApplyEnqueueOnce(t, jobs[..|jobs| - 1], held);
      EnqueueOnce(ApplyEnqueue(t, jobs[..|jobs| - 1]), jobs[|jobs| - 1], held);
    }
  }

  lemma {:induction false} PopBatchOnce(t: Table, n: int, held: multiset<JobId>)
    requires Once(t, held)
    ensures Once(PopBatch(t, n).0, held + multiset(PopBatch(t, n).1))
    decreases n
  {
    if n > 0 {
      PopBatchOnce(t, n - 1, held);
      var (t1, ids) := PopBatch(t, n - 1);
      if |ids| >= n - 1 && t1.queue != [] {
        PopOnce(t1, held + multiset(ids));
        assert multiset(ids + [t1.queue[0]]) == multiset(ids) + multiset{t1.queue[0]};
        assert held + multiset(ids) + multiset{t1.queue[0]} == held + multiset(ids + [t1.queue[0]]);
      }
    }
  }

  lemma PopOnce(t: Table, held: multiset<JobId>)
    requires Once(t, held) && t.queue != []
    ensures PopPending(t).1 == Found(t.queue[0])
    ensures Once(PopPending(t).0, held + multiset{t.queue[0]})
  {
    var id := t.queue[0];
    assert t.queue == [id] + t.queue[1..];
    assert multiset(t.queue) == multiset{id} + multiset(t.queue[1..]);
    assert (multiset(t.queue) + held)[id] > 0;
    assert Has(t, id, Pending);
    var t', held' := PopPending(t).0, held + multiset{id};
    forall k ensures (multiset(t'.queue) + held')[k] == if Has(t', k, Pending) then 1 else 0 {
      assert (multiset(t.queue) + held)[k] == if Has(t, k, Pending) then 1 else 0;
    }
  }

  lemma MarkOnce(t: Table, id: JobId, deadline: int, held: multiset<JobId>)
    requires Once(t, held + multiset{id})
    ensures Has(t, id, Pending) && Once(MarkInFlight(t, id, deadline).0, held)
  {
    assert (multiset(t.queue) + (held + multiset{id}))[id] > 0;
    var t' := MarkInFlight(t, id, deadline).0;
    forall k ensures (multiset(t'.queue) + held)[k] == if Has(t', k, Pending) then 1 else 0 {
      assert (multiset(t.queue) + (held + multiset{id}))[k] == if Has(t, k, Pending) then 1 else 0;
    }
  }

  lemma {:induction false} MarkAllOnce(t: Table, ids: seq<JobId>, deadline: int, held: multiset<JobId>)
    requires Once(t, held + multiset(ids))
    ensures Once(MarkAll(t, ids, deadline), held)
    ensures forall id :: id in ids ==> Has(t, id, Pending)
    decreases |ids|
  {
    if ids == [] {
      assert held + multiset(ids) == held;
    } else {
      var init, last := ids[..|ids| - 1], ids[|ids| - 1];
      assert ids == init + [last];
      assert held + multiset(ids) == (held + multiset{last}) + multiset(init);
      MarkAllOnce(t, init, deadline, held + multiset{last});
      MarkOnce(MarkAll(t, init, deadline), last, deadline, held);
      assert (multiset(t.queue) + (held + multiset(ids)))[last] > 0;
    }
  }

  /** Settling or requeueing a job that is in flight. */
  lemma OutcomeOnce(t: Table, id: JobId, held: multiset<JobId>, maxRetry: int, success: bool)
    requires Once(t, held) && Has(t, id, InFlight)
    ensures Once(HandleResult(t, id, success, true, maxRetry).0, held)
    ensures Once(TimeOut(t, id, true, maxRetry).0, held)
  {
    RequeueOnce(CountAttempt(t, id), id, held);
    SettleOnce(t, id, held);
    SettleOnce(CountAttempt(t, id), id, held);
  }

  lemma RequeueOnce(t: Table, id: JobId, held: multiset<JobId>)
    requires Has(t, id, InFlight) && forall k :: (multiset(t.queue) + held)[k] == if Has(t, k, Pending) then 1 else 0
    ensures Once(Requeue(t, id).0, held)
  {
    var t' := Requeue(t, id).0;
    assert multiset(t'.queue) == multiset(t.queue) + multiset{id};
    forall k ensures (multiset(t'.queue) + held)[k] == if Has(t', k, Pending) then 1 else 0 {
      assert (multiset(t.queue) + held)[k] == if Has(t, k, Pending) then 1 else 0;
    }
  }

  lemma SettleOnce(t: Table, id: JobId, held: multiset<JobId>)
    requires Has(t, id, InFlight) && Once(t, held)
    ensures Once(MarkCompleted(t, id).0, held) && Once(MarkDead(t, id).0, held)
  {
    forall k
      ensures (multiset(MarkCompleted(t, id).0.queue) + held)[k] == if Has(MarkCompleted(t, id).0, k, Pending) then 1 else 0
      ensures (multiset(MarkDead(t, id).0.queue) + held)[k] == if Has(MarkDead(t, id).0, k, Pending) then 1 else 0
    {
      assert (multiset(t.queue) + held)[k] == if Has(t, k, Pending) then 1 else 0;
    }
  }

  // ---- The log's own accounts ----

  function Failure(kind: EventKind): bool {
    kind == RetryEvent || kind == TimeoutEvent || kind == DeadEvent
  }

  /** Failing outcomes of a job, one event each. */
  function Failures(es: seq<Event>, id: JobId): nat
    decreases |es|
  {
    if es == [] then 0
    else
      var last := es[|es| - 1];
      Failures(es[..|es| - 1], id) + if last.id == id && Failure(last.kind) then 1 else 0
  }

  /** The ones that a replay turns into a requeue. */
  function Requeues(es: seq<Event>, id: JobId): nat
    decreases |es|
  {
    if es == [] then 0
    else
      var last := es[|es| - 1];
      Requeues(es[..|es| - 1], id) + if last.id == id && (last.kind == RetryEvent || last.kind == TimeoutEvent) then 1 else 0
  }

  /** The job's latest event, ENQUEUE aside, is a timeout. */
  predicate LastIsTimeout(es: seq<Event>, id: JobId)
    decreases |es|
  {
    if es == [] then false
    else
      var last := es[|es| - 1];
      if last.id == id && last.kind != EnqueueEvent then last.kind == TimeoutEvent else LastIsTimeout(es[..|es| - 1], id)
  }

  /** The kind of the job's first event, ENQUEUE aside; EnqueueEvent if there is none. */
  function FirstKind(es: seq<Event>, id: JobId): EventKind
    decreases |es|
  {
    if es == [] then EnqueueEvent
    else
      var first, last := FirstKind(es[..|es| - 1], id), es[|es| - 1];
      if first == EnqueueEvent && last.id == id then last.kind else first
  }

  // ---- How the live table and the log move together ----

  /** Outcomes only of jobs in flight, no failed append, no verdict from elsewhere. */
  predicate Orderly(s: System, step: Step) {
    match step
    case LogDispatch(_, ok) => ok
    case Outcome(id, _, ok) => ok && Has(s.table, id, InFlight)
    case SweepExpired(_, _, failed) => failed == {}
    case Apply(c) => c.EnqueueCommand?
    case PollJobs(_, _, failed) => failed == {}
    case _ => true
  }

  ghost predicate LoggedInHand(s: System, id: JobId) {
    exists d, i :: 0 <= d < |s.hands| && 0 <= i < s.hands[d].logged && i < |s.hands[d].batch| && s.hands[d].batch[i] == id
  }

  /** The status a replay of the log so far gives the job: a dispatch counts once it is logged,
      and a death by timeout reads as a requeue. */
  ghost function StatusInLog(s: System, id: JobId): Status
    requires id in s.table.jobs
  {
    match s.table.jobs[id].status
    case Pending => if LoggedInHand(s, id) then InFlight else Pending
    case InFlight => InFlight
    case Completed => Completed
    case Dead => if LastIsTimeout(s.wal, id) then Pending else Dead
  }

  ghost predicate SlotIndexed(s: Slot) {
    && s.Slot?
    && s.inFlight == (s.job.status == InFlight) && s.dead == (s.job.status == Dead)
    && (s.job.status == Completed ==> s.completed) && (s.completed ==> s.job.status == Completed || s.job.status == Dead)
  }

  function InitialSlot(job: Job): Slot {
    Slot(job, job.status == InFlight, job.status == Completed, job.status == Dead)
  }

  /** The log accounts for job id, which had record job when the log began. */
  ghost predicate Accounted(s: System, id: JobId, job: Job, clock: nat -> int)
    requires id in s.table.jobs
  {
    var (slot, ok) := SlotRun(InitialSlot(job), s.wal, id, clock);
    && ok && SlotIndexed(slot) && slot.job.status == StatusInLog(s, id)
    && slot.job.attempt == job.attempt + Requeues(s.wal, id)
  }

  /** A job whose dispatch was logged before the log began, and marked after: its first event is
      an outcome that no logged dispatch precedes, and replay takes none of those but a death. */
  ghost predicate CutOff(s: System, id: JobId, job: Job, clock: nat -> int)
    requires id in s.table.jobs
  {
    var (slot, ok) := SlotRun(InitialSlot(job), s.wal, id, clock);
    var first := FirstKind(s.wal, id);
    && job.status == Pending
    && ok == (first == EnqueueEvent || first == DeadEvent)
    && (first == EnqueueEvent ==>
          slot == InitialSlot(job)
          && (Has(s.table, id, InFlight) || (Has(s.table, id, Pending) && LoggedInHand(s, id))))
    && (first == DeadEvent ==> slot.Slot? && slot.job == Settled(job, Dead) && Has(s.table, id, Dead))
  }

  /** Where the job stands with the log; cut tells that its dispatch is not in it. */
  ghost predicate Tracks(s: System, id: JobId, job: Job, clock: nat -> int, cut: bool) {
    id in s.table.jobs && if cut then CutOff(s, id, job, clock) else Accounted(s, id, job, clock)
  }

  /** Every failing outcome adds two to the attempt counter, except that the fatal one adds one;
      and the job is dead once that takes the counter to the limit. */
  ghost predicate Counts(maxRetry: int, s: System, id: JobId, job: Job) {
    && id in s.table.jobs
    && var f, dies := Failures(s.wal, id), job.status != Dead && Has(s.table, id, Dead);
       && s.table.jobs[id].attempt == job.attempt + 2 * f - (if dies then 1 else 0)
       && (dies ==> f >= 1 && s.table.jobs[id].attempt >= maxRetry)
       && (f - (if dies then 1 else 0) >= 1 ==> job.attempt + 2 * (f - (if dies then 1 else 0)) - 1 < maxRetry)
       && (job.status == Dead ==> Has(s.table, id, Dead) && f == 0)
  }

  ghost predicate Follows(maxRetry: int, s: System, id: JobId, job: Job, clock: nat -> int, cut: bool) {
    Tracks(s, id, job, clock, cut) && Counts(maxRetry, s, id, job)
  }
}
