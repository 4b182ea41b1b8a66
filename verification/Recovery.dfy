/** Recovery after a crash at any moment of an orderly run, and the retry bound. */
module Recovery {
  import opened Jobs
  import opened ControllerSteps
  import opened SlotSteps
  import opened JobSystem
  import opened Conservation
  import opened ReplayByJob
  import opened Tracking
  import opened Fidelity
  import opened OrderlyRuns

  // ---- Recovery ----

  /** What replay accepts of a job's own events, in an orderly run from a moment with an empty
      log: all of them if the job was there and its dispatch had not been logged before; if it
      had, nothing but a death first; and nothing at all of a job the snapshot does not hold. */
  ghost predicate JobReplays(s0: System, wal: seq<Event>, id: JobId) {
    if id !in s0.table.jobs then FirstKind(wal, id) == EnqueueEvent
    else LoggedInHand(s0, id) ==> FirstKind(wal, id) == EnqueueEvent || FirstKind(wal, id) == DeadEvent
  }

  /** In an orderly run from such a moment, the log replays over the snapshot taken there if and
      only if it says nothing but ENQUEUE about jobs the snapshot does not hold, and of each job
      whose dispatch was logged before, the first thing it says, if anything, is its death. */
  lemma ReplaySucceedsIff(maxRetry: int, b: seq<System>, steps: seq<Step>, i: nat, order: seq<JobId>, clock: nat -> int)
    requires Run(maxRetry, b, steps) && OrderlyRun(b, steps) && AtCut(b[0]) && i < |b|
    ensures Replay(Restored(b[0].table.jobs, order), b[i].wal, clock).1 == Ok
        <==> forall id :: JobReplays(b[0], b[i].wal, id)
  {
    var data, wal := b[0].table.jobs, b[i].wal;
    var t := Restored(data, order);
    RestoredIsIndexed(data, order);
    ReplayDecomposes(t, wal, clock);
    forall id ensures SlotRun(SlotOf(t, id), wal, id, clock).1 == JobReplays(b[0], wal, id) {
      if id in data {
        RunFollows(maxRetry, b, steps, i, id, clock);
        assert SlotOf(t, id) == InitialSlot(data[id]);
      } else {
        AbsentAccepts(wal, id, clock);
        FirstKindNone(wal, id);
      }
    }
    if forall id :: JobReplays(b[0], wal, id) {
      assert AllAccept(t, wal, clock);
    } else {
      var id :| !JobReplays(b[0], wal, id);
      assert !SlotRun(SlotOf(t, id), wal, id, clock).1;
    }
  }

  lemma {:induction false} FirstKindNone(es: seq<Event>, id: JobId)
    ensures FirstKind(es, id) == EnqueueEvent <==>
            forall i :: 0 <= i < |es| && es[i].id == id ==> es[i].kind == EnqueueEvent
    decreases |es|
  {
    if es != [] {
      var init := es[..|es| - 1];
      FirstKindNone(init, id);
      assert forall i :: 0 <= i < |init| ==> init[i] == es[i];
    }
  }

  /** With no dispatch logged before, that is: the log is about jobs of the snapshot. */
  lemma CleanReplaySucceedsIff(maxRetry: int, b: seq<System>, steps: seq<Step>, i: nat, order: seq<JobId>, clock: nat -> int)
    requires Run(maxRetry, b, steps) && OrderlyRun(b, steps) && AtCut(b[0]) && i < |b|
    requires forall id :: !LoggedInHand(b[0], id)
    ensures Replay(Restored(b[0].table.jobs, order), b[i].wal, clock).1 == Ok
        <==> OnlyKnownJobs(b[i].wal, b[0].table.jobs)
  {
    var wal := b[i].wal;
    ReplaySucceedsIff(maxRetry, b, steps, i, order, clock);
    if forall id :: JobReplays(b[0], wal, id) {
      forall k | 0 <= k < |wal| ensures wal[k].kind == EnqueueEvent || wal[k].id in b[0].table.jobs {
        assert JobReplays(b[0], wal, wal[k].id);
        FirstKindNone(wal, wal[k].id);
      }
    } else {
      var id :| !JobReplays(b[0], wal, id);
      FirstKindNone(wal, id);
    }
  }

  lemma {:induction false} RequeueAllSlot(t: Table, ids: seq<JobId>, id: JobId)
    requires forall i, j :: 0 <= i < j < |ids| ==> ids[i] != ids[j]
    ensures SlotOf(RequeueAll(t, ids), id) == if id in ids then SlotOf(Requeue(t, id).0, id) else SlotOf(t, id)
    decreases |ids|
  {
    if ids != [] {
      var init, last := ids[..|ids| - 1], ids[|ids| - 1];
      RequeueAllSlot(t, init, id);
      assert ids == init + [last];
      if last != id {
        OthersKeepSlots(RequeueAll(t, init), last, 0, id);
      }
    }
  }

  /** The status a recovered job has, from what it was at the crash: in-flight work starts over,
      and so does a job that had died by timeout, since only the timeout was logged. */
  function RecoveredStatus(s: System, id: JobId): Status
    requires id in s.table.jobs
  {
    match s.table.jobs[id].status
    case Pending => Pending
    case InFlight => Pending
    case Completed => Completed
    case Dead => if LastIsTimeout(s.wal, id) then Pending else Dead
  }

  /** The attempts a recovered job has: one for each logged requeue and one for the recovery
      itself if the log leaves it in flight, where the live counter had two for each failure. */
  ghost function RecoveredAttempt(s0: System, s: System, id: JobId): int
    requires id in s0.table.jobs && id in s.table.jobs
  {
    s0.table.jobs[id].attempt + Requeues(s.wal, id)
    + if StatusInLog(s, id) == InFlight && !LoggedInHand(s0, id) then 1 else 0
  }

  /** Replay fidelity: crash at any moment of an orderly run whose log replays; after restoring,
      replaying and requeueing, every job of the snapshot has the status the log implies. */
  lemma ReplayFidelity(maxRetry: int, b: seq<System>, steps: seq<Step>, i: nat, id: JobId,
                       order: seq<JobId>, clock: nat -> int, requeued: seq<JobId>)
    requires Run(maxRetry, b, steps) && OrderlyRun(b, steps) && AtCut(b[0]) && i < |b| && id in b[0].table.jobs
    requires forall k :: JobReplays(b[0], b[i].wal, k)
    requires Enumerates(requeued, Replay(Restored(b[0].table.jobs, order), b[i].wal, clock).0.inFlight)
    ensures id in b[i].table.jobs
    ensures var recovered := RequeueAll(Replay(Restored(b[0].table.jobs, order), b[i].wal, clock).0, requeued);
            && id in recovered.jobs
            && recovered.jobs[id].status == RecoveredStatus(b[i], id)
            && recovered.jobs[id].attempt == RecoveredAttempt(b[0], b[i], id)
  {
    var data, wal := b[0].table.jobs, b[i].wal;
    var t0 := Restored(data, order);
    RestoredIsIndexed(data, order);
    ReplaySucceedsIff(maxRetry, b, steps, i, order, clock);
    ReplayDecomposes(t0, wal, clock);
    RunFollows(maxRetry, b, steps, i, id, clock);
    assert SlotOf(t0, id) == InitialSlot(data[id]);
    var t1 := Replay(t0, wal, clock).0;
    assert SlotOf(t1, id) == SlotRun(SlotOf(t0, id), wal, id, clock).0;
    assert JobReplays(b[0], wal, id);
    RequeuedSlot(t1, requeued, id);
    if LoggedInHand(b[0], id) { DeathAlone(wal, id, data[id], clock); }
  }

  /** A waiting job whose events replay and begin with a death, if with anything, has none of
      the events that a dispatch would have to precede. */
  lemma {:induction false} DeathAlone(es: seq<Event>, id: JobId, job: Job, clock: nat -> int)
    requires job.status == Pending && SlotRun(InitialSlot(job), es, id, clock).1
    requires FirstKind(es, id) == EnqueueEvent || FirstKind(es, id) == DeadEvent
    ensures Requeues(es, id) == 0 && !LastIsTimeout(es, id)
    ensures var slot := SlotRun(InitialSlot(job), es, id, clock).0;
            if FirstKind(es, id) == EnqueueEvent then slot == InitialSlot(job)
            else slot.Slot? && slot.job.status == Dead && slot.dead && !slot.completed
    decreases |es|
  {
    if es != [] {
      DeathAlone(es[..|es| - 1], id, job, clock);
    }
  }

  lemma RequeuedSlot(t: Table, requeued: seq<JobId>, id: JobId)
    requires Indexed(t) && Enumerates(requeued, t.inFlight) && id in t.jobs
    ensures var t' := RequeueAll(t, requeued);
            && id in t'.jobs
            && (if t.jobs[id].status == InFlight
                then t'.jobs[id].status == Pending && t'.jobs[id].attempt == t.jobs[id].attempt + 1
                else t'.jobs[id] == t.jobs[id])
  {
    RequeueAllSlot(t, requeued, id);
    assert id in requeued <==> id in t.inFlight;
  }

  // ---- What recovery never loses ----

  lemma ReplayEventKeeps(t: Table, e: Event, deadline: int)
    ensures KeepsAll(t, ReplayEvent(t, e, deadline).0)
  {
    MarkKeeps(t, e.id, deadline);
    SettleKeeps(t, e.id);
  }

  lemma {:induction false} ReplayKeeps(t: Table, es: seq<Event>, clock: nat -> int)
    ensures KeepsAll(t, Replay(t, es, clock).0)
    decreases |es|
  {
    if es != [] {
      var init := es[..|es| - 1];
      ReplayKeeps(t, init, clock);
      var (t1, r1) := Replay(t, init, clock);
      ReplayEventKeeps(t1, es[|es| - 1], clock(|es| - 1));
      KeepsTrans(t, t1, ReplayEvent(t1, es[|es| - 1], clock(|es| - 1)).0);
    }
  }

  lemma {:induction false} RequeueAllKeeps(t: Table, ids: seq<JobId>)
    ensures KeepsAll(t, RequeueAll(t, ids))
    decreases |ids|
  {
    if ids != [] {
      RequeueAllKeeps(t, ids[..|ids| - 1]);
      var t1 := RequeueAll(t, ids[..|ids| - 1]);
      SettleKeeps(t1, ids[|ids| - 1]);
      KeepsTrans(t, t1, Requeue(t1, ids[|ids| - 1]).0);
    }
  }

  lemma {:induction false} ReplayAddsNoJob(t: Table, es: seq<Event>, clock: nat -> int)
    ensures Replay(t, es, clock).0.jobs.Keys == t.jobs.Keys
    decreases |es|
  {
    if es != [] {
      ReplayAddsNoJob(t, es[..|es| - 1], clock);
    }
  }

  lemma {:induction false} RequeueAddsNoJob(t: Table, ids: seq<JobId>)
    ensures RequeueAll(t, ids).jobs.Keys == t.jobs.Keys
    decreases |ids|
  {
    if ids != [] {
      RequeueAddsNoJob(t, ids[..|ids| - 1]);
    }
  }

  /** Whatever the log says, a recovery that gets through it ends with nothing lost: every job
      of the snapshot is there and no other, so one enqueued since is gone, every pending one is
      queued, and none is in flight. The next run may start from it. */
  lemma RecoveryLosesNothing(data: map<JobId, Job>, order: seq<JobId>, es: seq<Event>, clock: nat -> int,
                             requeued: seq<JobId>, hands: seq<Hand>, wal: seq<Event>)
    requires Keyed(data) && Enumerates(order, WithStatus(data, Pending))
    requires Replay(Restored(data, order), es, clock).1 == Ok
    requires Enumerates(requeued, Replay(Restored(data, order), es, clock).0.inFlight)
    ensures var t := RequeueAll(Replay(Restored(data, order), es, clock).0, requeued);
            && t.jobs.Keys == data.Keys && t.inFlight == {}
            && (forall id :: Has(t, id, Pending) ==> id in t.queue)
            && NothingLost(System(t, hands, wal))
  {
    var t0 := Restored(data, order);
    RestoredIsIndexed(data, order);
    ReplayKeeps(t0, es, clock);
    var t1 := Replay(t0, es, clock).0;
    RequeueAllKeeps(t1, requeued);
    var t2 := RequeueAll(t1, requeued);
    KeepsTrans(t0, t1, t2);
    ReplayAddsNoJob(t0, es, clock);
    RequeueAddsNoJob(t1, requeued);
    forall id | Has(t2, id, Pending) ensures id in t2.queue {
      if Has(t0, id, Pending) { assert id in order; }
    }
    forall id ensures id !in t2.inFlight {
      RequeueAllSlot(t1, requeued, id);
      assert id in requeued <==> id in t1.inFlight;
    }
  }

  // ---- The retry bound ----

  /** The failing outcome that kills a job: the first to take its counter to the limit. */
  function FatalFailure(attempt: int, maxRetry: int): int {
    if attempt + 1 >= maxRetry then 1 else (maxRetry - attempt) / 2 + 1
  }

  /** Retry bound, for every job of an orderly run from its first appearance on, be it in the
      table from the start or added by step k - 1: whatever the mix of failed results and
      timeouts, it counts two per failure while it lives and is dead exactly at the fatal one;
      from zero attempts that is failure number maxRetry / 2 + 1. */
  lemma RetryBound(maxRetry: int, b: seq<System>, steps: seq<Step>, k: nat, i: nat, id: JobId)
    requires Run(maxRetry, b, steps) && OrderlyRun(b, steps) && AtCut(b[0]) && k <= i < |b| && Appears(b, k, id)
    requires b[k].table.jobs[id].status != Dead
    ensures id in b[i].table.jobs
    ensures var job, f := b[k].table.jobs[id], Failures(b[i].wal, id);
            && f <= FatalFailure(job.attempt, maxRetry)
            && (Has(b[i].table, id, Dead) <==> f == FatalFailure(job.attempt, maxRetry))
            && b[i].table.jobs[id].attempt == job.attempt + 2 * f - (if Has(b[i].table, id, Dead) then 1 else 0)
            && (job.attempt == 0 && maxRetry >= 0 ==> FatalFailure(job.attempt, maxRetry) == maxRetry / 2 + 1)
  {
    JobFollows(maxRetry, b, steps, k, i, id, _ => 0);
  }
}
