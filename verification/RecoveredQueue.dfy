/** The queue after a recovery. Replay changes statuses but takes nothing off the queue, which
    restoring filled from the snapshot; so a job whose dispatch was replayed is still in it. */
module RecoveredQueue {
  import opened Jobs
  import opened ControllerSteps
  import opened JobSystem
  import opened Conservation
  import opened ReplayByJob
  import opened Tracking
  import opened OrderlyRuns
  import opened StrayResults

  /** An event by which a waiting job stops waiting. */
  predicate Departs(s: Slot, kind: EventKind) {
    s.Slot? && s.job.status == Pending && (kind == DispatchEvent || kind == DeadEvent)
  }

  /** How often the job stops waiting in a replay of its own events. */
  ghost function Departures(s: Slot, es: seq<Event>, id: JobId, clock: nat -> int): nat
    decreases |es|
  {
    if es == [] then 0
    else
      var init, last := es[..|es| - 1], es[|es| - 1];
      Departures(s, init, id, clock)
      + if last.id == id && Departs(SlotRun(s, init, id, clock).0, last.kind) then 1 else 0
  }

  /** The job is queued once if it waits, and d times more. */
  ghost predicate Surplus(t: Table, id: JobId, d: nat) {
    multiset(t.queue)[id] == (if Has(t, id, Pending) then 1 else 0) + d
  }

  lemma RequeueKeepsSurplus(t: Table, k: JobId, id: JobId, d: nat)
    requires Surplus(t, id, d)
    ensures Surplus(Requeue(t, k).0, id, d)
  {
    assert multiset(t.queue + [k]) == multiset(t.queue) + multiset{k};
  }

  /** A change of one job's status with the queue left alone. */
  lemma StatusSurplus(t: Table, t': Table, k: JobId, id: JobId, d: nat)
    requires Surplus(t, id, d) && t'.queue == t.queue && (id != k ==> Has(t', id, Pending) == Has(t, id, Pending))
    requires Has(t', k, Pending) ==> Has(t, k, Pending)
    ensures Surplus(t', id, d + if k == id && Has(t, id, Pending) && !Has(t', id, Pending) then 1 else 0)
  {}

  lemma EventSurplus(t: Table, e: Event, deadline: int, id: JobId, d: nat)
    requires Indexed(t) && Surplus(t, id, d)
    ensures Surplus(ReplayEvent(t, e, deadline).0, id, d + if e.id == id && Departs(SlotOf(t, id), e.kind) then 1 else 0)
  {
    var t' := ReplayEvent(t, e, deadline).0;
    match e.kind
    case RetryEvent => RequeueKeepsSurplus(t, e.id, id, d);
    case TimeoutEvent => RequeueKeepsSurplus(t, e.id, id, d);
    case DispatchEvent =>
      if Has(t, e.id, Pending) { WaitingIsUnsettled(t, e.id); }
      StatusSurplus(t, t', e.id, id, d);
    case _ => StatusSurplus(t, t', e.id, id, d);
  }

  lemma WaitingIsUnsettled(t: Table, id: JobId)
    requires Indexed(t) && Has(t, id, Pending)
    ensures id !in t.completed && id !in t.dead
  {}

  lemma {:induction false} ReplaySurplus(t: Table, es: seq<Event>, id: JobId, clock: nat -> int)
    requires Indexed(t) && Replay(t, es, clock).1 == Ok && Surplus(t, id, 0)
    ensures Surplus(Replay(t, es, clock).0, id, Departures(SlotOf(t, id), es, id, clock))
    decreases |es|
  {
    if es != [] {
      var init, last := es[..|es| - 1], es[|es| - 1];
      ReplaySurplus(t, init, id, clock);
      ReplayDecomposes(t, init, clock);
      EventSurplus(Replay(t, init, clock).0, last, clock(|es| - 1), id, Departures(SlotOf(t, id), init, id, clock));
    }
  }

  lemma {:induction false} RequeueAllSurplus(t: Table, ids: seq<JobId>, id: JobId, d: nat)
    requires Surplus(t, id, d)
    ensures Surplus(RequeueAll(t, ids), id, d)
    decreases |ids|
  {
    if ids != [] {
      RequeueAllSurplus(t, ids[..|ids| - 1], id, d);
      RequeueKeepsSurplus(RequeueAll(t, ids[..|ids| - 1]), ids[|ids| - 1], id, d);
    }
  }

  lemma RestoredSurplus(data: map<JobId, Job>, order: seq<JobId>, id: JobId)
    requires Enumerates(order, WithStatus(data, Pending))
    ensures Surplus(Restored(data, order), id, 0)
  {
    DistinctCount(order, id);
  }

  /** After any recovery that gets through its log, each job is queued once if it is pending, and
      once more for every time the log took it from waiting. */
  lemma RecoveredCount(data: map<JobId, Job>, order: seq<JobId>, es: seq<Event>, clock: nat -> int,
                       requeued: seq<JobId>, id: JobId)
    requires Keyed(data) && Enumerates(order, WithStatus(data, Pending))
    requires Replay(Restored(data, order), es, clock).1 == Ok
    ensures var t := RequeueAll(Replay(Restored(data, order), es, clock).0, requeued);
            multiset(t.queue)[id] == (if Has(t, id, Pending) then 1 else 0)
                                     + Departures(SlotOf(Restored(data, order), id), es, id, clock)
  {
    var t0 := Restored(data, order);
    RestoredIsIndexed(data, order);
    RestoredSurplus(data, order, id);
    ReplaySurplus(t0, es, id, clock);
    RequeueAllSurplus(Replay(t0, es, clock).0, requeued, id, Departures(SlotOf(t0, id), es, id, clock));
  }

  /** So the recovered queue is the pending jobs, each once, if and only if no event in the log
      found its job waiting and took it on. */
  lemma RecoveredQueueIff(data: map<JobId, Job>, order: seq<JobId>, es: seq<Event>, clock: nat -> int, requeued: seq<JobId>)
    requires Keyed(data) && Enumerates(order, WithStatus(data, Pending))
    requires Replay(Restored(data, order), es, clock).1 == Ok
    ensures Once(RequeueAll(Replay(Restored(data, order), es, clock).0, requeued), multiset{})
        <==> forall i :: 0 <= i < |es| ==> !Departs(SlotRun(SlotOf(Restored(data, order), es[i].id), es[..i], es[i].id, clock).0, es[i].kind)
  {
    var t0 := Restored(data, order);
    var t := RequeueAll(Replay(t0, es, clock).0, requeued);
    forall id
      ensures (multiset(t.queue) + multiset{})[id] == (if Has(t, id, Pending) then 1 else 0) + Departures(SlotOf(t0, id), es, id, clock)
      ensures Departures(SlotOf(t0, id), es, id, clock) == 0 <==>
              forall i :: 0 <= i < |es| && es[i].id == id ==> !Departs(SlotRun(SlotOf(t0, id), es[..i], id, clock).0, es[i].kind)
    {
      RecoveredCount(data, order, es, clock, requeued, id);
      NoDepartures(SlotOf(t0, id), es, id, clock);
    }
  }

  lemma {:induction false} NoDepartures(s: Slot, es: seq<Event>, id: JobId, clock: nat -> int)
    ensures Departures(s, es, id, clock) == 0 <==>
            forall i :: 0 <= i < |es| && es[i].id == id ==> !Departs(SlotRun(s, es[..i], id, clock).0, es[i].kind)
    decreases |es|
  {
    if es != [] {
      var init := es[..|es| - 1];
      NoDepartures(s, init, id, clock);
      assert forall i :: 0 <= i < |init| ==> init[i] == es[i] && init[..i] == es[..i];
    }
  }

  // ---- What a job queued twice leads to ----

  const TAKEN: Event := Event(DispatchEvent, J)

  /** The job waiting for its second attempt, queued twice, right after a snapshot. */
  function Doubled(): System {
    World(Life(Pending, 1), [J, J], IDLE, {}, [])
  }

  /** A crash right after the dispatch was logged: recovery requeues the job it never took off
      the queue. */
  lemma RecoveredTwice(clock: nat -> int)
    ensures var (t, r) := Replay(Restored(Waiting(0, []).table.jobs, [J]), [TAKEN], clock);
            r == Ok && Enumerates([J], t.inFlight) && RequeueAll(t, [J]) == Doubled().table
  {
    var t0 := Restored(Waiting(0, []).table.jobs, [J]);
    assert [TAKEN][..0] == [] && [J][..0] == [];
    assert Replay(t0, [], clock) == (t0, Ok);
    var t := MarkInFlight(t0, J, clock(0)).0;
    assert Replay(t0, [TAKEN], clock) == (t, Ok);
    assert RequeueAll(t, []) == t;
    assert [J] + [J] == [J, J];
    assert RequeueAll(t, [J]).jobs == Doubled().table.jobs;
  }

  const TWICE: seq<Step> := [Pop(0)] + [LogDispatch(0, true)] + [LogDispatch(0, true)] + [Mark(0, 0)]

  /** A dispatcher then takes the job twice in one batch and logs two dispatches, of which only
      one is marked; and that log no longer replays over the new snapshot either. */
  lemma QueuedTwiceBreaksReplay(clock: nat -> int)
    ensures Leads(Doubled(), TWICE, World(Life(InFlight, 1), [], IDLE, {}, [TAKEN, TAKEN]))
    ensures Replay(Restored(Doubled().table.jobs, [J]), [TAKEN, TAKEN], clock).1 == Err(NotPending)
  {
    TakenTwice();
    MarkedOnce();
    Then(Doubled(), [Pop(0)] + [LogDispatch(0, true)] + [LogDispatch(0, true)], InBatchTwice(2, [TAKEN, TAKEN]),
         [Mark(0, 0)], World(Life(InFlight, 1), [], IDLE, {}, [TAKEN, TAKEN]));
    SecondIsRefused(clock);
  }

  function InBatchTwice(logged: nat, wal: seq<Event>): System {
    World(Life(Pending, 1), [], Hand([J, J], logged), {}, wal)
  }

  lemma TakenTwice()
    ensures Leads(Doubled(), [Pop(0)] + [LogDispatch(0, true)] + [LogDispatch(0, true)], InBatchTwice(2, [TAKEN, TAKEN]))
  {
    PopsTwo(Doubled().table, BATCH_SIZE);
    OneStep(Doubled(), Pop(0));
    assert Next(MAX_RETRY, Doubled(), Pop(0)) == InBatchTwice(0, []);
    OneStep(InBatchTwice(0, []), LogDispatch(0, true));
    assert [] + [TAKEN] == [TAKEN] && [TAKEN] + [TAKEN] == [TAKEN, TAKEN];
    assert Next(MAX_RETRY, InBatchTwice(0, []), LogDispatch(0, true)) == InBatchTwice(1, [TAKEN]);
    OneStep(InBatchTwice(1, [TAKEN]), LogDispatch(0, true));
    assert Next(MAX_RETRY, InBatchTwice(1, [TAKEN]), LogDispatch(0, true)) == InBatchTwice(2, [TAKEN, TAKEN]);
    Then(Doubled(), [Pop(0)], InBatchTwice(0, []), [LogDispatch(0, true)], InBatchTwice(1, [TAKEN]));
    Then(Doubled(), [Pop(0)] + [LogDispatch(0, true)], InBatchTwice(1, [TAKEN]), [LogDispatch(0, true)], InBatchTwice(2, [TAKEN, TAKEN]));
  }

  lemma {:induction false} PopsTwo(t: Table, n: int)
    requires t.queue == [J, J] && J in t.jobs && n >= 2
    ensures PopBatch(t, n) == (t.(queue := []), [J, J])
  {
    if n == 2 {
      assert PopBatch(t, 0) == (t, []);
      assert t.queue[1..] == [J] && [J][1..] == [] && [] + [J] == [J] && [J] + [J] == [J, J];
      assert PopBatch(t, 1) == (t.(queue := [J]), [J]);
      assert PopPending(t.(queue := [J])) == (t.(queue := []), Found(J));
    } else {
      PopsTwo(t, n - 1);
    }
  }

  lemma MarkedOnce()
    ensures Leads(InBatchTwice(2, [TAKEN, TAKEN]), [Mark(0, 0)], World(Life(InFlight, 1), [], IDLE, {}, [TAKEN, TAKEN]))
  {
    var s := InBatchTwice(2, [TAKEN, TAKEN]);
    OneStep(s, Mark(0, 0));
    assert [J, J][..1] == [J] && [J][..0] == [];
    var t := MarkInFlight(s.table, J, 0).0;
    assert MarkAll(s.table, [J], 0) == t;
    assert MarkAll(s.table, [J, J], 0) == t;
    assert Next(MAX_RETRY, s, Mark(0, 0)) == World(Life(InFlight, 1), [], IDLE, {}, [TAKEN, TAKEN]);
  }

  lemma SecondIsRefused(clock: nat -> int)
    ensures Replay(Restored(Doubled().table.jobs, [J]), [TAKEN, TAKEN], clock).1 == Err(NotPending)
  {
    var t0 := Restored(Doubled().table.jobs, [J]);
    assert [TAKEN, TAKEN][..1] == [TAKEN] && [TAKEN][..0] == [];
    assert Replay(t0, [], clock) == (t0, Ok);
    assert Replay(t0, [TAKEN], clock) == (MarkInFlight(t0, J, clock(0)).0, Ok);
  }
}
