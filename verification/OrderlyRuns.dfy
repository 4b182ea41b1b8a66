/** The tracking invariant over whole orderly runs, from any moment at which the log is empty. */
module OrderlyRuns {
  import opened Jobs
  import opened ControllerSteps
  import opened SlotSteps
  import opened JobSystem
  import opened Conservation
  import opened ReplayByJob
  import opened Tracking
  import opened Fidelity

  // ---- Every step keeps pending jobs in one place ----

  lemma PopPlaced(s: System, d: nat, n: int)
    requires Placed(s) && d < |s.hands| && s.hands[d].batch == []
    ensures Placed(PopSized(s, d, n))
  {
    var (t, ids) := PopBatch(s.table, n);
    PopBatchOnce(s.table, n, Held(s.hands));
    HeldUpdate(s.hands, d, Hand(ids, 0));
    assert Held(s.hands[d := Hand(ids, 0)]) == Held(s.hands) + multiset(ids);
  }

  lemma LogPlaced(s: System, d: nat, ok: bool)
    requires Placed(s) && d < |s.hands| && s.hands[d].logged < |s.hands[d].batch|
    ensures Placed(LogDispatchNext(s, d, ok))
  {
    var h := s.hands[d].(logged := s.hands[d].logged + 1);
    HeldSame(s.hands, d, h);
  }

  lemma HeldSame(hands: seq<Hand>, d: nat, h: Hand)
    requires d < |hands| && h.batch == hands[d].batch
    ensures Held(hands[d := h]) == Held(hands)
  {
    HeldUpdate(hands, d, h);
    forall id ensures Held(hands[d := h])[id] == Held(hands)[id] {
      assert (Held(hands[d := h]) + multiset(h.batch))[id] == (Held(hands) + multiset(h.batch))[id];
    }
  }

  lemma MarkPlaced(s: System, d: nat, deadline: int)
    requires Placed(s) && d < |s.hands|
    ensures Placed(MarkNext(s, d, deadline))
  {
    var rest := Held(s.hands[d := IDLE]);
    HeldUpdate(s.hands, d, IDLE);
    assert Held(s.hands) == rest + multiset(s.hands[d].batch);
    MarkAllOnce(s.table, s.hands[d].batch, deadline, rest);
  }

  lemma TimeOutPlaced(maxRetry: int, s: System, k: JobId)
    requires Placed(s) && Has(s.table, k, InFlight)
    ensures Placed(TimeOutNext(maxRetry, s, k))
  {
    OutcomeOnce(s.table, k, Held(s.hands), maxRetry, false);
  }

  // ---- A sweep as single timeouts ----

  function SweepTo(maxRetry: int, s: System, order: seq<JobId>): System {
    var (t, es) := Sweep(s.table, order, {}, maxRetry);
    s.(table := t, wal := s.wal + es)
  }

  lemma SweepStep(maxRetry: int, s: System, order: seq<JobId>)
    requires order != [] && order[|order| - 1] in SweepTo(maxRetry, s, order[..|order| - 1]).table.jobs
    ensures SweepTo(maxRetry, s, order) == TimeOutNext(maxRetry, SweepTo(maxRetry, s, order[..|order| - 1]), order[|order| - 1])
  {
    var init := order[..|order| - 1];
    assert (s.wal + Sweep(s.table, init, {}, maxRetry).1) + [Event(TimeoutEvent, order[|order| - 1])]
        == s.wal + (Sweep(s.table, init, {}, maxRetry).1 + [Event(TimeoutEvent, order[|order| - 1])]);
  }

  lemma {:induction false} SweepPlaced(maxRetry: int, s: System, order: seq<JobId>)
    requires Placed(s) && Indexed(s.table) && forall i :: 0 <= i < |order| ==> Has(s.table, order[i], InFlight)
    requires forall i, j :: 0 <= i < j < |order| ==> order[i] != order[j]
    ensures Placed(SweepTo(maxRetry, s, order)) && Indexed(SweepTo(maxRetry, s, order).table)
    decreases |order|
  {
    if order == [] {
      assert SweepTo(maxRetry, s, order) == s;
    } else {
      var init, last := order[..|order| - 1], order[|order| - 1];
      SweepPlaced(maxRetry, s, init);
      SweepSlot(s.table, init, {}, maxRetry, last);
      SweepStep(maxRetry, s, order);
      TimeOutPlaced(maxRetry, SweepTo(maxRetry, s, init), last);
      TimeOutKeeps(SweepTo(maxRetry, s, init).table, last, true, maxRetry);
    }
  }

  lemma {:induction false} SweepFollows(maxRetry: int, s: System, order: seq<JobId>, id: JobId, job: Job, clock: nat -> int, cut: bool)
    requires Placed(s) && Indexed(s.table) && forall i :: 0 <= i < |order| ==> Has(s.table, order[i], InFlight)
    requires forall i, j :: 0 <= i < j < |order| ==> order[i] != order[j]
    requires Follows(maxRetry, s, id, job, clock, cut)
    ensures Follows(maxRetry, SweepTo(maxRetry, s, order), id, job, clock, cut)
    decreases |order|
  {
    if order == [] {
      assert SweepTo(maxRetry, s, order) == s;
    } else {
      var init, last := order[..|order| - 1], order[|order| - 1];
      SweepPlaced(maxRetry, s, init);
      SweepFollows(maxRetry, s, init, id, job, clock, cut);
      SweepSlot(s.table, init, {}, maxRetry, last);
      SweepStep(maxRetry, s, order);
      TimeOutFollows(maxRetry, SweepTo(maxRetry, s, init), last, id, job, clock, cut);
    }
  }

  /** Expired jobs are in flight. */
  lemma ExpiredInFlight(t: Table, now: int, order: seq<JobId>)
    requires Indexed(t) && Enumerates(order, Expired(t, now))
    ensures forall i :: 0 <= i < |order| ==> Has(t, order[i], InFlight)
  {
    forall i | 0 <= i < |order| ensures Has(t, order[i], InFlight) {
      assert order[i] in Expired(t, now);
    }
  }

  // ---- A poll as the work of one more dispatcher ----

  function WithHand(s: System): System {
    s.(hands := s.hands + [IDLE])
  }

  lemma ExtraHand(maxRetry: int, s: System, s': System, id: JobId, job: Job, clock: nat -> int, cut: bool)
    requires s'.hands == s.hands + [IDLE] && s'.table == s.table && s'.wal == s.wal
    ensures Placed(s) <==> Placed(s')
    ensures Follows(maxRetry, s, id, job, clock, cut) <==> Follows(maxRetry, s', id, job, clock, cut)
  {
    assert s'.hands[..|s'.hands| - 1] == s.hands;
    assert Held(s'.hands) == Held(s.hands);
    ExtraHandLogged(s, s', id);
  }

  lemma ExtraHandLogged(s: System, s': System, id: JobId)
    requires s'.hands == s.hands + [IDLE]
    ensures LoggedInHand(s, id) <==> LoggedInHand(s', id)
  {
    if LoggedInHand(s, id) {
      var e, i :| 0 <= e < |s.hands| && 0 <= i < s.hands[e].logged && i < |s.hands[e].batch| && s.hands[e].batch[i] == id;
      assert s'.hands[e].batch[i] == id && i < s'.hands[e].logged;
    }
    if LoggedInHand(s', id) {
      var e, i :| 0 <= e < |s'.hands| && 0 <= i < s'.hands[e].logged && i < |s'.hands[e].batch| && s'.hands[e].batch[i] == id;
      assert s.hands[e].batch[i] == id && i < s.hands[e].logged;
    }
  }

  /** Dispatcher d after logging the first k jobs of its batch. */
  function LoggedTo(s: System, d: nat, k: nat): System
    requires d < |s.hands| && k <= |s.hands[d].batch|
  {
    s.(hands := s.hands[d := Hand(s.hands[d].batch, k)], wal := s.wal + DispatchEvents(s.hands[d].batch[..k], {}))
  }

  lemma LoggedStep(s: System, d: nat, k: nat)
    requires d < |s.hands| && k < |s.hands[d].batch|
    ensures LoggedTo(s, d, k + 1) == LogDispatchNext(LoggedTo(s, d, k), d, true)
  {
    var batch := s.hands[d].batch;
    assert batch[..k + 1][..k] == batch[..k];
    assert (s.wal + DispatchEvents(batch[..k], {})) + [Event(DispatchEvent, batch[k])]
        == s.wal + (DispatchEvents(batch[..k], {}) + [Event(DispatchEvent, batch[k])]);
  }

  lemma {:induction false} LoggedFollows(maxRetry: int, s: System, d: nat, k: nat, id: JobId, job: Job, clock: nat -> int, cut: bool)
    requires d < |s.hands| && k <= |s.hands[d].batch| && s.hands[d].logged == 0
    requires Placed(s) && Follows(maxRetry, s, id, job, clock, cut)
    ensures Placed(LoggedTo(s, d, k)) && Follows(maxRetry, LoggedTo(s, d, k), id, job, clock, cut)
  {
    if k == 0 {
      assert LoggedTo(s, d, 0) == s;
    } else {
      LoggedFollows(maxRetry, s, d, k - 1, id, job, clock, cut);
      LoggedStep(s, d, k - 1);
      LogPlaced(LoggedTo(s, d, k - 1), d, true);
      LogDispatchFollows(maxRetry, LoggedTo(s, d, k - 1), d, id, job, clock, cut);
    }
  }

  lemma PollFollows(maxRetry: int, s: System, n: int, deadline: int, id: JobId, job: Job, clock: nat -> int, cut: bool)
    requires Placed(s) && Follows(maxRetry, s, id, job, clock, cut)
    ensures var s' := Next(maxRetry, s, PollJobs(n, deadline, {})); Placed(s') && Follows(maxRetry, s', id, job, clock, cut)
  {
    var d := |s.hands|;
    var s1 := WithHand(s);
    ExtraHand(maxRetry, s, s1, id, job, clock, cut);
    PopPlaced(s1, d, n);
    PopFollows(maxRetry, s1, d, n, id, job, clock, cut);
    var s2 := PopSized(s1, d, n);
    LoggedFollows(maxRetry, s2, d, |s2.hands[d].batch|, id, job, clock, cut);
    var s3 := LoggedTo(s2, d, |s2.hands[d].batch|);
    MarkPlaced(s3, d, deadline);
    MarkFollows(maxRetry, s3, d, deadline, id, job, clock, cut);
    PollIsDispatch(maxRetry, s, n, deadline, s3);
    ExtraHand(maxRetry, Next(maxRetry, s, PollJobs(n, deadline, {})), MarkNext(s3, d, deadline), id, job, clock, cut);
  }

  lemma PollIsDispatch(maxRetry: int, s: System, n: int, deadline: int, s3: System)
    requires var s2 := PopSized(WithHand(s), |s.hands|, n); s3 == LoggedTo(s2, |s.hands|, |s2.hands[|s.hands|].batch|)
    ensures var s', s4 := Next(maxRetry, s, PollJobs(n, deadline, {})), MarkNext(s3, |s.hands|, deadline);
            s4.table == s'.table && s4.wal == s'.wal && s4.hands == s'.hands + [IDLE]
  {
    var ids := PopBatch(s.table, n).1;
    assert ids[..|ids|] == ids;
  }

  // ---- Steps and runs ----

  lemma StepFollows(maxRetry: int, s: System, step: Step, id: JobId, job: Job, clock: nat -> int, cut: bool)
    requires Enabled(s, step) && Orderly(s, step) && Placed(s) && Indexed(s.table) && Follows(maxRetry, s, id, job, clock, cut)
    ensures Follows(maxRetry, Next(maxRetry, s, step), id, job, clock, cut)
  {
    var s' := Next(maxRetry, s, step);
    match step
    case LogEnqueue(k) =>
      SameHands(s, s', id);
      FollowsFrame(maxRetry, s, s', [Event(EnqueueEvent, k)], id, job, clock, cut);
    case AddNew(jobs) =>
      AddJobsSlot(s.table, jobs, id);
      SameHands(s, s', id);
      FollowsFrame(maxRetry, s, s', [], id, job, clock, cut);
    case Apply(c) =>
      ApplyEnqueueSlot(s.table, c.jobs, id);
      SameHands(s, s', id);
      FollowsFrame(maxRetry, s, s', [], id, job, clock, cut);
    case Pop(d) => PopFollows(maxRetry, s, d, BATCH_SIZE, id, job, clock, cut);
    case LogDispatch(d, _) => LogDispatchFollows(maxRetry, s, d, id, job, clock, cut);
    case Mark(d, deadline) => MarkFollows(maxRetry, s, d, deadline, id, job, clock, cut);
    case Outcome(k, success, _) => OutcomeFollows(maxRetry, s, k, success, id, job, clock, cut);
    case SweepExpired(now, order, _) =>
      ExpiredInFlight(s.table, now, order);
      SweepFollows(maxRetry, s, order, id, job, clock, cut);
    case PollJobs(n, deadline, _) => PollFollows(maxRetry, s, n, deadline, id, job, clock, cut);
  }

  lemma StepPlaced(maxRetry: int, s: System, step: Step)
    requires Enabled(s, step) && Orderly(s, step) && Placed(s) && Indexed(s.table)
    ensures Placed(Next(maxRetry, s, step))
  {
    match step
    case LogEnqueue(_) =>
    case AddNew(jobs) => AddJobsOnce(s.table, jobs, Held(s.hands));
    case Apply(c) => ApplyEnqueueOnce(s.table, c.jobs, Held(s.hands));
    case Pop(d) => PopPlaced(s, d, BATCH_SIZE);
    case LogDispatch(d, _) => LogPlaced(s, d, true);
    case Mark(d, deadline) => MarkPlaced(s, d, deadline);
    case Outcome(k, success, _) => OutcomeOnce(s.table, k, Held(s.hands), maxRetry, success);
    case SweepExpired(now, order, _) =>
      ExpiredInFlight(s.table, now, order);
      SweepPlaced(maxRetry, s, order);
    case PollJobs(n, deadline, _) => PollPlaced(maxRetry, s, n, deadline);
  }

  lemma PollPlaced(maxRetry: int, s: System, n: int, deadline: int)
    requires Placed(s)
    ensures Placed(Next(maxRetry, s, PollJobs(n, deadline, {})))
  {
    var (t1, ids) := PopBatch(s.table, n);
    PopBatchOnce(s.table, n, Held(s.hands));
    MarkAllOnce(t1, ids, deadline, Held(s.hands));
  }

  ghost predicate OrderlyRun(b: seq<System>, steps: seq<Step>) {
    |b| == |steps| + 1 && forall i :: 0 <= i < |steps| ==> Orderly(b[i], steps[i])
  }

  /** The log is empty and every pending job is in one place; dispatchers may hold batches, and
      may have logged some of them before. */
  ghost predicate AtCut(s: System) {
    Indexed(s.table) && s.wal == [] && Placed(s)
  }

  /** A fresh start is such a moment: nobody holds a batch and the queue is the pending jobs. */
  lemma FreshStartIsCut(s: System)
    requires Indexed(s.table) && s.wal == [] && (forall d :: 0 <= d < |s.hands| ==> s.hands[d] == IDLE)
    requires Enumerates(s.table.queue, WithStatus(s.table.jobs, Pending))
    ensures AtCut(s) && forall id :: !LoggedInHand(s, id)
  {
    NoneHeld(s.hands);
    forall id ensures (multiset(s.table.queue) + Held(s.hands))[id] == if Has(s.table, id, Pending) then 1 else 0 {
      DistinctCount(s.table.queue, id);
    }
  }

  lemma {:induction false} NoneHeld(hands: seq<Hand>)
    requires forall d :: 0 <= d < |hands| ==> hands[d] == IDLE
    ensures Held(hands) == multiset{}
    decreases |hands|
  {
    if hands != [] {
      NoneHeld(hands[..|hands| - 1]);
    }
  }

  lemma {:induction false} DistinctCount(s: seq<JobId>, id: JobId)
    requires forall i, j :: 0 <= i < j < |s| ==> s[i] != s[j]
    ensures multiset(s)[id] == if id in s then 1 else 0
    decreases |s|
  {
    if s != [] {
      var init, last := s[..|s| - 1], s[|s| - 1];
      DistinctCount(init, id);
      assert s == init + [last];
      assert multiset(s) == multiset(init) + multiset{last};
    }
  }

  lemma CutFollows(maxRetry: int, s: System, id: JobId, clock: nat -> int)
    requires AtCut(s) && id in s.table.jobs
    ensures Follows(maxRetry, s, id, s.table.jobs[id], clock, LoggedInHand(s, id))
  {
    if LoggedInHand(s, id) {
      var e, i :| 0 <= e < |s.hands| && 0 <= i < s.hands[e].logged && i < |s.hands[e].batch| && s.hands[e].batch[i] == id;
      HeldIsPending(s, e, i);
    }
  }

  lemma StepKeepsAll(maxRetry: int, s: System, step: Step, s': System)
    requires Transition(maxRetry, s, step, s') && Orderly(s, step) && Placed(s) && Indexed(s.table)
    ensures Placed(s') && Indexed(s'.table)
  {
    StepPlaced(maxRetry, s, step);
    OrderlyIndexed(maxRetry, s, step);
  }

  ghost predicate Sound(s: System) {
    Placed(s) && Indexed(s.table)
  }

  lemma RunStepSound(maxRetry: int, b: seq<System>, steps: seq<Step>, i: nat)
    requires Run(maxRetry, b, steps) && OrderlyRun(b, steps) && 0 < i < |b|
    ensures Sound(b[i - 1]) ==> Sound(b[i])
  {
    if Sound(b[i - 1]) {
      StepKeepsAll(maxRetry, b[i - 1], steps[i - 1], b[i]);
    }
  }

  /** What holds at a moment and is kept by every step holds from then on. */
  lemma {:induction false} KeptFrom(P: System -> bool, b: seq<System>, k: nat, i: nat)
    requires k <= i < |b| && P(b[k]) && forall j :: 0 < j < |b| && P(b[j - 1]) ==> P(b[j])
    ensures P(b[i])
    decreases i
  {
    if k < i {
      KeptFrom(P, b, k, i - 1);
    }
  }

  lemma RunPlaced(maxRetry: int, b: seq<System>, steps: seq<Step>, k: nat, i: nat)
    requires Run(maxRetry, b, steps) && OrderlyRun(b, steps) && k <= i < |b| && Sound(b[k])
    ensures Sound(b[i])
  {
    forall j | 0 < j < |b| && Sound(b[j - 1]) ensures Sound(b[j]) {
      RunStepSound(maxRetry, b, steps, j);
    }
    KeptFrom(s => Sound(s), b, k, i);
  }

  ghost predicate SoundlyFollows(maxRetry: int, s: System, id: JobId, job: Job, clock: nat -> int, cut: bool) {
    Sound(s) && Follows(maxRetry, s, id, job, clock, cut)
  }

  lemma TransitionFollows(maxRetry: int, s: System, step: Step, s': System, id: JobId, job: Job, clock: nat -> int, cut: bool)
    requires Transition(maxRetry, s, step, s') && Orderly(s, step) && SoundlyFollows(maxRetry, s, id, job, clock, cut)
    ensures SoundlyFollows(maxRetry, s', id, job, clock, cut)
  {
    StepKeepsAll(maxRetry, s, step, s');
    StepFollows(maxRetry, s, step, id, job, clock, cut);
  }

  lemma RunStepFollows(maxRetry: int, b: seq<System>, steps: seq<Step>, i: nat, id: JobId, job: Job, clock: nat -> int, cut: bool)
    requires Run(maxRetry, b, steps) && OrderlyRun(b, steps) && 0 < i < |b|
    requires SoundlyFollows(maxRetry, b[i - 1], id, job, clock, cut)
    ensures SoundlyFollows(maxRetry, b[i], id, job, clock, cut)
  {
    TransitionFollows(maxRetry, b[i - 1], steps[i - 1], b[i], id, job, clock, cut);
  }

  /** Once a job is accounted for, it stays so for the rest of the run. */
  lemma FollowsFrom(maxRetry: int, b: seq<System>, steps: seq<Step>, k: nat, i: nat, id: JobId, job: Job, clock: nat -> int, cut: bool)
    requires Run(maxRetry, b, steps) && OrderlyRun(b, steps) && k <= i < |b| && Sound(b[k])
    requires Follows(maxRetry, b[k], id, job, clock, cut)
    ensures Follows(maxRetry, b[i], id, job, clock, cut)
  {
    forall j | 0 < j < |b| && SoundlyFollows(maxRetry, b[j - 1], id, job, clock, cut)
      ensures SoundlyFollows(maxRetry, b[j], id, job, clock, cut)
    {
      RunStepFollows(maxRetry, b, steps, j, id, job, clock, cut);
    }
    KeptFrom(s => SoundlyFollows(maxRetry, s, id, job, clock, cut), b, k, i);
  }

  /** From a moment with an empty log on, the log accounts at every later moment for every job
      the table held then; the jobs whose dispatch it missed are those logged in a hand. */
  lemma RunFollows(maxRetry: int, b: seq<System>, steps: seq<Step>, i: nat, id: JobId, clock: nat -> int)
    requires Run(maxRetry, b, steps) && OrderlyRun(b, steps) && AtCut(b[0]) && i < |b| && id in b[0].table.jobs
    ensures Placed(b[i]) && Indexed(b[i].table)
    ensures Follows(maxRetry, b[i], id, b[0].table.jobs[id], clock, LoggedInHand(b[0], id))
  {
    CutFollows(maxRetry, b[0], id, clock);
    RunPlaced(maxRetry, b, steps, 0, i);
    FollowsFrom(maxRetry, b, steps, 0, i, id, b[0].table.jobs[id], clock, LoggedInHand(b[0], id));
  }

  // ---- Jobs that appear during the run ----

  ghost predicate OnlyKnownJobs(es: seq<Event>, jobs: map<JobId, Job>) {
    forall i :: 0 <= i < |es| ==> es[i].kind == EnqueueEvent || es[i].id in jobs
  }

  lemma {:induction false} DispatchNames(ids: seq<JobId>, jobs: map<JobId, Job>)
    requires forall i :: 0 <= i < |ids| ==> ids[i] in jobs
    ensures OnlyKnownJobs(DispatchEvents(ids, {}), jobs)
    decreases |ids|
  {
    if ids != [] {
      assert forall i :: 0 <= i < |ids| - 1 ==> ids[..|ids| - 1][i] == ids[i];
      DispatchNames(ids[..|ids| - 1], jobs);
    }
  }

  lemma {:induction false} SweepNames(t: Table, ids: seq<JobId>, failed: set<JobId>, maxRetry: int)
    ensures OnlyKnownJobs(Sweep(t, ids, failed, maxRetry).1, Sweep(t, ids, failed, maxRetry).0.jobs)
    decreases |ids|
  {
    if ids != [] {
      var init, last := ids[..|ids| - 1], ids[|ids| - 1];
      SweepNames(t, init, failed, maxRetry);
      TimeOutKeeps(Sweep(t, init, failed, maxRetry).0, last, last !in failed, maxRetry);
    }
  }

  /** Everything logged, ENQUEUE aside, is about jobs of the table. */
  lemma StepNames(maxRetry: int, s: System, step: Step)
    requires Enabled(s, step) && Orderly(s, step) && Placed(s) && Indexed(s.table) && OnlyKnownJobs(s.wal, s.table.jobs)
    ensures var s' := Next(maxRetry, s, step); OnlyKnownJobs(s'.wal, s'.table.jobs)
  {
    PlacedLosesNothing(s);
    StepKeeps(maxRetry, s, step);
    match step
    case LogDispatch(d, _) => HeldIsPending(s, d, s.hands[d].logged);
    case SweepExpired(_, order, failed) => SweepNames(s.table, order, failed, maxRetry);
    case PollJobs(n, deadline, _) => PollNames(s, n, deadline);
    case _ =>
  }

  lemma PollNames(s: System, n: int, deadline: int)
    requires Placed(s)
    ensures var (t, _, es) := Poll(s.table, n, deadline, {}); OnlyKnownJobs(es, t.jobs)
  {
    var (t1, ids) := PopBatch(s.table, n);
    PopBatchOnce(s.table, n, Held(s.hands));
    MarkAllOnce(t1, ids, deadline, Held(s.hands));
    MarkAllKeeps(t1, ids, deadline);
    forall i | 0 <= i < |ids| ensures ids[i] in MarkAll(t1, ids, deadline).jobs {
      assert ids[i] in ids && Has(t1, ids[i], Pending);
    }
    DispatchNames(ids, MarkAll(t1, ids, deadline).jobs);
  }

  lemma {:induction false} RunNames(maxRetry: int, b: seq<System>, steps: seq<Step>, i: nat)
    requires Run(maxRetry, b, steps) && OrderlyRun(b, steps) && AtCut(b[0]) && i < |b|
    ensures OnlyKnownJobs(b[i].wal, b[i].table.jobs)
    decreases i
  {
    if i > 0 {
      RunNames(maxRetry, b, steps, i - 1);
      RunPlaced(maxRetry, b, steps, 0, i - 1);
      assert Transition(maxRetry, b[i - 1], steps[i - 1], b[i]);
      StepNames(maxRetry, b[i - 1], steps[i - 1]);
    }
  }

  /** A step that adds a job logs nothing and moves no hand; the job is pending. */
  lemma BirthStep(maxRetry: int, s: System, step: Step, id: JobId)
    requires Enabled(s, step) && Orderly(s, step) && id !in s.table.jobs && id in Next(maxRetry, s, step).table.jobs
    ensures var s' := Next(maxRetry, s, step);
            s'.wal == s.wal && s'.hands == s.hands && Has(s'.table, id, Pending)
  {
    match step
    case AddNew(jobs) => AddedPending(s.table, jobs, id);
    case Apply(c) => ApplyEnqueueAdds(s.table, c.jobs, id);
    case Pop(_) => PopBatchSlot(s.table, BATCH_SIZE, id);
    case Mark(d, deadline) => MarkAllSlot(s.table, s.hands[d].batch, deadline, id);
    case Outcome(k, success, ok) => if k != id { ResultOther(s.table, k, success, ok, maxRetry, id); }
    case SweepExpired(_, order, failed) => SweepSlot(s.table, order, failed, maxRetry, id);
    case PollJobs(n, deadline, _) =>
      PopBatchSlot(s.table, n, id);
      MarkAllSlot(PopBatch(s.table, n).0, PopBatch(s.table, n).1, deadline, id);
    case _ =>
  }

  lemma {:induction false} AddedPending(t: Table, jobs: seq<Job>, id: JobId)
    requires id !in t.jobs && id in AddJobs(t, jobs).0.jobs
    ensures Has(AddJobs(t, jobs).0, id, Pending)
    decreases |jobs|
  {
    if id in AddJobs(t, jobs[..|jobs| - 1]).0.jobs {
      AddedPending(t, jobs[..|jobs| - 1], id);
    }
  }

  /** The moment a job first appears: with the empty log, or added by the step just before. */
  ghost predicate Appears(b: seq<System>, k: nat, id: JobId) {
    k < |b| && id in b[k].table.jobs && (k == 0 || id !in b[k - 1].table.jobs)
  }

  lemma BornFollows(maxRetry: int, b: seq<System>, steps: seq<Step>, k: nat, id: JobId, clock: nat -> int)
    requires Run(maxRetry, b, steps) && OrderlyRun(b, steps) && AtCut(b[0]) && Appears(b, k, id) && k > 0
    ensures Follows(maxRetry, b[k], id, b[k].table.jobs[id], clock, false)
  {
    RunPlaced(maxRetry, b, steps, 0, k - 1);
    RunNames(maxRetry, b, steps, k - 1);
    assert Transition(maxRetry, b[k - 1], steps[k - 1], b[k]);
    BirthStep(maxRetry, b[k - 1], steps[k - 1], id);
    OnlyPendingInHands(b[k - 1], id);
    SameHands(b[k - 1], b[k], id);
    NewJobFollows(maxRetry, b[k], id, clock);
  }

  lemma NewJobFollows(maxRetry: int, s: System, id: JobId, clock: nat -> int)
    requires Has(s.table, id, Pending) && Foreign(s.wal, id) && !LoggedInHand(s, id)
    ensures Follows(maxRetry, s, id, s.table.jobs[id], clock, false)
  {
    assert [] + s.wal == s.wal;
    ForeignEvents(InitialSlot(s.table.jobs[id]), [], s.wal, id, clock);
  }

  /** Every job, from its first appearance on, is accounted for by the log. */
  lemma JobFollows(maxRetry: int, b: seq<System>, steps: seq<Step>, k: nat, i: nat, id: JobId, clock: nat -> int)
    requires Run(maxRetry, b, steps) && OrderlyRun(b, steps) && AtCut(b[0]) && k <= i < |b| && Appears(b, k, id)
    ensures Follows(maxRetry, b[i], id, b[k].table.jobs[id], clock, k == 0 && LoggedInHand(b[0], id))
  {
    if k == 0 {
      RunFollows(maxRetry, b, steps, i, id, clock);
    } else {
      BornFollows(maxRetry, b, steps, k, id, clock);
      RunPlaced(maxRetry, b, steps, 0, k);
      FollowsFrom(maxRetry, b, steps, k, i, id, b[k].table.jobs[id], clock, false);
    }
  }

  lemma OrderlyIndexed(maxRetry: int, s: System, step: Step)
    requires Enabled(s, step) && Placed(s) && Indexed(s.table)
    ensures Indexed(Next(maxRetry, s, step).table)
  {
    PlacedLosesNothing(s);
    StepKeeps(maxRetry, s, step);
  }

  lemma PlacedLosesNothing(s: System)
    requires Placed(s) && Indexed(s.table)
    ensures NothingLost(s)
  {
    forall id | Has(s.table, id, Pending) ensures id in s.table.queue || InHand(s, id) {
      assert (multiset(s.table.queue) + Held(s.hands))[id] == 1;
      if id !in s.table.queue {
        HeldSomewhere(s.hands, id);
      }
    }
  }

  lemma {:induction false} HeldSomewhere(hands: seq<Hand>, id: JobId)
    requires Held(hands)[id] > 0
    ensures exists d :: 0 <= d < |hands| && id in hands[d].batch
    decreases |hands|
  {
    var init, last := hands[..|hands| - 1], hands[|hands| - 1];
    if id in multiset(last.batch) {
      assert id in hands[|hands| - 1].batch;
    } else {
      HeldSomewhere(init, id);
      var d :| 0 <= d < |init| && id in init[d].batch;
      assert id in hands[d].batch;
    }
  }
}
