/** The snapshot loop beside the dispatchers: the table is copied under the lock, the log is
    rotated later without it. When the copy still stands at the rotation, and what is lost
    when it does not. */
module Rotation {
  import opened Jobs
  import opened ControllerSteps
  import opened SlotSteps
  import opened JobSystem
  import opened Conservation
  import opened ReplayByJob
  import opened Tracking
  import opened Fidelity
  import opened OrderlyRuns
  import opened Recovery
  import opened StrayResults

  // ---- The run as a fresh log sees it ----

  /** The system with the first n events of its log rotated away. */
  function Tail(s: System, n: nat): System
    requires n <= |s.wal|
  {
    s.(wal := s.wal[n..])
  }

  lemma StepAppends(maxRetry: int, s: System, step: Step) returns (es: seq<Event>)
    requires Enabled(s, step)
    ensures Next(maxRetry, s, step).wal == s.wal + es
    ensures forall w :: Enabled(s.(wal := w), step) && Next(maxRetry, s.(wal := w), step) == Next(maxRetry, s, step).(wal := w + es)
    ensures forall w :: Orderly(s.(wal := w), step) <==> Orderly(s, step)
  {
    es := match step
      case LogEnqueue(id) => [Event(EnqueueEvent, id)]
      case LogDispatch(d, ok) => if ok then [Event(DispatchEvent, s.hands[d].batch[s.hands[d].logged])] else []
      case Outcome(id, success, ok) => HandleResult(s.table, id, success, ok, maxRetry).1
      case SweepExpired(_, order, failed) => Sweep(s.table, order, failed, maxRetry).1
      case PollJobs(n, deadline, failed) => Poll(s.table, n, deadline, failed).2
      case _ => [];
  }

  /** The part of a run from state r on, with the log as a rotation at r leaves it. */
  ghost predicate Since(b: seq<System>, r: nat, b': seq<System>) {
    && r < |b| && |b'| == |b| - r
    && forall i :: r <= i < |b| ==> |b[r].wal| <= |b[i].wal| && b'[i - r] == Tail(b[i], |b[r].wal|)
  }

  lemma {:induction false} LogGrowsOverRun(maxRetry: int, b: seq<System>, steps: seq<Step>, r: nat, i: nat)
    requires Run(maxRetry, b, steps) && r <= i < |b|
    ensures b[r].wal <= b[i].wal
    decreases i
  {
    if r < i {
      LogGrowsOverRun(maxRetry, b, steps, r, i - 1);
      assert Transition(maxRetry, b[i - 1], steps[i - 1], b[i]);
      var es := StepAppends(maxRetry, b[i - 1], steps[i - 1]);
    }
  }

  lemma SinceExists(maxRetry: int, b: seq<System>, steps: seq<Step>, r: nat) returns (b': seq<System>)
    requires Run(maxRetry, b, steps) && r < |b|
    ensures Since(b, r, b')
  {
    forall i | r <= i < |b| ensures |b[r].wal| <= |b[i].wal| {
      LogGrowsOverRun(maxRetry, b, steps, r, i);
    }
    b' := seq(|b| - r, i requires 0 <= i < |b| - r => Tail(b[r + i], |b[r].wal|));
  }

  /** A rotation does not disturb the run: what follows it is a run over the fresh log. */
  lemma SinceIsRun(maxRetry: int, b: seq<System>, steps: seq<Step>, r: nat) returns (b': seq<System>)
    requires Run(maxRetry, b, steps) && OrderlyRun(b, steps) && r < |b| && Sound(b[r])
    ensures Since(b, r, b') && Run(maxRetry, b', steps[r..]) && OrderlyRun(b', steps[r..]) && AtCut(b'[0])
  {
    b' := SinceExists(maxRetry, b, steps, r);
    forall i | 0 <= i < |steps| - r
      ensures Transition(maxRetry, b'[i], steps[r..][i], b'[i + 1]) && Orderly(b'[i], steps[r..][i])
    {
      SinceStep(maxRetry, b, steps, r, b', i);
    }
  }

  lemma SinceStep(maxRetry: int, b: seq<System>, steps: seq<Step>, r: nat, b': seq<System>, i: nat)
    requires Run(maxRetry, b, steps) && OrderlyRun(b, steps) && r + i < |steps| && Since(b, r, b')
    ensures Transition(maxRetry, b'[i], steps[r..][i], b'[i + 1]) && Orderly(b'[i], steps[r..][i])
  {
    LogGrowsOverRun(maxRetry, b, steps, r, r + i);
    RunTailStep(maxRetry, b, steps, r, r + i);
    assert b'[r + i - r] == Tail(b[r + i], |b[r].wal|) && b'[r + i + 1 - r] == Tail(b[r + i + 1], |b[r].wal|);
  }

  lemma RunTailStep(maxRetry: int, b: seq<System>, steps: seq<Step>, r: nat, i: nat)
    requires Run(maxRetry, b, steps) && OrderlyRun(b, steps) && r <= i < |steps| && b[r].wal <= b[i].wal
    ensures |b[r].wal| <= |b[i + 1].wal| && Orderly(Tail(b[i], |b[r].wal|), steps[i])
    ensures Transition(maxRetry, Tail(b[i], |b[r].wal|), steps[i], Tail(b[i + 1], |b[r].wal|))
  {
    TailStep(maxRetry, b[i], steps[i], b[i + 1], |b[r].wal|);
  }

  lemma TailStep(maxRetry: int, s: System, step: Step, s': System, n: nat)
    requires Transition(maxRetry, s, step, s') && Orderly(s, step) && n <= |s.wal|
    ensures n <= |s'.wal| && Transition(maxRetry, Tail(s, n), step, Tail(s', n)) && Orderly(Tail(s, n), step)
  {
    var es := StepAppends(maxRetry, s, step);
    assert (s.wal + es)[n..] == s.wal[n..] + es;
  }

  // ---- A measure of what happened to a job ----

  ghost function Stage(s: System, id: JobId): int
    requires id in s.table.jobs
  {
    match s.table.jobs[id].status
    case Pending => if LoggedInHand(s, id) then 1 else 0
    case InFlight => 2
    case Completed => 3
    case Dead => 3
  }

  ghost function Progress(s: System, id: JobId): int
    requires id in s.table.jobs
  {
    3 * s.table.jobs[id].attempt + Stage(s, id)
  }

  lemma SameProgress(s: System, s': System, id: JobId)
    requires id in s.table.jobs && id in s'.table.jobs && s'.table.jobs[id] == s.table.jobs[id]
    requires LoggedInHand(s', id) == LoggedInHand(s, id)
    ensures Progress(s', id) == Progress(s, id)
  {}

  lemma EndProgress(s: System, s': System, kind: EventKind, maxRetry: int, id: JobId)
    requires Has(s.table, id, InFlight) && id in s'.table.jobs
    requires Ends(s.table.jobs[id], s'.table.jobs[id], kind, maxRetry)
    ensures Progress(s', id) > Progress(s, id)
  {}

  lemma {:induction false} DispatchForeign(ids: seq<JobId>, id: JobId)
    requires id !in ids
    ensures Foreign(DispatchEvents(ids, {}), id)
    decreases |ids|
  {
    if ids != [] {
      assert ids[|ids| - 1] in ids;
      DispatchForeign(ids[..|ids| - 1], id);
    }
  }

  lemma {:induction false} SweepForeign(t: Table, ids: seq<JobId>, failed: set<JobId>, maxRetry: int, id: JobId)
    requires id !in ids
    ensures Foreign(Sweep(t, ids, failed, maxRetry).1, id)
    decreases |ids|
  {
    if ids != [] {
      assert ids[|ids| - 1] in ids;
      SweepForeign(t, ids[..|ids| - 1], failed, maxRetry, id);
    }
  }

  lemma LogProgress(s: System, d: nat, id: JobId)
    requires Placed(s) && d < |s.hands| && s.hands[d].logged < |s.hands[d].batch| && id in s.table.jobs
    ensures Progress(LogDispatchNext(s, d, true), id)
         == Progress(s, id) + if s.hands[d].batch[s.hands[d].logged] == id then 1 else 0
  {
    var s', h := LogDispatchNext(s, d, true), s.hands[d];
    NextIsFresh(s, d);
    if h.batch[h.logged] == id {
      assert s'.hands[d].batch[h.logged] == id;
      assert LoggedInHand(s', id);
    } else {
      OthersStillLogged(s, s', d, id);
      SameProgress(s, s', id);
    }
  }

  lemma MarkProgress(s: System, d: nat, deadline: int, id: JobId)
    requires Placed(s) && d < |s.hands| && s.hands[d].logged == |s.hands[d].batch| && id in s.table.jobs
    ensures id in MarkNext(s, d, deadline).table.jobs && Progress(MarkNext(s, d, deadline), id) >= Progress(s, id)
  {
    var s', h := MarkNext(s, d, deadline), s.hands[d];
    MarkAllSlot(s.table, h.batch, deadline, id);
    if id in h.batch {
      var i :| 0 <= i < |h.batch| && h.batch[i] == id;
      HeldIsPending(s, d, i);
    } else {
      HandChanges(s, s', d, id);
      SameProgress(s, s', id);
    }
  }

  lemma PollProgress(maxRetry: int, s: System, n: int, deadline: int, id: JobId)
    requires Placed(s) && id in s.table.jobs
    ensures var s', ids := Next(maxRetry, s, PollJobs(n, deadline, {})), PopBatch(s.table, n).1;
            && id in s'.table.jobs
            && (if id in ids then Progress(s', id) > Progress(s, id) else s'.table.jobs[id] == s.table.jobs[id])
  {
    var (t1, ids) := PopBatch(s.table, n);
    PopBatchSlot(s.table, n, id);
    PopBatchOnce(s.table, n, Held(s.hands));
    MarkAllOnce(t1, ids, deadline, Held(s.hands));
    MarkAllSlot(t1, ids, deadline, id);
  }

  lemma PollStep(maxRetry: int, s: System, n: int, deadline: int, id: JobId)
    requires Placed(s) && id in s.table.jobs
    ensures var s', es := Next(maxRetry, s, PollJobs(n, deadline, {})), Poll(s.table, n, deadline, {}).2;
            && id in s'.table.jobs && Progress(s', id) >= Progress(s, id)
            && (!Foreign(es, id) ==> Progress(s', id) > Progress(s, id))
  {
    var s', ids := Next(maxRetry, s, PollJobs(n, deadline, {})), PopBatch(s.table, n).1;
    PollProgress(maxRetry, s, n, deadline, id);
    if id !in ids {
      DispatchForeign(ids, id);
      SameHands(s, s', id);
      SameProgress(s, s', id);
    }
  }

  lemma SweepStepProgress(maxRetry: int, s: System, now: int, order: seq<JobId>, id: JobId)
    requires Sound(s) && Enumerates(order, Expired(s.table, now)) && id in s.table.jobs
    ensures var s', es := Next(maxRetry, s, SweepExpired(now, order, {})), Sweep(s.table, order, {}, maxRetry).1;
            && id in s'.table.jobs && Progress(s', id) >= Progress(s, id)
            && (!Foreign(es, id) ==> Progress(s', id) > Progress(s, id))
  {
    var s' := Next(maxRetry, s, SweepExpired(now, order, {}));
    ExpiredInFlight(s.table, now, order);
    SweepSlot(s.table, order, {}, maxRetry, id);
    SameHands(s, s', id);
    if id in order {
      EndProgress(s, s', TimeoutEvent, maxRetry, id);
    } else {
      SweepForeign(s.table, order, {}, maxRetry, id);
      SameProgress(s, s', id);
    }
  }

  lemma OutcomeProgress(maxRetry: int, s: System, k: JobId, success: bool, id: JobId)
    requires Sound(s) && Has(s.table, k, InFlight) && id in s.table.jobs
    ensures var s', es := Next(maxRetry, s, Outcome(k, success, true)), HandleResult(s.table, k, success, true, maxRetry).1;
            && id in s'.table.jobs && Progress(s', id) >= Progress(s, id)
            && (!Foreign(es, id) ==> Progress(s', id) > Progress(s, id))
  {
    var s' := Next(maxRetry, s, Outcome(k, success, true));
    SameHands(s, s', id);
    if k == id {
      var kind := ResultEnds(s.table, id, success, maxRetry);
      EndProgress(s, s', kind, maxRetry, id);
    } else {
      ResultOther(s.table, k, success, true, maxRetry, id);
      SameProgress(s, s', id);
    }
  }

  /** No orderly step takes a job back, and one that logs an event of it takes it forward. */
  lemma StepProgress(maxRetry: int, s: System, step: Step, id: JobId) returns (es: seq<Event>)
    requires Enabled(s, step) && Orderly(s, step) && Sound(s) && id in s.table.jobs
    ensures var s' := Next(maxRetry, s, step);
            && s'.wal == s.wal + es && id in s'.table.jobs && Progress(s', id) >= Progress(s, id)
            && (!Foreign(es, id) ==> Progress(s', id) > Progress(s, id))
  {
    var s' := Next(maxRetry, s, step);
    es := [];
    match step
    case LogEnqueue(k) => es := [Event(EnqueueEvent, k)]; SameHands(s, s', id); SameProgress(s, s', id);
    case AddNew(jobs) => AddJobsSlot(s.table, jobs, id); SameHands(s, s', id); SameProgress(s, s', id);
    case Apply(c) => ApplyEnqueueSlot(s.table, c.jobs, id); SameHands(s, s', id); SameProgress(s, s', id);
    case Pop(d) => PopBatchSlot(s.table, BATCH_SIZE, id); HandChanges(s, s', d, id); SameProgress(s, s', id);
    case LogDispatch(d, _) => es := [Event(DispatchEvent, s.hands[d].batch[s.hands[d].logged])]; LogProgress(s, d, id);
    case Mark(d, deadline) => MarkProgress(s, d, deadline, id);
    case Outcome(k, success, _) =>
      es := HandleResult(s.table, k, success, true, maxRetry).1;
      OutcomeProgress(maxRetry, s, k, success, id);
    case SweepExpired(now, order, _) =>
      es := Sweep(s.table, order, {}, maxRetry).1;
      SweepStepProgress(maxRetry, s, now, order, id);
    case PollJobs(n, deadline, _) =>
      es := Poll(s.table, n, deadline, {}).2;
      PollStep(maxRetry, s, n, deadline, id);
  }

  lemma RunStepProgress(maxRetry: int, b: seq<System>, steps: seq<Step>, i: nat, id: JobId) returns (es: seq<Event>)
    requires Run(maxRetry, b, steps) && OrderlyRun(b, steps) && 0 < i < |b| && Sound(b[i - 1]) && id in b[i - 1].table.jobs
    ensures b[i].wal == b[i - 1].wal + es && id in b[i].table.jobs && Progress(b[i], id) >= Progress(b[i - 1], id)
    ensures !Foreign(es, id) ==> Progress(b[i], id) > Progress(b[i - 1], id)
  {
    assert Transition(maxRetry, b[i - 1], steps[i - 1], b[i]);
    es := StepProgress(maxRetry, b[i - 1], steps[i - 1], id);
  }

  lemma JoinEvents(a: seq<Event>, m: seq<Event>, z: seq<Event>, before: seq<Event>, more: seq<Event>, id: JobId)
    requires m == a + before && z == m + more
    ensures z == a + (before + more) && (Foreign(before, id) && Foreign(more, id) ==> Foreign(before + more, id))
  {}

  /** Over a stretch of the run: the events logged in it leave a job where it was only if none
      of them is its own. */
  lemma {:induction false} StretchProgress(maxRetry: int, b: seq<System>, steps: seq<Step>, c: nat, r: nat, id: JobId)
    returns (es: seq<Event>)
    requires Run(maxRetry, b, steps) && OrderlyRun(b, steps) && c <= r < |b| && Sound(b[c]) && id in b[c].table.jobs
    ensures b[r].wal == b[c].wal + es && id in b[r].table.jobs && Progress(b[r], id) >= Progress(b[c], id)
    ensures !Foreign(es, id) ==> Progress(b[r], id) > Progress(b[c], id)
    decreases r
  {
    if c == r {
      es := [];
    } else {
      var before := StretchProgress(maxRetry, b, steps, c, r - 1, id);
      RunPlaced(maxRetry, b, steps, c, r - 1);
      var more := RunStepProgress(maxRetry, b, steps, r, id);
      es := before + more;
      JoinEvents(b[c].wal, b[r - 1].wal, b[r].wal, before, more, id);
    }
  }

  // ---- When the copy still stands ----

  ghost predicate NoneLogged(s: System) {
    forall id :: !LoggedInHand(s, id)
  }

  /** The copied jobs are the table at the rotation, and no dispatch that only the old log held
      is still to be answered: nothing the rotation takes away is missed. */
  ghost predicate CopyStands(copy: System, s: System) {
    s.table.jobs == copy.table.jobs && NoneLogged(s)
  }

  ghost predicate OnlyEnqueues(es: seq<Event>) {
    forall i :: 0 <= i < |es| ==> es[i].kind == EnqueueEvent
  }

  /** A step that logs nothing but ENQUEUE and adds no job leaves jobs and hands as the copy has
      them. */
  lemma QuietStep(maxRetry: int, s: System, step: Step, es: seq<Event>)
    requires Enabled(s, step) && Orderly(s, step) && Sound(s) && NoneLogged(s)
    requires var s' := Next(maxRetry, s, step); s'.wal == s.wal + es && s'.table.jobs.Keys == s.table.jobs.Keys
    requires OnlyEnqueues(es)
    ensures var s' := Next(maxRetry, s, step); s'.table.jobs == s.table.jobs && NoneLogged(s')
  {
    var s' := Next(maxRetry, s, step);
    match step
    case Mark(d, _) => assert LoggedInHand(s, s.hands[d].batch[0]);
    case LogDispatch(d, _) => OneEnqueue(s.wal, Event(DispatchEvent, s.hands[d].batch[s.hands[d].logged]), es);
    case Outcome(k, success, _) =>
      var kind := ResultEnds(s.table, k, success, maxRetry);
      OneEnqueue(s.wal, Event(kind, k), es);
    case _ =>
      forall id | id in s.table.jobs ensures s'.table.jobs[id] == s.table.jobs[id] && !LoggedInHand(s', id) {
        QuietJob(maxRetry, s, step, es, id);
      }
      forall id ensures !LoggedInHand(s', id) {
        if id !in s.table.jobs { NotInHand(maxRetry, s, step, id); }
      }
  }

  lemma QuietJob(maxRetry: int, s: System, step: Step, es: seq<Event>, id: JobId)
    requires Enabled(s, step) && Orderly(s, step) && Sound(s) && !LoggedInHand(s, id) && id in s.table.jobs
    requires !step.Mark? && !step.LogDispatch? && !step.Outcome?
    requires Next(maxRetry, s, step).wal == s.wal + es && OnlyEnqueues(es)
    ensures var s' := Next(maxRetry, s, step); id in s'.table.jobs && s'.table.jobs[id] == s.table.jobs[id] && !LoggedInHand(s', id)
  {
    var s' := Next(maxRetry, s, step);
    match step
    case LogEnqueue(_) => SameHands(s, s', id);
    case AddNew(jobs) => AddJobsSlot(s.table, jobs, id); SameHands(s, s', id);
    case Apply(c) => ApplyEnqueueSlot(s.table, c.jobs, id); SameHands(s, s', id);
    case Pop(d) => PopBatchSlot(s.table, BATCH_SIZE, id); HandChanges(s, s', d, id);
    case SweepExpired(now, order, _) =>
      ExpiredInFlight(s.table, now, order);
      SweepSlot(s.table, order, {}, maxRetry, id);
      SameHands(s, s', id);
      if id in order { SweepLogs(s.table, order, maxRetry, id); EventsAppended(s.wal, Sweep(s.table, order, {}, maxRetry).1, es); }
    case PollJobs(n, deadline, _) =>
      var (t1, ids) := PopBatch(s.table, n);
      PopBatchSlot(s.table, n, id);
      MarkAllSlot(t1, ids, deadline, id);
      SameHands(s, s', id);
      if id in ids { DispatchLogs(ids, id); EventsAppended(s.wal, DispatchEvents(ids, {}), es); }
  }

  lemma OneEnqueue(wal: seq<Event>, e: Event, es: seq<Event>)
    requires wal + [e] == wal + es && OnlyEnqueues(es)
    ensures e.kind == EnqueueEvent
  {
    EventsAppended(wal, [e], es);
    assert es[0] == e;
  }

  lemma EventsAppended(wal: seq<Event>, a: seq<Event>, b: seq<Event>)
    requires wal + a == wal + b
    ensures a == b
  {
    assert (wal + a)[|wal|..] == a && (wal + b)[|wal|..] == b;
  }

  lemma {:induction false} DispatchLogs(ids: seq<JobId>, id: JobId)
    requires id in ids
    ensures !Foreign(DispatchEvents(ids, {}), id) && !OnlyEnqueues(DispatchEvents(ids, {}))
    decreases |ids|
  {
    var init, last, es := ids[..|ids| - 1], ids[|ids| - 1], DispatchEvents(ids, {});
    assert es == DispatchEvents(init, {}) + [Event(DispatchEvent, last)];
    if last == id {
      assert es[|es| - 1] == Event(DispatchEvent, id);
    } else {
      DispatchLogs(init, id);
      var i :| 0 <= i < |es| - 1 && !(DispatchEvents(init, {})[i].id != id || DispatchEvents(init, {})[i].kind == EnqueueEvent);
      assert es[i] == DispatchEvents(init, {})[i];
    }
  }

  lemma {:induction false} SweepLogs(t: Table, ids: seq<JobId>, maxRetry: int, id: JobId)
    requires id in ids && forall i :: 0 <= i < |ids| ==> ids[i] in t.jobs
    ensures !OnlyEnqueues(Sweep(t, ids, {}, maxRetry).1)
    decreases |ids|
  {
    var init, last := ids[..|ids| - 1], ids[|ids| - 1];
    var (t1, es) := Sweep(t, init, {}, maxRetry);
    SweepKeeps(t, init, {}, maxRetry);
    assert ids[|ids| - 1] in t.jobs;
    assert Sweep(t, ids, {}, maxRetry).1 == es + [Event(TimeoutEvent, last)];
    assert (es + [Event(TimeoutEvent, last)])[|es|].kind == TimeoutEvent;
  }

  /** A job that is not in the table is in nobody's hand, before and after. */
  lemma NotInHand(maxRetry: int, s: System, step: Step, id: JobId)
    requires Enabled(s, step) && Orderly(s, step) && Sound(s) && id !in Next(maxRetry, s, step).table.jobs
    ensures !LoggedInHand(Next(maxRetry, s, step), id)
  {
    StepKeepsAll(maxRetry, s, step, Next(maxRetry, s, step));
    OnlyPendingInHands(Next(maxRetry, s, step), id);
  }

  lemma RunQuietStep(maxRetry: int, b: seq<System>, steps: seq<Step>, i: nat, es: seq<Event>)
    requires Run(maxRetry, b, steps) && OrderlyRun(b, steps) && 0 < i < |b| && Sound(b[i - 1]) && NoneLogged(b[i - 1])
    requires b[i].wal == b[i - 1].wal + es && OnlyEnqueues(es) && b[i].table.jobs.Keys == b[i - 1].table.jobs.Keys
    ensures b[i].table.jobs == b[i - 1].table.jobs && NoneLogged(b[i])
  {
    assert Transition(maxRetry, b[i - 1], steps[i - 1], b[i]);
    QuietStep(maxRetry, b[i - 1], steps[i - 1], es);
  }

  lemma RunKeysGrow(maxRetry: int, b: seq<System>, steps: seq<Step>, i: nat)
    requires Run(maxRetry, b, steps) && 0 < i < |b| && Sound(b[i - 1])
    ensures b[i - 1].table.jobs.Keys <= b[i].table.jobs.Keys
  {
    assert Transition(maxRetry, b[i - 1], steps[i - 1], b[i]);
    PlacedLosesNothing(b[i - 1]);
    StepKeeps(maxRetry, b[i - 1], steps[i - 1]);
  }

  lemma {:induction false} QuietStretch(maxRetry: int, b: seq<System>, steps: seq<Step>, c: nat, r: nat, es: seq<Event>)
    requires Run(maxRetry, b, steps) && OrderlyRun(b, steps) && c <= r < |b| && Sound(b[c]) && NoneLogged(b[c])
    requires b[r].wal == b[c].wal + es && OnlyEnqueues(es) && b[r].table.jobs.Keys <= b[c].table.jobs.Keys
    ensures CopyStands(b[c], b[r])
    decreases r
  {
    if c < r {
      var early, late := StretchParts(maxRetry, b, steps, c, r, es);
      QuietStretch(maxRetry, b, steps, c, r - 1, early);
      RunQuietStep(maxRetry, b, steps, r, late);
    }
  }

  lemma StretchParts(maxRetry: int, b: seq<System>, steps: seq<Step>, c: nat, r: nat, es: seq<Event>)
    returns (early: seq<Event>, late: seq<Event>)
    requires Run(maxRetry, b, steps) && OrderlyRun(b, steps) && c < r < |b| && Sound(b[c])
    requires b[r].wal == b[c].wal + es && OnlyEnqueues(es) && b[r].table.jobs.Keys <= b[c].table.jobs.Keys
    ensures b[r - 1].wal == b[c].wal + early && b[r].wal == b[r - 1].wal + late && OnlyEnqueues(early) && OnlyEnqueues(late)
    ensures Sound(b[r - 1]) && b[r - 1].table.jobs.Keys == b[c].table.jobs.Keys == b[r].table.jobs.Keys
  {
    StretchKeys(maxRetry, b, steps, c, r);
    LogGrowsOverRun(maxRetry, b, steps, c, r - 1);
    LogGrowsOverRun(maxRetry, b, steps, r - 1, r);
    early, late := QuietParts(b[c].wal, b[r - 1].wal, b[r].wal, es);
  }

  lemma StretchKeys(maxRetry: int, b: seq<System>, steps: seq<Step>, c: nat, r: nat)
    requires Run(maxRetry, b, steps) && OrderlyRun(b, steps) && c < r < |b| && Sound(b[c])
    ensures Sound(b[r - 1]) && b[c].table.jobs.Keys <= b[r - 1].table.jobs.Keys <= b[r].table.jobs.Keys
  {
    RunPlaced(maxRetry, b, steps, c, r - 1);
    RunKeysGrow(maxRetry, b, steps, r);
    RunKeysKept(maxRetry, b, steps, c, r - 1);
  }

  lemma QuietParts(a: seq<Event>, m: seq<Event>, z: seq<Event>, es: seq<Event>) returns (early: seq<Event>, late: seq<Event>)
    requires a <= m <= z && z == a + es && OnlyEnqueues(es)
    ensures m == a + early && z == m + late && OnlyEnqueues(early) && OnlyEnqueues(late)
  {
    early, late := m[|a|..], z[|m|..];
    assert forall i :: 0 <= i < |early| ==> early[i] == m[|a| + i] == z[|a| + i] == es[i];
    assert forall i :: 0 <= i < |late| ==> late[i] == z[|m| + i] == es[|m| - |a| + i];
  }

  lemma {:induction false} RunKeysKept(maxRetry: int, b: seq<System>, steps: seq<Step>, c: nat, r: nat)
    requires Run(maxRetry, b, steps) && OrderlyRun(b, steps) && c <= r < |b| && Sound(b[c])
    ensures b[c].table.jobs.Keys <= b[r].table.jobs.Keys
    decreases r
  {
    if c < r {
      RunKeysKept(maxRetry, b, steps, c, r - 1);
      RunPlaced(maxRetry, b, steps, c, r - 1);
      RunKeysGrow(maxRetry, b, steps, r);
    }
  }

  /** Copy at state c, rotation at state r: the copy still stands at the rotation if and only if
      in between no event but ENQUEUE was logged and no job was added, and at the copy no
      dispatcher held a job it had logged already. */
  lemma CopyStandsIff(maxRetry: int, b: seq<System>, steps: seq<Step>, c: nat, r: nat)
    requires Run(maxRetry, b, steps) && OrderlyRun(b, steps) && c <= r < |b| && Sound(b[c])
    ensures |b[c].wal| <= |b[r].wal|
    ensures CopyStands(b[c], b[r])
        <==> NoneLogged(b[c]) && b[r].table.jobs.Keys == b[c].table.jobs.Keys && OnlyEnqueues(b[r].wal[|b[c].wal|..])
  {
    LogGrowsOverRun(maxRetry, b, steps, c, r);
    var es := b[r].wal[|b[c].wal|..];
    assert b[r].wal == b[c].wal + es;
    if CopyStands(b[c], b[r]) {
      forall id | id in b[c].table.jobs ensures !LoggedInHand(b[c], id) && Foreign(es, id) {
        StandingJob(maxRetry, b, steps, c, r, es, id);
      }
      StandingEvents(maxRetry, b, steps, c, r, es);
      forall id | id !in b[c].table.jobs ensures !LoggedInHand(b[c], id) {
        OnlyPendingInHands(b[c], id);
      }
    } else if NoneLogged(b[c]) && b[r].table.jobs.Keys == b[c].table.jobs.Keys && OnlyEnqueues(es) {
      QuietStretch(maxRetry, b, steps, c, r, es);
    }
  }

  lemma StandingJob(maxRetry: int, b: seq<System>, steps: seq<Step>, c: nat, r: nat, es: seq<Event>, id: JobId)
    requires Run(maxRetry, b, steps) && OrderlyRun(b, steps) && c <= r < |b| && Sound(b[c])
    requires CopyStands(b[c], b[r]) && b[r].wal == b[c].wal + es && id in b[c].table.jobs
    ensures !LoggedInHand(b[c], id) && Foreign(es, id)
  {
    var es' := StretchProgress(maxRetry, b, steps, c, r, id);
    EventsAppended(b[c].wal, es, es');
    assert !LoggedInHand(b[r], id);
    if LoggedInHand(b[c], id) {
      var e, i :| 0 <= e < |b[c].hands| && 0 <= i < b[c].hands[e].logged && i < |b[c].hands[e].batch| && b[c].hands[e].batch[i] == id;
      HeldIsPending(b[c], e, i);
    }
  }

  lemma StandingEvents(maxRetry: int, b: seq<System>, steps: seq<Step>, c: nat, r: nat, es: seq<Event>)
    requires Run(maxRetry, b, steps) && OrderlyRun(b, steps) && c <= r < |b| && Sound(b[c])
    requires b[r].wal == b[c].wal + es && b[r].table.jobs.Keys == b[c].table.jobs.Keys
    requires forall id :: id in b[c].table.jobs ==> Foreign(es, id)
    ensures OnlyEnqueues(es)
  {
    var b' := SinceIsRun(maxRetry, b, steps, c);
    RunNames(maxRetry, b', steps[c..], r - c);
    assert b'[r - c].wal == es;
    forall i | 0 <= i < |es| ensures es[i].kind == EnqueueEvent {
      if es[i].id in b[c].table.jobs { assert Foreign(es, es[i].id); }
    }
  }

  /** If the copy stands, recovery from it after the rotation is recovery from the table at the
      rotation: the log replays exactly when it is about the copied jobs, and every one of them
      then has the status the log implies. */
  lemma StandingCopyRecovers(maxRetry: int, b: seq<System>, steps: seq<Step>, c: nat, r: nat, i: nat, id: JobId,
                             order: seq<JobId>, clock: nat -> int, requeued: seq<JobId>)
    requires Run(maxRetry, b, steps) && OrderlyRun(b, steps) && c <= r <= i < |b| && Sound(b[c]) && CopyStands(b[c], b[r])
    requires id in b[c].table.jobs
    ensures |b[r].wal| <= |b[i].wal| && id in b[i].table.jobs
    ensures var (t, outcome) := Replay(Restored(b[c].table.jobs, order), b[i].wal[|b[r].wal|..], clock);
            && (outcome == Ok <==> OnlyKnownJobs(b[i].wal[|b[r].wal|..], b[c].table.jobs))
            && (outcome == Ok && Enumerates(requeued, t.inFlight) ==>
                  Has(RequeueAll(t, requeued), id, RecoveredStatus(Tail(b[i], |b[r].wal|), id)))
  {
    RunPlaced(maxRetry, b, steps, c, r);
    var b' := SinceIsRun(maxRetry, b, steps, r);
    forall k ensures !LoggedInHand(b'[0], k) {
      SameHands(b[r], b'[0], k);
    }
    CleanReplaySucceedsIff(maxRetry, b', steps[r..], i - r, order, clock);
    RunFollows(maxRetry, b', steps[r..], i - r, id, clock);
    var (t, outcome) := Replay(Restored(b[c].table.jobs, order), b'[i - r].wal, clock);
    if outcome == Ok && Enumerates(requeued, t.inFlight) {
      ReplaySucceedsIff(maxRetry, b', steps[r..], i - r, order, clock);
      ReplayFidelity(maxRetry, b', steps[r..], i - r, id, order, clock, requeued);
    }
  }

  // ---- What is lost otherwise ----

  function Settling(wal: seq<Event>): System {
    World(Life(Completed, 0), [], IDLE, {J}, wal + [Event(AckEvent, J)])
  }

  /** A success logged between the copy and the rotation: the job is completed, but recovery
      from the copy, with the log the rotation left empty, has it waiting again. */
  lemma SuccessInBetweenIsLost(wal: seq<Event>, clock: nat -> int)
    ensures Leads(Flying(0, wal), [Outcome(J, true, true)], Settling(wal)) && Has(Settling(wal).table, J, Completed)
    ensures Tail(Settling(wal), |Settling(wal).wal|).wal == []
    ensures var (t, outcome) := Replay(Restored(Flying(0, wal).table.jobs, []), [], clock);
            outcome == Ok && Enumerates([J], t.inFlight) && Has(RequeueAll(t, [J]), J, Pending)
  {
    OneStep(Flying(0, wal), Outcome(J, true, true));
    assert Next(MAX_RETRY, Flying(0, wal), Outcome(J, true, true)) == Settling(wal);
    var t := Restored(Flying(0, wal).table.jobs, []);
    assert WithStatus(t.jobs, InFlight) == {J};
    assert [J][..0] == [];
    assert RequeueAll(t, []) == t;
  }

  /** A dispatch logged before copy and rotation, its job marked and finished after: the success
      is all the fresh log holds, and replay refuses it. */
  lemma DispatchBeforeIsMissed(clock: nat -> int)
    ensures Leads(Waiting(0, []), [Pop(0)] + [LogDispatch(0, true)], Taken(0, 1, [Event(DispatchEvent, J)]))
    ensures Tail(Taken(0, 1, [Event(DispatchEvent, J)]), 1) == Taken(0, 1, []) && LoggedInHand(Taken(0, 1, []), J)
    ensures Leads(Taken(0, 1, []), [Mark(0, 0)] + [Outcome(J, true, true)], Settling([]))
    ensures Replay(Restored(Taken(0, 1, []).table.jobs, [J]), Settling([]).wal, clock).1 == Err(NotInFlight)
  {
    TakenAndLogged(0, []);
    assert [] + [Event(DispatchEvent, J)] == [Event(DispatchEvent, J)];
    HandHasLogged();
    MarkedAndDone();
    AckAloneIsRefused(clock);
  }

  lemma HandHasLogged()
    ensures Tail(Taken(0, 1, [Event(DispatchEvent, J)]), 1) == Taken(0, 1, []) && LoggedInHand(Taken(0, 1, []), J)
  {
    assert Taken(0, 1, []).hands[0].batch[0] == J;
  }

  lemma AckAloneIsRefused(clock: nat -> int)
    ensures Replay(Restored(Taken(0, 1, []).table.jobs, [J]), Settling([]).wal, clock).1 == Err(NotInFlight)
  {
    var es := Settling([]).wal;
    assert es == [Event(AckEvent, J)] && es[..0] == [];
  }

  lemma MarkedAndDone()
    ensures Leads(Taken(0, 1, []), [Mark(0, 0)] + [Outcome(J, true, true)], Settling([]))
  {
    Marked(0, []);
    OneStep(Flying(0, []), Outcome(J, true, true));
    assert Next(MAX_RETRY, Flying(0, []), Outcome(J, true, true)) == Settling([]);
    Then(Taken(0, 1, []), [Mark(0, 0)], Flying(0, []), [Outcome(J, true, true)], Settling([]));
  }
}
