/** Where a job comes from: through every section of the controller, through snapshots of either
    kind and through recovery, a record carries what the request that added its ID asked for. */
module Provenance {
  import opened Jobs
  import opened ControllerSteps
  import opened SlotSteps
  import opened JobSystem
  import opened Conservation

  /** The first job of the list with the ID. */
  function FirstNamed(jobs: seq<Job>, id: JobId): (r: Job)
    requires Names(jobs, id)
    ensures exists i :: 0 <= i < |jobs| && jobs[i] == r && r.id == id && forall k :: 0 <= k < i ==> jobs[k].id != id
    decreases |jobs|
  {
    var init := jobs[..|jobs| - 1];
    if Names(init, id) then
      var r := FirstNamed(init, id);
      var i :| 0 <= i < |init| && init[i] == r && forall k :: 0 <= k < i ==> init[k].id != id;
      assert jobs[i] == r && forall k :: 0 <= k < i ==> jobs[k] == init[k];
      r
    else
      assert forall k :: 0 <= k < |init| ==> jobs[k] == init[k];
      jobs[|jobs| - 1]
  }

  // ---- Requests that add jobs ----

  /** Whatever is new in t' is as its first request gave it, waiting in the queue. */
  ghost predicate NewAsAsked(t: Table, t': Table, jobs: seq<Job>) {
    forall id :: id in t'.jobs && id !in t.jobs ==> AsAsked(t', jobs, id)
  }

  ghost predicate AsAsked(t: Table, jobs: seq<Job>, id: JobId)
    requires id in t.jobs
  {
    Names(jobs, id) && t.jobs[id] == FirstNamed(jobs, id).(status := Pending) && id in t.queue
  }

  lemma NamesSnoc(init: seq<Job>, last: Job, id: JobId)
    ensures Names(init + [last], id) <==> Names(init, id) || last.id == id
    ensures Names(init, id) ==> FirstNamed(init + [last], id) == FirstNamed(init, id)
    ensures last.id == id && !Names(init, id) ==> FirstNamed(init + [last], id) == last
  {
    var jobs := init + [last];
    assert jobs[..|jobs| - 1] == init;
    if Names(init, id) {
      var i :| 0 <= i < |init| && init[i].id == id;
      assert jobs[i].id == id;
    }
    if last.id == id { assert jobs[|init|].id == id; }
    if Names(jobs, id) && last.id != id {
      var i :| 0 <= i < |jobs| && jobs[i].id == id;
      assert init[i].id == id;
    }
  }

  /** One more request over a list already taken in. */
  lemma OneMoreAsked(t: Table, t1: Table, init: seq<Job>, last: Job)
    requires NewAsAsked(t, t1, init) && forall id :: id in t1.jobs ==> id in t.jobs || Names(init, id)
    requires last.id !in t1.jobs ==> !Names(init, last.id)
    ensures NewAsAsked(t, Enqueue(t1, last).0, init + [last])
  {
    var t2 := Enqueue(t1, last).0;
    forall id | id in t2.jobs && id !in t.jobs ensures AsAsked(t2, init + [last], id) {
      NamesSnoc(init, last, id);
      if id in t1.jobs {
        assert AsAsked(t1, init, id);
      }
    }
  }

  lemma {:induction false} ApplyEnqueueAsked(t: Table, jobs: seq<Job>)
    ensures NewAsAsked(t, ApplyEnqueue(t, jobs), jobs)
    ensures forall id :: Names(jobs, id) ==> id in ApplyEnqueue(t, jobs).jobs
    decreases |jobs|
  {
    if jobs != [] {
      var init, last := jobs[..|jobs| - 1], jobs[|jobs| - 1];
      assert jobs == init + [last];
      ApplyEnqueueAsked(t, init);
      OneMoreAsked(t, ApplyEnqueue(t, init), init, last);
      forall id | Names(jobs, id) ensures id in ApplyEnqueue(t, jobs).jobs {
        NamesSnoc(init, last, id);
      }
    }
  }

  lemma {:induction false} AddJobsAsked(t: Table, jobs: seq<Job>)
    ensures NewAsAsked(t, AddJobs(t, jobs).0, jobs)
    ensures AddJobs(t, jobs).1.Ok? ==> forall id :: Names(jobs, id) ==> id in AddJobs(t, jobs).0.jobs
    decreases |jobs|
  {
    if jobs != [] {
      var init, last := jobs[..|jobs| - 1], jobs[|jobs| - 1];
      assert jobs == init + [last];
      AddJobsAsked(t, init);
      var (t1, r1) := AddJobs(t, init);
      if r1.Ok? {
        OneMoreAsked(t, t1, init, last);
      }
      forall id | id in AddJobs(t, jobs).0.jobs && id !in t.jobs ensures AsAsked(AddJobs(t, jobs).0, jobs, id) {
        NamesSnoc(init, last, id);
        if r1.Err? { assert AsAsked(t1, init, id); }
      }
      forall id | AddJobs(t, jobs).1.Ok? && Names(jobs, id) ensures id in AddJobs(t, jobs).0.jobs {
        NamesSnoc(init, last, id);
      }
    }
  }

  // ---- Everything else ----

  predicate SameRequest(a: Job, b: Job) {
    a.id == b.id && a.payload == b.payload && a.timeout == b.timeout
  }

  /** Every job of t is still there, with the request it had. */
  ghost predicate KeepsRequests(t: Table, t': Table) {
    forall id :: id in t.jobs ==> id in t'.jobs && SameRequest(t'.jobs[id], t.jobs[id])
  }

  ghost predicate AddsNothing(t: Table, t': Table) {
    KeepsRequests(t, t') && t'.jobs.Keys == t.jobs.Keys
  }

  lemma {:induction false} AddJobsKeepRequests(t: Table, jobs: seq<Job>)
    ensures KeepsRequests(t, AddJobs(t, jobs).0)
    decreases |jobs|
  {
    if jobs != [] { AddJobsKeepRequests(t, jobs[..|jobs| - 1]); }
  }

  lemma {:induction false} ApplyEnqueueKeepsRequests(t: Table, jobs: seq<Job>)
    ensures KeepsRequests(t, ApplyEnqueue(t, jobs))
    decreases |jobs|
  {
    if jobs != [] { ApplyEnqueueKeepsRequests(t, jobs[..|jobs| - 1]); }
  }

  lemma MoveAddsNothing(t: Table, id: JobId, deadline: int)
    ensures AddsNothing(t, MarkInFlight(t, id, deadline).0) && AddsNothing(t, MarkCompleted(t, id).0)
    ensures AddsNothing(t, Requeue(t, id).0) && AddsNothing(t, MarkDead(t, id).0)
    ensures id in t.jobs ==> AddsNothing(t, CountAttempt(t, id))
  {}

  lemma AddsNothingTrans(t: Table, t1: Table, t2: Table)
    requires AddsNothing(t, t1) && AddsNothing(t1, t2)
    ensures AddsNothing(t, t2)
  {}

  lemma {:induction false} MarkAllAddsNothing(t: Table, ids: seq<JobId>, deadline: int)
    ensures AddsNothing(t, MarkAll(t, ids, deadline))
    decreases |ids|
  {
    if ids != [] {
      MarkAllAddsNothing(t, ids[..|ids| - 1], deadline);
      MoveAddsNothing(MarkAll(t, ids[..|ids| - 1], deadline), ids[|ids| - 1], deadline);
    }
  }

  lemma CountThenSettle(t: Table, id: JobId)
    requires id in t.jobs
    ensures var t1 := CountAttempt(t, id);
            AddsNothing(t, t1) && AddsNothing(t, MarkDead(t1, id).0) && AddsNothing(t, Requeue(t1, id).0)
  {
    var t1 := CountAttempt(t, id);
    MoveAddsNothing(t, id, 0);
    MoveAddsNothing(t1, id, 0);
    AddsNothingTrans(t, t1, MarkDead(t1, id).0);
    AddsNothingTrans(t, t1, Requeue(t1, id).0);
  }

  lemma TimeOutAddsNothing(t: Table, id: JobId, ok: bool, maxRetry: int)
    ensures AddsNothing(t, TimeOut(t, id, ok, maxRetry).0)
  {
    if id in t.jobs { CountThenSettle(t, id); }
  }

  lemma ResultAddsNothing(t: Table, id: JobId, success: bool, ok: bool, maxRetry: int)
    ensures AddsNothing(t, HandleResult(t, id, success, ok, maxRetry).0)
  {
    MoveAddsNothing(t, id, 0);
    if id in t.jobs { CountThenSettle(t, id); }
  }

  lemma {:induction false} SweepAddsNothing(t: Table, ids: seq<JobId>, failed: set<JobId>, maxRetry: int)
    ensures AddsNothing(t, Sweep(t, ids, failed, maxRetry).0)
    decreases |ids|
  {
    if ids != [] {
      var last := ids[|ids| - 1];
      SweepAddsNothing(t, ids[..|ids| - 1], failed, maxRetry);
      TimeOutAddsNothing(Sweep(t, ids[..|ids| - 1], failed, maxRetry).0, last, last !in failed, maxRetry);
    }
  }

  lemma EventAddsNothing(t: Table, e: Event, deadline: int)
    ensures AddsNothing(t, ReplayEvent(t, e, deadline).0)
  {
    MoveAddsNothing(t, e.id, deadline);
  }

  lemma {:induction false} ReplayAddsNothing(t: Table, es: seq<Event>, clock: nat -> int)
    ensures AddsNothing(t, Replay(t, es, clock).0)
    decreases |es|
  {
    if es != [] {
      var t1 := Replay(t, es[..|es| - 1], clock).0;
      ReplayAddsNothing(t, es[..|es| - 1], clock);
      EventAddsNothing(t1, es[|es| - 1], clock(|es| - 1));
      AddsNothingTrans(t, t1, ReplayEvent(t1, es[|es| - 1], clock(|es| - 1)).0);
    }
  }

  lemma {:induction false} RequeueAllAddsNothing(t: Table, ids: seq<JobId>)
    ensures AddsNothing(t, RequeueAll(t, ids))
    decreases |ids|
  {
    if ids != [] {
      RequeueAllAddsNothing(t, ids[..|ids| - 1]);
      MoveAddsNothing(RequeueAll(t, ids[..|ids| - 1]), ids[|ids| - 1], 0);
    }
  }

  // ---- One section ----

  /** The jobs a section is given to add. */
  function Asked(step: Step): seq<Job> {
    match step
    case AddNew(jobs) => jobs
    case Apply(c) => if c.EnqueueCommand? then c.jobs else []
    case _ => []
  }

  /** Known jobs keep their request, and what is new is as its first request in this step. */
  ghost predicate Takes(t: Table, t': Table, jobs: seq<Job>) {
    KeepsRequests(t, t') && NewAsAsked(t, t', jobs)
  }

  lemma StepTakes(maxRetry: int, s: System, step: Step)
    requires Enabled(s, step)
    ensures Takes(s.table, Next(maxRetry, s, step).table, Asked(step))
  {
    match step
    case LogEnqueue(_) =>
    case AddNew(jobs) => AddJobsKeepRequests(s.table, jobs); AddJobsAsked(s.table, jobs);
    case Pop(_) => PopBatchMoves(s.table, BATCH_SIZE);
    case LogDispatch(_, _) =>
    case Mark(d, deadline) => MarkAllAddsNothing(s.table, s.hands[d].batch, deadline);
    case Outcome(id, success, ok) => ResultAddsNothing(s.table, id, success, ok, maxRetry);
    case SweepExpired(_, order, failed) => SweepAddsNothing(s.table, order, failed, maxRetry);
    case Apply(c) => ApplyTakes(s.table, c);
    case PollJobs(n, deadline, _) =>
      PopBatchMoves(s.table, n);
      MarkAllAddsNothing(PopBatch(s.table, n).0, PopBatch(s.table, n).1, deadline);
  }

  lemma ApplyTakes(t: Table, c: Command)
    ensures Takes(t, ApplyCommand(t, c), Asked(Apply(c)))
  {
    match c
    case EnqueueCommand(jobs) => ApplyEnqueueKeepsRequests(t, jobs); ApplyEnqueueAsked(t, jobs);
    case AckCommand(id, _) => MoveAddsNothing(t, id, 0);
  }

  // ---- A server that is snapshot and restarted ----

  /** The running system, its snapshot, and for each of their jobs the request that added it; no
      act reads the requests. */
  datatype Server = Server(sys: System, snap: map<JobId, Job>, asked: map<JobId, Job>, askedOfSnap: map<JobId, Job>)

  datatype Act =
    | Work(step: Step)
    | Save(full: bool)
    | Restart(order: seq<JobId>, log: seq<Event>, clock: nat -> int, requeued: seq<JobId>)

  /** A restart reads some log, in full, and requeues what that leaves in flight. */
  ghost predicate CanAct(v: Server, act: Act) {
    match act
    case Work(step) => Enabled(v.sys, step)
    case Save(_) => true
    case Restart(order, log, clock, requeued) =>
      && Enumerates(order, WithStatus(v.snap, Pending))
      && Replay(Restored(v.snap, order), log, clock).1.Ok?
      && Enumerates(requeued, Replay(Restored(v.snap, order), log, clock).0.inFlight)
  }

  ghost function Acted(maxRetry: int, v: Server, act: Act): Server
    requires CanAct(v, act)
  {
    match act
    case Work(step) =>
      var s' := Next(maxRetry, v.sys, step);
      var added := map id | id in s'.table.jobs && id !in v.sys.table.jobs && Names(Asked(step), id) :: FirstNamed(Asked(step), id);
      v.(sys := s', asked := v.asked + added)
    case Save(full) =>
      var saved := if full then v.sys.table.jobs else Active(v.sys.table.jobs);
      v.(snap := saved, askedOfSnap := map id | id in v.asked && id in saved :: v.asked[id])
    case Restart(order, log, clock, requeued) =>
      v.(sys := System(RequeueAll(Replay(Restored(v.snap, order), log, clock).0, requeued),
                       seq(|v.sys.hands|, _ => IDLE), log),
         asked := v.askedOfSnap)
  }

  /** A history from an empty server with any number of dispatchers. */
  ghost predicate ServerRun(maxRetry: int, b: seq<Server>, acts: seq<Act>) {
    && |b| == |acts| + 1
    && b[0].sys.table == EMPTY && b[0].snap == map[] && b[0].asked == map[] && b[0].askedOfSnap == map[]
    && forall i :: 0 <= i < |acts| ==> CanAct(b[i], acts[i]) && b[i + 1] == Acted(maxRetry, b[i], acts[i])
  }

  /** Exactly the jobs there are have a request, and theirs. */
  ghost predicate AsRequested(jobs: map<JobId, Job>, asked: map<JobId, Job>) {
    && asked.Keys == jobs.Keys
    && forall id :: id in jobs ==> SameRequest(jobs[id], asked[id]) && asked[id].id == id
  }

  ghost predicate RequestsKept(v: Server) {
    AsRequested(v.sys.table.jobs, v.asked) && AsRequested(v.snap, v.askedOfSnap)
  }

  lemma WorkKeepsRequests(maxRetry: int, v: Server, step: Step)
    requires CanAct(v, Work(step)) && RequestsKept(v)
    ensures RequestsKept(Acted(maxRetry, v, Work(step)))
  {
    var v' := Acted(maxRetry, v, Work(step));
    StepTakes(maxRetry, v.sys, step);
    forall id | id in v'.sys.table.jobs
      ensures id in v'.asked && SameRequest(v'.sys.table.jobs[id], v'.asked[id]) && v'.asked[id].id == id
    {
      if id !in v.sys.table.jobs { assert AsAsked(v'.sys.table, Asked(step), id); }
    }
    assert v'.asked.Keys == v'.sys.table.jobs.Keys;
  }

  lemma SaveKeepsRequests(maxRetry: int, v: Server, full: bool)
    requires RequestsKept(v)
    ensures RequestsKept(Acted(maxRetry, v, Save(full)))
  {
    assert Acted(maxRetry, v, Save(full)).askedOfSnap.Keys == Acted(maxRetry, v, Save(full)).snap.Keys;
  }

  lemma RestartKeepsRequests(maxRetry: int, v: Server, act: Act)
    requires act.Restart? && CanAct(v, act) && RequestsKept(v)
    ensures RequestsKept(Acted(maxRetry, v, act))
  {
    var t := Restored(v.snap, act.order);
    ReplayAddsNothing(t, act.log, act.clock);
    RequeueAllAddsNothing(Replay(t, act.log, act.clock).0, act.requeued);
  }

  lemma {:induction false} RunKeepsRequests(maxRetry: int, b: seq<Server>, acts: seq<Act>, j: nat)
    requires ServerRun(maxRetry, b, acts) && j < |b|
    ensures RequestsKept(b[j])
  {
    if j > 0 {
      RunKeepsRequests(maxRetry, b, acts, j - 1);
      match acts[j - 1]
      case Work(step) => WorkKeepsRequests(maxRetry, b[j - 1], step);
      case Save(full) => SaveKeepsRequests(maxRetry, b[j - 1], full);
      case Restart(_, _, _, _) => RestartKeepsRequests(maxRetry, b[j - 1], acts[j - 1]);
    }
  }

  /** Act k put the ID in the table, where it was not, for this request. */
  ghost predicate AddedBy(b: seq<Server>, acts: seq<Act>, k: int, id: JobId, request: Job) {
    && 0 <= k < |acts| && k + 1 < |b| && acts[k].Work?
    && id !in b[k].sys.table.jobs && id in b[k + 1].sys.table.jobs
    && Names(Asked(acts[k].step), id) && FirstNamed(Asked(acts[k].step), id) == request
  }

  ghost predicate Added(b: seq<Server>, acts: seq<Act>, j: nat, id: JobId, request: Job) {
    exists k :: k < j && AddedBy(b, acts, k, id, request)
  }

  lemma {:induction false} AskedWasAdded(maxRetry: int, b: seq<Server>, acts: seq<Act>, j: nat, id: JobId)
    requires ServerRun(maxRetry, b, acts) && j < |b|
    ensures id in b[j].asked ==> Added(b, acts, j, id, b[j].asked[id])
    ensures id in b[j].askedOfSnap ==> Added(b, acts, j, id, b[j].askedOfSnap[id])
  {
    if j > 0 {
      AskedWasAdded(maxRetry, b, acts, j - 1, id);
      AddedStays(b, acts, j - 1, id);
      RunKeepsRequests(maxRetry, b, acts, j - 1);
      AskedMoves(maxRetry, b[j - 1], acts[j - 1], id);
      if NewlyAsked(b[j - 1], acts[j - 1], b[j], id) {
        assert AddedBy(b, acts, j - 1, id, b[j].asked[id]);
      }
    }
  }

  ghost predicate NewlyAsked(v: Server, act: Act, v': Server, id: JobId) {
    && act.Work? && id !in v.sys.table.jobs && id in v'.sys.table.jobs && id in v'.asked
    && Names(Asked(act.step), id) && v'.asked[id] == FirstNamed(Asked(act.step), id)
  }

  /** A request is new, or it was there, or it was saved. */
  lemma AskedMoves(maxRetry: int, v: Server, act: Act, id: JobId)
    requires CanAct(v, act) && v.asked.Keys == v.sys.table.jobs.Keys
    ensures var v' := Acted(maxRetry, v, act);
            && (id in v'.asked ==>
                  || NewlyAsked(v, act, v', id)
                  || (id in v.asked && v'.asked[id] == v.asked[id])
                  || (id in v.askedOfSnap && v'.asked[id] == v.askedOfSnap[id]))
            && (id in v'.askedOfSnap ==>
                  || (id in v.asked && v'.askedOfSnap[id] == v.asked[id])
                  || (id in v.askedOfSnap && v'.askedOfSnap[id] == v.askedOfSnap[id]))
  {}

  lemma AddedStays(b: seq<Server>, acts: seq<Act>, j: nat, id: JobId)
    ensures forall request :: Added(b, acts, j, id, request) ==> Added(b, acts, j + 1, id, request)
  {
    forall request | Added(b, acts, j, id, request) ensures Added(b, acts, j + 1, id, request) {
      var k :| k < j && AddedBy(b, acts, k, id, request);
    }
  }

  /** At every moment of every history, through any work, snapshots of either kind and restarts
      over any log: each job of the table has the ID, payload and timeout of the request that
      first added it. */
  lemma JobsAreAsRequested(maxRetry: int, b: seq<Server>, acts: seq<Act>, j: nat, id: JobId) returns (request: Job)
    requires ServerRun(maxRetry, b, acts) && j < |b| && id in b[j].sys.table.jobs
    ensures b[j].sys.table.jobs[id].id == id == request.id
    ensures b[j].sys.table.jobs[id].payload == request.payload
    ensures b[j].sys.table.jobs[id].timeout == request.timeout
    ensures Added(b, acts, j, id, request)
  {
    RunKeepsRequests(maxRetry, b, acts, j);
    AskedWasAdded(maxRetry, b, acts, j, id);
    request := b[j].asked[id];
  }

  /** A job starts as its request gives it, attempts included, waiting in the queue; a request
      for a known ID leaves the job with the request it has. */
  lemma RequestStartsJob(maxRetry: int, s: System, step: Step, id: JobId)
    requires Enabled(s, step) && id in Next(maxRetry, s, step).table.jobs
    ensures var s' := Next(maxRetry, s, step);
            if id in s.table.jobs then SameRequest(s'.table.jobs[id], s.table.jobs[id])
            else
              && Names(Asked(step), id) && id in s'.table.queue
              && s'.table.jobs[id] == FirstNamed(Asked(step), id).(status := Pending)
  {
    StepTakes(maxRetry, s, step);
    if id !in s.table.jobs { assert AsAsked(Next(maxRetry, s, step).table, Asked(step), id); }
  }
}
