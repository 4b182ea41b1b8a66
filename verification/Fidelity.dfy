/** One step and one job: how the controller's sections keep the tracking of a job in an orderly
    run. */
module Fidelity {
  import opened Jobs
  import opened ControllerSteps
  import opened SlotSteps
  import opened JobSystem
  import opened Conservation
  import opened ReplayByJob
  import opened Tracking

  ghost predicate Placed(s: System) {
    Once(s.table, Held(s.hands)) && forall d :: 0 <= d < |s.hands| ==> s.hands[d].logged <= |s.hands[d].batch|
  }

  // ---- Events of other jobs ----

  ghost predicate Foreign(es: seq<Event>, id: JobId) {
    forall i :: 0 <= i < |es| ==> es[i].id != id || es[i].kind == EnqueueEvent
  }

  lemma {:induction false} ForeignEvents(slot: Slot, wal: seq<Event>, es: seq<Event>, id: JobId, clock: nat -> int)
    requires Foreign(es, id)
    ensures SlotRun(slot, wal + es, id, clock) == SlotRun(slot, wal, id, clock)
    ensures Failures(wal + es, id) == Failures(wal, id) && Requeues(wal + es, id) == Requeues(wal, id)
    ensures LastIsTimeout(wal + es, id) == LastIsTimeout(wal, id) && FirstKind(wal + es, id) == FirstKind(wal, id)
    decreases |es|
  {
    if es == [] {
      assert wal + es == wal;
    } else {
      var init := es[..|es| - 1];
      assert (wal + es)[..|wal + es| - 1] == wal + init;
      assert forall i :: 0 <= i < |init| ==> init[i] == es[i];
      ForeignEvents(slot, wal, init, id, clock);
    }
  }

  /** Nothing about the job changed: not its slot, not its events, not its place in the hands. */
  lemma FollowsFrame(maxRetry: int, s: System, s': System, es: seq<Event>, id: JobId, job: Job, clock: nat -> int, cut: bool)
    requires Follows(maxRetry, s, id, job, clock, cut)
    requires id in s'.table.jobs && s'.table.jobs[id] == s.table.jobs[id]
    requires s'.wal == s.wal + es && Foreign(es, id) && LoggedInHand(s', id) == LoggedInHand(s, id)
    ensures Follows(maxRetry, s', id, job, clock, cut)
  {
    ForeignEvents(InitialSlot(job), s.wal, es, id, clock);
  }

  // ---- Hands ----

  lemma SameHands(s: System, s': System, id: JobId)
    requires s'.hands == s.hands
    ensures LoggedInHand(s', id) == LoggedInHand(s, id)
  {}

  lemma CountTwo(s: seq<JobId>, x: nat, y: nat)
    requires x < y < |s| && s[x] == s[y]
    ensures multiset(s)[s[x]] >= 2
  {
    assert s == s[..y] + s[y..];
    assert s[x] == s[..y][x] && s[y] == s[y..][0];
  }

  /** A job in two different places of the hands is held twice. */
  lemma TwoPlaces(hands: seq<Hand>, d: nat, x: nat, e: nat, y: nat)
    requires d < |hands| && x < |hands[d].batch| && e < |hands| && y < |hands[e].batch|
    requires hands[d].batch[x] == hands[e].batch[y] && (d != e || x != y)
    ensures Held(hands)[hands[d].batch[x]] >= 2
  {
    var id := hands[d].batch[x];
    if d == e {
      CountTwo(hands[d].batch, if x < y then x else y, if x < y then y else x);
      HeldContains(hands, d, id);
    } else {
      HeldUpdate(hands, d, IDLE);
      HeldContains(hands[d := IDLE], e, id);
      assert multiset(hands[d].batch)[id] >= 1 && multiset(hands[e].batch)[id] >= 1;
      assert (Held(hands[d := IDLE]) + multiset(hands[d].batch))[id] == Held(hands)[id];
    }
  }

  /** A job whose turn it is to be logged is pending and has not been logged yet. */
  lemma NextIsFresh(s: System, d: nat)
    requires Placed(s) && d < |s.hands| && s.hands[d].logged < |s.hands[d].batch|
    ensures var id := s.hands[d].batch[s.hands[d].logged]; Has(s.table, id, Pending) && !LoggedInHand(s, id)
  {
    var h := s.hands[d];
    var id := h.batch[h.logged];
    HeldIsPending(s, d, h.logged);
    assert (multiset(s.table.queue) + Held(s.hands))[id] == if Has(s.table, id, Pending) then 1 else 0;
    if LoggedInHand(s, id) {
      var e, i :| 0 <= e < |s.hands| && 0 <= i < s.hands[e].logged && i < |s.hands[e].batch| && s.hands[e].batch[i] == id;
      TwoPlaces(s.hands, d, h.logged, e, i);
    }
  }

  lemma HeldIsPending(s: System, d: nat, i: nat)
    requires Placed(s) && d < |s.hands| && i < |s.hands[d].batch|
    ensures Has(s.table, s.hands[d].batch[i], Pending)
  {
    var id := s.hands[d].batch[i];
    HeldContains(s.hands, d, id);
    assert id in multiset(s.hands[d].batch);
    assert (multiset(s.table.queue) + Held(s.hands))[id] == if Has(s.table, id, Pending) then 1 else 0;
  }

  /** A job in flight, or otherwise not pending, is in nobody's hands. */
  lemma OnlyPendingInHands(s: System, id: JobId)
    requires Placed(s) && !Has(s.table, id, Pending)
    ensures !LoggedInHand(s, id)
  {
    if LoggedInHand(s, id) {
      var e, i :| 0 <= e < |s.hands| && 0 <= i < s.hands[e].logged && i < |s.hands[e].batch| && s.hands[e].batch[i] == id;
      HeldIsPending(s, e, i);
    }
  }

  // ---- One step, one job ----

  lemma LogDispatchFollows(maxRetry: int, s: System, d: nat, id: JobId, job: Job, clock: nat -> int, cut: bool)
    requires d < |s.hands| && s.hands[d].logged < |s.hands[d].batch|
    requires Placed(s) && Follows(maxRetry, s, id, job, clock, cut)
    ensures Follows(maxRetry, LogDispatchNext(s, d, true), id, job, clock, cut)
  {
    var s', h := LogDispatchNext(s, d, true), s.hands[d];
    var k := h.batch[h.logged];
    NextIsFresh(s, d);
    if k == id {
      assert s'.wal[..|s'.wal| - 1] == s.wal;
      assert s'.hands[d].batch[h.logged] == id;
      assert LoggedInHand(s', id);
    } else {
      OthersStillLogged(s, s', d, id);
      FollowsFrame(maxRetry, s, s', [Event(DispatchEvent, k)], id, job, clock, cut);
    }
  }

  lemma OthersStillLogged(s: System, s': System, d: nat, id: JobId)
    requires d < |s.hands| && s.hands[d].logged < |s.hands[d].batch| && s.hands[d].batch[s.hands[d].logged] != id
    requires s'.hands == s.hands[d := s.hands[d].(logged := s.hands[d].logged + 1)]
    ensures LoggedInHand(s', id) == LoggedInHand(s, id)
  {
    if LoggedInHand(s, id) {
      var e, i :| 0 <= e < |s.hands| && 0 <= i < s.hands[e].logged && i < |s.hands[e].batch| && s.hands[e].batch[i] == id;
      assert s'.hands[e].batch[i] == id && i < s'.hands[e].logged;
    }
    if LoggedInHand(s', id) {
      var e, i :| 0 <= e < |s'.hands| && 0 <= i < s'.hands[e].logged && i < |s'.hands[e].batch| && s'.hands[e].batch[i] == id;
      assert s.hands[e].batch[i] == id && i < s.hands[e].logged;
    }
  }

  /** Taking a batch, or putting it down, changes no other job's place. */
  lemma HandChanges(s: System, s': System, d: nat, id: JobId)
    requires d < |s.hands| && |s'.hands| == |s.hands| && s'.hands == s.hands[d := s'.hands[d]]
    requires s.hands[d].logged <= |s.hands[d].batch|
    requires (id !in s.hands[d].batch || s.hands[d].logged == 0) && (id !in s'.hands[d].batch || s'.hands[d].logged == 0)
    ensures LoggedInHand(s', id) == LoggedInHand(s, id)
  {
    if LoggedInHand(s, id) {
      var e, i :| 0 <= e < |s.hands| && 0 <= i < s.hands[e].logged && i < |s.hands[e].batch| && s.hands[e].batch[i] == id;
      assert e != d && s'.hands[e].batch[i] == id && i < s'.hands[e].logged;
    }
    if LoggedInHand(s', id) {
      var e, i :| 0 <= e < |s'.hands| && 0 <= i < s'.hands[e].logged && i < |s'.hands[e].batch| && s'.hands[e].batch[i] == id;
      assert e != d && s.hands[e].batch[i] == id && i < s.hands[e].logged;
    }
  }

  /** A pop of any size by an idle dispatcher. */
  function PopSized(s: System, d: nat, n: int): System
    requires d < |s.hands|
  {
    var (t, ids) := PopBatch(s.table, n);
    s.(table := t, hands := s.hands[d := Hand(ids, 0)])
  }

  lemma PopFollows(maxRetry: int, s: System, d: nat, n: int, id: JobId, job: Job, clock: nat -> int, cut: bool)
    requires d < |s.hands| && s.hands[d].batch == [] && Placed(s) && Follows(maxRetry, s, id, job, clock, cut)
    ensures Follows(maxRetry, PopSized(s, d, n), id, job, clock, cut)
  {
    var s' := PopSized(s, d, n);
    PopBatchSlot(s.table, n, id);
    HandChanges(s, s', d, id);
    FollowsFrame(maxRetry, s, s', [], id, job, clock, cut);
  }

  lemma MarkFollows(maxRetry: int, s: System, d: nat, deadline: int, id: JobId, job: Job, clock: nat -> int, cut: bool)
    requires d < |s.hands| && s.hands[d].logged == |s.hands[d].batch| && Placed(s) && Follows(maxRetry, s, id, job, clock, cut)
    ensures Follows(maxRetry, MarkNext(s, d, deadline), id, job, clock, cut)
  {
    var s', h := MarkNext(s, d, deadline), s.hands[d];
    MarkAllSlot(s.table, h.batch, deadline, id);
    if id in h.batch {
      var i :| 0 <= i < |h.batch| && h.batch[i] == id;
      assert LoggedInHand(s, id);
      HeldIsPending(s, d, i);
    } else {
      HandChanges(s, s', d, id);
      FollowsFrame(maxRetry, s, s', [], id, job, clock, cut);
    }
  }

  /** The three endings of a job in flight, each with its event. */
  ghost predicate Ends(job: Job, job': Job, kind: EventKind, maxRetry: int) {
    && (kind == AckEvent ==> job' == Settled(job, Completed))
    && (kind == DeadEvent ==> job' == Settled(job, Dead).(attempt := job.attempt + 1) && job.attempt + 1 >= maxRetry)
    && (kind == RetryEvent ==>
          job' == Settled(job, Pending).(attempt := job.attempt + 2) && job.attempt + 1 < maxRetry)
    && (kind == TimeoutEvent ==>
          if job.attempt + 1 >= maxRetry then job' == Settled(job, Dead).(attempt := job.attempt + 1)
          else job' == Settled(job, Pending).(attempt := job.attempt + 2))
    && (kind == AckEvent || kind == DeadEvent || kind == RetryEvent || kind == TimeoutEvent)
  }

  lemma ResultEnds(t: Table, id: JobId, success: bool, maxRetry: int) returns (kind: EventKind)
    requires Has(t, id, InFlight)
    ensures var (t', es) := HandleResult(t, id, success, true, maxRetry);
            es == [Event(kind, id)] && id in t'.jobs && Ends(t.jobs[id], t'.jobs[id], kind, maxRetry)
  {
    kind := if success then AckEvent else if t.jobs[id].attempt + 1 >= maxRetry then DeadEvent else RetryEvent;
  }

  lemma EndTracks(s: System, s': System, kind: EventKind, maxRetry: int, id: JobId, job: Job, clock: nat -> int, cut: bool)
    requires Tracks(s, id, job, clock, cut) && Has(s.table, id, InFlight) && id in s'.table.jobs
    requires Ends(s.table.jobs[id], s'.table.jobs[id], kind, maxRetry)
    requires s'.wal == s.wal + [Event(kind, id)] && !LoggedInHand(s', id)
    ensures Tracks(s', id, job, clock, cut)
  {
    assert s'.wal[..|s'.wal| - 1] == s.wal;
  }

  lemma EndCounts(s: System, s': System, kind: EventKind, maxRetry: int, id: JobId, job: Job)
    requires Counts(maxRetry, s, id, job) && Has(s.table, id, InFlight) && id in s'.table.jobs
    requires Ends(s.table.jobs[id], s'.table.jobs[id], kind, maxRetry)
    requires s'.wal == s.wal + [Event(kind, id)]
    ensures Counts(maxRetry, s', id, job)
  {
    assert s'.wal[..|s'.wal| - 1] == s.wal;
  }

  lemma OutcomeFollows(maxRetry: int, s: System, k: JobId, success: bool, id: JobId, job: Job, clock: nat -> int, cut: bool)
    requires Placed(s) && Indexed(s.table) && Has(s.table, k, InFlight) && Follows(maxRetry, s, id, job, clock, cut)
    ensures Follows(maxRetry, Next(maxRetry, s, Outcome(k, success, true)), id, job, clock, cut)
  {
    var s' := Next(maxRetry, s, Outcome(k, success, true));
    SameHands(s, s', id);
    if k == id {
      OnlyPendingInHands(s, id);
      var kind := ResultEnds(s.table, id, success, maxRetry);
      EndTracks(s, s', kind, maxRetry, id, job, clock, cut);
      EndCounts(s, s', kind, maxRetry, id, job);
    } else {
      ResultOther(s.table, k, success, true, maxRetry, id);
      FollowsFrame(maxRetry, s, s', HandleResult(s.table, k, success, true, maxRetry).1, id, job, clock, cut);
    }
  }

  /** One expired job of a sweep as a step of its own. */
  function TimeOutNext(maxRetry: int, s: System, k: JobId): System {
    var (t, es) := TimeOut(s.table, k, true, maxRetry);
    s.(table := t, wal := s.wal + es)
  }

  lemma TimeOutFollows(maxRetry: int, s: System, k: JobId, id: JobId, job: Job, clock: nat -> int, cut: bool)
    requires Placed(s) && Indexed(s.table) && Has(s.table, k, InFlight) && Follows(maxRetry, s, id, job, clock, cut)
    ensures Follows(maxRetry, TimeOutNext(maxRetry, s, k), id, job, clock, cut)
  {
    var s' := TimeOutNext(maxRetry, s, k);
    SameHands(s, s', id);
    if k == id {
      OnlyPendingInHands(s, id);
      EndTracks(s, s', TimeoutEvent, maxRetry, id, job, clock, cut);
      EndCounts(s, s', TimeoutEvent, maxRetry, id, job);
    } else {
      TimeOutOther(s.table, k, true, maxRetry, id);
      FollowsFrame(maxRetry, s, s', TimeOut(s.table, k, true, maxRetry).1, id, job, clock, cut);
    }
  }
}
