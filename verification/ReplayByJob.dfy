/** Replaying a log decomposes into independent replays, one per job. */
module ReplayByJob {
  import opened Jobs
  import opened ControllerSteps

  /** What one event of its own does to a job's slot, and whether the table accepts it. */
  function SlotReplay(s: Slot, kind: EventKind, deadline: int): (r: (Slot, bool)) {
    match kind
    case EnqueueEvent => (s, true)
    case DispatchEvent =>
      if s.Slot? && (s.completed || s.dead) then (s, true)
      else if s.Slot? && s.job.status == Pending
      then (s.(job := s.job.(status := InFlight, deadline := At(deadline)), inFlight := true), true)
      else (s, false)
    case AckEvent =>
      if s.Slot? && s.completed then (s, true)
      else if s.Slot? && s.job.status == InFlight
      then (s.(job := Settled(s.job, Completed), inFlight := false, completed := true), true)
      else (s, false)
    case RetryEvent => SlotRequeue(s)
    case TimeoutEvent => SlotRequeue(s)
    case DeadEvent =>
      if s.Slot? then (s.(job := Settled(s.job, Dead), inFlight := false, dead := true), true) else (s, false)
  }

  function SlotRequeue(s: Slot): (r: (Slot, bool)) {
    if s.Slot? && s.job.status == InFlight then (s.(job := Retried(s.job), inFlight := false), true) else (s, false)
  }

  /** A job's own events in order, until one is refused. */
  ghost function SlotRun(s: Slot, es: seq<Event>, id: JobId, clock: nat -> int): (r: (Slot, bool))
    decreases |es|
  {
    if es == [] then (s, true)
    else
      var (s1, ok) := SlotRun(s, es[..|es| - 1], id, clock);
      var last := es[|es| - 1];
      if !ok || last.id != id then (s1, ok) else SlotReplay(s1, last.kind, clock(|es| - 1))
  }

  lemma ReplayEventBySlot(t: Table, e: Event, deadline: int)
    requires Indexed(t)
    ensures var (t', r) := ReplayEvent(t, e, deadline);
            && Indexed(t')
            && (SlotOf(t', e.id), r == Ok) == SlotReplay(SlotOf(t, e.id), e.kind, deadline)
  {
    DispatchKeepsIndexes(t, e.id, deadline);
    SettleKeepsIndexes(t, e.id);
  }

  lemma ReplayEventOther(t: Table, e: Event, deadline: int, id: JobId)
    requires id != e.id
    ensures SlotOf(ReplayEvent(t, e, deadline).0, id) == SlotOf(t, id)
  {
    OthersKeepSlots(t, e.id, deadline, id);
  }

  ghost predicate Agrees(t: Table, t': Table, es: seq<Event>, clock: nat -> int) {
    forall id :: SlotOf(t', id) == SlotRun(SlotOf(t, id), es, id, clock).0
  }

  ghost predicate AllAccept(t: Table, es: seq<Event>, clock: nat -> int) {
    forall id :: SlotRun(SlotOf(t, id), es, id, clock).1
  }

  /** The log replays without error exactly when every job accepts its own events in order; and
      then every job ends where its own events lead it, whatever happened in between to others. */
  lemma {:induction false} ReplayDecomposes(t: Table, es: seq<Event>, clock: nat -> int)
    requires Indexed(t)
    ensures Replay(t, es, clock).1 == Ok <==> AllAccept(t, es, clock)
    ensures Replay(t, es, clock).1 == Ok ==> Indexed(Replay(t, es, clock).0) && Agrees(t, Replay(t, es, clock).0, es, clock)
    decreases |es|
  {
    if es != [] {
      var init, last := es[..|es| - 1], es[|es| - 1];
      ReplayDecomposes(t, init, clock);
      var (t1, r1) := Replay(t, init, clock);
      if r1 == Ok {
        LastEvent(t, t1, es, clock);
      } else {
        var id :| !SlotRun(SlotOf(t, id), init, id, clock).1;
        assert !SlotRun(SlotOf(t, id), es, id, clock).1;
      }
    }
  }

  lemma LastEvent(t: Table, t1: Table, es: seq<Event>, clock: nat -> int)
    requires es != [] && Indexed(t1) && Agrees(t, t1, es[..|es| - 1], clock) && AllAccept(t, es[..|es| - 1], clock)
    ensures var (t2, r) := ReplayEvent(t1, es[|es| - 1], clock(|es| - 1));
            && (r == Ok <==> AllAccept(t, es, clock))
            && (r == Ok ==> Indexed(t2) && Agrees(t, t2, es, clock))
  {
    var init, last := es[..|es| - 1], es[|es| - 1];
    var (t2, r) := ReplayEvent(t1, last, clock(|es| - 1));
    ReplayEventBySlot(t1, last, clock(|es| - 1));
    forall id
      ensures SlotOf(t2, id) == SlotRun(SlotOf(t, id), es, id, clock).0
      ensures SlotRun(SlotOf(t, id), es, id, clock).1 == (id != last.id || r == Ok)
    {
      assert SlotOf(t1, id) == SlotRun(SlotOf(t, id), init, id, clock).0;
      assert SlotRun(SlotOf(t, id), init, id, clock).1;
      if id != last.id {
        ReplayEventOther(t1, last, clock(|es| - 1), id);
      }
    }
    if r != Ok { assert !SlotRun(SlotOf(t, last.id), es, last.id, clock).1; }
  }

  // ---- Interleaving ----

  /** One job's events, in order. */
  function Own(es: seq<Event>, id: JobId): seq<EventKind>
    decreases |es|
  {
    if es == [] then []
    else
      var last := es[|es| - 1];
      Own(es[..|es| - 1], id) + if last.id == id then [last.kind] else []
  }

  ghost function KindsRun(s: Slot, kinds: seq<EventKind>, deadline: int): (r: (Slot, bool))
    decreases |kinds|
  {
    if kinds == [] then (s, true)
    else
      var (s1, ok) := KindsRun(s, kinds[..|kinds| - 1], deadline);
      if !ok then (s1, ok) else SlotReplay(s1, kinds[|kinds| - 1], deadline)
  }

  /** A slot without the value of its deadline. */
  function Timeless(s: Slot): Slot {
    if s.Slot? && s.job.deadline.At? then s.(job := s.job.(deadline := At(0))) else s
  }

  /** No event looks at a deadline. */
  lemma ReplayIsTimeless(s: Slot, s': Slot, kind: EventKind, deadline: int, deadline': int)
    requires Timeless(s) == Timeless(s')
    ensures var (r, r') := (SlotReplay(s, kind, deadline), SlotReplay(s', kind, deadline'));
            Timeless(r.0) == Timeless(r'.0) && r.1 == r'.1
  {}

  lemma {:induction false} RunIsKindsRun(s: Slot, es: seq<Event>, id: JobId, clock: nat -> int)
    ensures var (r, r') := (SlotRun(s, es, id, clock), KindsRun(s, Own(es, id), 0));
            Timeless(r.0) == Timeless(r'.0) && r.1 == r'.1
    decreases |es|
  {
    if es != [] {
      var init, last := es[..|es| - 1], es[|es| - 1];
      RunIsKindsRun(s, init, id, clock);
      ReplayIsTimeless(SlotRun(s, init, id, clock).0, KindsRun(s, Own(init, id), 0).0, last.kind, clock(|es| - 1), 0);
      if last.id == id {
        assert Own(es, id)[..|Own(es, id)| - 1] == Own(init, id);
      } else {
        assert Own(es, id) == Own(init, id);
      }
    }
  }

  ghost predicate SameButDeadlines(t: Table, t': Table) {
    forall id :: Timeless(SlotOf(t, id)) == Timeless(SlotOf(t', id))
  }

  /** Two logs in which every job's own events come in the same order replay alike, however the
      jobs' events are interleaved and whatever the clock shows at each of them: both are
      accepted or both refused, and the tables differ in the values of deadlines at most. */
  lemma InterleavingIsIrrelevant(t: Table, es: seq<Event>, es': seq<Event>, clock: nat -> int, clock': nat -> int)
    requires Indexed(t) && forall id :: Own(es, id) == Own(es', id)
    ensures Replay(t, es, clock).1 == Ok <==> Replay(t, es', clock').1 == Ok
    ensures Replay(t, es, clock).1 == Ok ==> SameButDeadlines(Replay(t, es, clock).0, Replay(t, es', clock').0)
  {
    ReplayDecomposes(t, es, clock);
    ReplayDecomposes(t, es', clock');
    forall id
      ensures SlotRun(SlotOf(t, id), es, id, clock).1 == SlotRun(SlotOf(t, id), es', id, clock').1
      ensures Timeless(SlotRun(SlotOf(t, id), es, id, clock).0) == Timeless(SlotRun(SlotOf(t, id), es', id, clock').0)
    {
      SameOwnSameRun(SlotOf(t, id), es, es', id, clock, clock');
    }
  }

  lemma SameOwnSameRun(s: Slot, es: seq<Event>, es': seq<Event>, id: JobId, clock: nat -> int, clock': nat -> int)
    requires Own(es, id) == Own(es', id)
    ensures SlotRun(s, es, id, clock).1 == SlotRun(s, es', id, clock').1
    ensures Timeless(SlotRun(s, es, id, clock).0) == Timeless(SlotRun(s, es', id, clock').0)
  {
    RunIsKindsRun(s, es, id, clock);
    RunIsKindsRun(s, es', id, clock');
  }

  /** Events of a job without a record: nothing but its own ENQUEUE is accepted. */
  lemma {:induction false} AbsentAccepts(es: seq<Event>, id: JobId, clock: nat -> int)
    ensures SlotRun(Absent, es, id, clock).0 == Absent
    ensures SlotRun(Absent, es, id, clock).1
        <==> forall i :: 0 <= i < |es| && es[i].id == id ==> es[i].kind == EnqueueEvent
    decreases |es|
  {
    if es != [] {
      var init := es[..|es| - 1];
      AbsentAccepts(init, id, clock);
      assert forall i :: 0 <= i < |init| ==> init[i] == es[i];
    }
  }

  /** Recovery does not survive being repeated: if replay leaves a job in flight, recovery
      requeues it without logging that, so as soon as the job is dispatched again the grown log
      no longer replays over the same snapshot. */
  lemma RedispatchAfterRecovery(t: Table, es: seq<Event>, clock: nat -> int, id: JobId)
    requires Indexed(t) && Replay(t, es, clock).1 == Ok && id in Replay(t, es, clock).0.inFlight
    ensures Replay(t, es + [Event(DispatchEvent, id)], clock).1 == Err(NotPending)
  {
    ReplayDecomposes(t, es, clock);
    var all := es + [Event(DispatchEvent, id)];
    assert all[..|all| - 1] == es;
  }

  /** A replay that fails has applied all events before the first one refused, and nothing of
      those after it. */
  lemma {:induction false} ReplayStopsAtRefusal(t: Table, es: seq<Event>, clock: nat -> int) returns (k: nat)
    requires Replay(t, es, clock).1.Err?
    ensures k < |es| && Replay(t, es[..k], clock).1.Ok?
    ensures Replay(t, es, clock) == ReplayEvent(Replay(t, es[..k], clock).0, es[k], clock(k))
    decreases |es|
  {
    k := |es| - 1;
    if Replay(t, es[..k], clock).1.Err? {
      var init := es[..k];
      k := ReplayStopsAtRefusal(t, init, clock);
      assert init[..k] == es[..k];
    }
  }
}
