/** What a late result of an earlier attempt can do: two concrete runs of one job. */
module StrayResults {
  import opened Jobs
  import opened ControllerSteps
  import opened JobSystem
  import opened Conservation
  import opened Tracking

  const J: JobId := "j"

  const MAX_RETRY := 3

  /** The job in a given state of its life; its deadline is 0 while it is in flight. */
  function Life(status: Status, attempt: int): Job {
    Job(J, "", status, attempt, 0, if status == InFlight then At(0) else NoDeadline, "")
  }

  /** A system with this one job and one dispatcher. */
  function World(job: Job, queue: seq<JobId>, hand: Hand, completed: set<JobId>, wal: seq<Event>): System {
    System(Table(map[J := job], queue, if job.status == InFlight then {J} else {}, completed,
                 if job.status == Dead then {J} else {}), [hand], wal)
  }

  function Waiting(attempt: int, wal: seq<Event>): System {
    World(Life(Pending, attempt), [J], IDLE, {}, wal)
  }

  function Flying(attempt: int, wal: seq<Event>): System {
    World(Life(InFlight, attempt), [], IDLE, {}, wal)
  }

  /** Some run leads from s to s' by the given steps. */
  ghost predicate Leads(s: System, steps: seq<Step>, s': System) {
    exists b :: Run(MAX_RETRY, b, steps) && b[0] == s && b[|steps|] == s'
  }

  lemma OneStep(s: System, step: Step)
    requires Enabled(s, step)
    ensures Leads(s, [step], Next(MAX_RETRY, s, step))
  {
    assert Run(MAX_RETRY, [s, Next(MAX_RETRY, s, step)], [step]);
  }

  lemma Then(s: System, steps: seq<Step>, s1: System, more: seq<Step>, s2: System)
    requires Leads(s, steps, s1) && Leads(s1, more, s2)
    ensures Leads(s, steps + more, s2)
  {
    var b :| Run(MAX_RETRY, b, steps) && b[0] == s && b[|steps|] == s1;
    var c :| Run(MAX_RETRY, c, more) && c[0] == s1 && c[|more|] == s2;
    var all, d := steps + more, b + c[1..];
    forall i | 0 <= i < |all| ensures Transition(MAX_RETRY, d[i], all[i], d[i + 1]) {
      if i < |steps| {
        assert Transition(MAX_RETRY, b[i], steps[i], b[i + 1]);
      } else {
        assert Transition(MAX_RETRY, c[i - |steps|], more[i - |steps|], c[i - |steps| + 1]);
      }
    }
    assert Run(MAX_RETRY, d, all) && d[0] == s && d[|all|] == s2;
  }

  const DISPATCH: seq<Step> := [Pop(0)] + [LogDispatch(0, true)] + [Mark(0, 0)]

  lemma Dispatched(attempt: int, wal: seq<Event>)
    ensures Leads(Waiting(attempt, wal), DISPATCH, Flying(attempt, wal + [Event(DispatchEvent, J)]))
  {
    var more := wal + [Event(DispatchEvent, J)];
    TakenAndLogged(attempt, wal);
    Marked(attempt, more);
    Then(Waiting(attempt, wal), [Pop(0)] + [LogDispatch(0, true)], Taken(attempt, 1, more), [Mark(0, 0)], Flying(attempt, more));
  }

  /** The job in the dispatcher's hand, logged or not yet. */
  function Taken(attempt: int, logged: nat, wal: seq<Event>): System {
    World(Life(Pending, attempt), [], Hand([J], logged), {}, wal)
  }

  lemma TakenAndLogged(attempt: int, wal: seq<Event>)
    ensures Leads(Waiting(attempt, wal), [Pop(0)] + [LogDispatch(0, true)], Taken(attempt, 1, wal + [Event(DispatchEvent, J)]))
  {
    var s0, s1 := Waiting(attempt, wal), Taken(attempt, 0, wal);
    PopsOne(s0.table);
    OneStep(s0, Pop(0));
    assert Next(MAX_RETRY, s0, Pop(0)) == s1;
    OneStep(s1, LogDispatch(0, true));
    assert Next(MAX_RETRY, s1, LogDispatch(0, true)) == Taken(attempt, 1, wal + [Event(DispatchEvent, J)]);
    Then(s0, [Pop(0)], s1, [LogDispatch(0, true)], Taken(attempt, 1, wal + [Event(DispatchEvent, J)]));
  }

  lemma Marked(attempt: int, wal: seq<Event>)
    ensures Leads(Taken(attempt, 1, wal), [Mark(0, 0)], Flying(attempt, wal))
  {
    var s := Taken(attempt, 1, wal);
    OneStep(s, Mark(0, 0));
    assert [J][..0] == [];
    assert MarkAll(s.table, [J], 0) == MarkInFlight(s.table, J, 0).0;
    assert Next(MAX_RETRY, s, Mark(0, 0)) == Flying(attempt, wal);
  }

  lemma PopsOne(t: Table)
    requires t.queue == [J] && J in t.jobs
    ensures PopBatch(t, BATCH_SIZE) == (t.(queue := []), [J])
  {
    PopsNoMore(t, BATCH_SIZE);
  }

  lemma {:induction false} PopsNoMore(t: Table, n: int)
    requires t.queue == [J] && J in t.jobs && n >= 1
    ensures PopBatch(t, n) == (t.(queue := []), [J])
  {
    if n == 1 {
      assert PopBatch(t, 0) == (t, []);
      assert t.queue[1..] == [];
      assert PopPending(t) == (t.(queue := []), Found(J));
      assert [] + [J] == [J];
    } else {
      PopsNoMore(t, n - 1);
    }
  }

  const TIMEOUT: Step := SweepExpired(1, [J], {})

  lemma TimedOut(wal: seq<Event>)
    ensures Leads(Flying(0, wal), [TIMEOUT], Waiting(2, wal + [Event(TimeoutEvent, J)]))
  {
    var s := Flying(0, wal);
    assert Expired(s.table, 1) == {J};
    assert [J][..0] == [];
    assert Sweep(s.table, [], {}, MAX_RETRY) == (s.table, []);
    assert [] + TimeOut(s.table, J, true, MAX_RETRY).1 == TimeOut(s.table, J, true, MAX_RETRY).1;
    assert Sweep(s.table, [J], {}, MAX_RETRY) == TimeOut(s.table, J, true, MAX_RETRY);
    OneStep(s, TIMEOUT);
    assert Next(MAX_RETRY, s, TIMEOUT) == Waiting(2, wal + [Event(TimeoutEvent, J)]);
  }

  const FIRST_ATTEMPT: seq<Step> := DISPATCH + [TIMEOUT]

  const LOG1: seq<Event> := [Event(DispatchEvent, J), Event(TimeoutEvent, J)]

  lemma FirstAttempt()
    ensures Leads(Waiting(0, []), FIRST_ATTEMPT, Waiting(2, LOG1))
  {
    Dispatched(0, []);
    TimedOut([] + [Event(DispatchEvent, J)]);
    Then(Waiting(0, []), DISPATCH, Flying(0, [] + [Event(DispatchEvent, J)]), [TIMEOUT],
         Waiting(2, [] + [Event(DispatchEvent, J)] + [Event(TimeoutEvent, J)]));
    assert [] + [Event(DispatchEvent, J)] + [Event(TimeoutEvent, J)] == LOG1;
  }

  /** A success that arrives after its attempt timed out is logged although the job is waiting
      again, and from then on the log does not replay over the snapshot it started from. */
  lemma LateAckBreaksReplay(clock: nat -> int)
    ensures var steps := FIRST_ATTEMPT + [Outcome(J, true, true)];
            Leads(Waiting(0, []), steps, Waiting(2, LOG1 + [Event(AckEvent, J)]))
    ensures Replay(Restored(Waiting(0, []).table.jobs, [J]), LOG1 + [Event(AckEvent, J)], clock).1 == Err(NotInFlight)
  {
    FirstAttempt();
    OneStep(Waiting(2, LOG1), Outcome(J, true, true));
    assert Next(MAX_RETRY, Waiting(2, LOG1), Outcome(J, true, true)) == Waiting(2, LOG1 + [Event(AckEvent, J)]);
    Then(Waiting(0, []), FIRST_ATTEMPT, Waiting(2, LOG1), [Outcome(J, true, true)], Waiting(2, LOG1 + [Event(AckEvent, J)]));
    ReplaysThree(Restored(Waiting(0, []).table.jobs, [J]), LOG1 + [Event(AckEvent, J)], clock);
  }

  lemma ReplaysThree(t: Table, es: seq<Event>, clock: nat -> int)
    requires t == Restored(map[J := Life(Pending, 0)], [J])
    requires es == [Event(DispatchEvent, J), Event(TimeoutEvent, J), Event(AckEvent, J)]
    ensures Replay(t, es, clock).1 == Err(NotInFlight)
  {
    assert es[..2][..1][..0] == [] && es[..2][..1] == [es[0]] && es[..2] == [es[0], es[1]];
    var t1 := ReplayEvent(t, es[0], clock(0)).0;
    assert Replay(t, es[..2][..1], clock) == (t1, Ok);
    var t2 := ReplayEvent(t1, es[1], clock(1)).0;
    assert Replay(t, es[..2], clock) == (t2, Ok);
  }

  /** Completion can be undone: the retry succeeds, then the failure of the first attempt comes
      in late and kills the completed job, which both indexes then hold. */
  lemma CompletionCanBeUndone()
    ensures var steps := FIRST_ATTEMPT + DISPATCH + [Outcome(J, true, true)];
            Leads(Waiting(0, []), steps, Finished())
            && Leads(Finished(), [Outcome(J, false, true)], Next(MAX_RETRY, Finished(), Outcome(J, false, true)))
    ensures var t := Next(MAX_RETRY, Finished(), Outcome(J, false, true)).table;
            Has(Finished().table, J, Completed) && Has(t, J, Dead) && J in t.completed && J in t.dead
  {
    FirstAttempt();
    Dispatched(2, LOG1);
    var flying := Flying(2, LOG1 + [Event(DispatchEvent, J)]);
    Then(Waiting(0, []), FIRST_ATTEMPT, Waiting(2, LOG1), DISPATCH, flying);
    OneStep(flying, Outcome(J, true, true));
    assert Next(MAX_RETRY, flying, Outcome(J, true, true)) == Finished();
    Then(Waiting(0, []), FIRST_ATTEMPT + DISPATCH, flying, [Outcome(J, true, true)], Finished());
    OneStep(Finished(), Outcome(J, false, true));
  }

  function Finished(): System {
    World(Life(Completed, 2), [], IDLE, {J}, LOG1 + [Event(DispatchEvent, J)] + [Event(AckEvent, J)])
  }
}
