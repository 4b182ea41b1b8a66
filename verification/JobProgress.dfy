/** No job gets stuck: what is not dead can still be completed, from every moment of every run. */
module JobProgress {
  import opened Jobs
  import opened ControllerSteps
  import opened SlotSteps
  import opened JobSystem
  import opened Conservation
  import opened JobMoves

  /** The run can go on from s to s'. */
  ghost predicate Continues(maxRetry: int, s: System, s': System) {
    exists b, steps :: Run(maxRetry, b, steps) && b[0] == s && b[|steps|] == s'
  }

  lemma StepContinues(maxRetry: int, s: System, step: Step)
    requires Enabled(s, step)
    ensures Continues(maxRetry, s, Next(maxRetry, s, step))
  {
    assert Run(maxRetry, [s, Next(maxRetry, s, step)], [step]);
  }

  lemma SelfContinues(maxRetry: int, s: System)
    ensures Continues(maxRetry, s, s)
  {
    assert Run(maxRetry, [s], []);
  }

  lemma StepThen(maxRetry: int, s: System, step: Step, s': System)
    requires Enabled(s, step) && Continues(maxRetry, Next(maxRetry, s, step), s')
    ensures Continues(maxRetry, s, s')
  {
    var b, steps :| Run(maxRetry, b, steps) && b[0] == Next(maxRetry, s, step) && b[|steps|] == s';
    var c, all := [s] + b, [step] + steps;
    forall i | 0 <= i < |all| ensures Transition(maxRetry, c[i], all[i], c[i + 1]) {
      if i > 0 { assert Transition(maxRetry, b[i - 1], steps[i - 1], b[i]); }
    }
    assert Run(maxRetry, c, all) && c[|all|] == s';
  }

  lemma RunThen(maxRetry: int, b: seq<System>, steps: seq<Step>, s': System)
    requires Run(maxRetry, b, steps) && Continues(maxRetry, b[|steps|], s')
    ensures Continues(maxRetry, b[0], s')
    decreases |steps|
  {
    if steps == [] {
    } else {
      var n := |steps| - 1;
      assert Transition(maxRetry, b[n], steps[n], b[n + 1]);
      StepThen(maxRetry, b[n], steps[n], s');
      var c, some := b[..n + 1], steps[..n];
      forall i | 0 <= i < |some| ensures Transition(maxRetry, c[i], some[i], c[i + 1]) {
        assert Transition(maxRetry, b[i], steps[i], b[i + 1]);
      }
      RunThen(maxRetry, c, some, s');
    }
  }

  lemma ContinuesTrans(maxRetry: int, s: System, s1: System, s2: System)
    requires Continues(maxRetry, s, s1) && Continues(maxRetry, s1, s2)
    ensures Continues(maxRetry, s, s2)
  {
    var b, steps :| Run(maxRetry, b, steps) && b[0] == s && b[|steps|] == s1;
    RunThen(maxRetry, b, steps, s2);
  }

  // ---- From the queue, and from a hand, into flight ----

  /** A poll of one takes the head of the queue into flight if it is waiting. */
  lemma PollHead(maxRetry: int, s: System, deadline: int, id: JobId)
    requires s.table.queue != [] && Has(s.table, id, Pending) && id in s.table.queue
    ensures var t := Next(maxRetry, s, PollJobs(1, deadline, {})).table;
            && t.queue == s.table.queue[1..]
            && (if s.table.queue[0] == id then Has(t, id, InFlight) else Has(t, id, Pending) && id in t.queue)
  {
    var (t1, ids) := PopBatch(s.table, 1);
    BatchIsHead(s.table, 1);
    PopBatchSlot(s.table, 1, id);
    MarkAllSlot(t1, ids, deadline, id);
    MarkAllKeeps(t1, ids, deadline);
    assert s.table.queue == [s.table.queue[0]] + s.table.queue[1..];
  }

  lemma {:induction false} QueuedCanFly(maxRetry: int, s: System, deadline: int, id: JobId) returns (s': System)
    requires Has(s.table, id, Pending) && id in s.table.queue
    ensures Continues(maxRetry, s, s') && Has(s'.table, id, InFlight)
    decreases |s.table.queue|
  {
    var step := PollJobs(1, deadline, {});
    var s1 := Next(maxRetry, s, step);
    PollHead(maxRetry, s, deadline, id);
    StepContinues(maxRetry, s, step);
    if s.table.queue[0] == id {
      s' := s1;
    } else {
      s' := QueuedCanFly(maxRetry, s1, deadline, id);
      StepThen(maxRetry, s, step, s');
    }
  }

  lemma {:induction false} HeldCanFly(maxRetry: int, s: System, d: nat, deadline: int, id: JobId) returns (s': System)
    requires d < |s.hands| && s.hands[d].logged <= |s.hands[d].batch| && id in s.hands[d].batch && Has(s.table, id, Pending)
    ensures Continues(maxRetry, s, s') && Has(s'.table, id, InFlight)
    decreases |s.hands[d].batch| - s.hands[d].logged
  {
    if s.hands[d].logged < |s.hands[d].batch| {
      var step := LogDispatch(d, true);
      s' := HeldCanFly(maxRetry, Next(maxRetry, s, step), d, deadline, id);
      StepThen(maxRetry, s, step, s');
    } else {
      s' := Next(maxRetry, s, Mark(d, deadline));
      MarkAllSlot(s.table, s.hands[d].batch, deadline, id);
      StepContinues(maxRetry, s, Mark(d, deadline));
    }
  }

  // ---- On every run ----

  predicate HandsOk(s: System) {
    forall d :: 0 <= d < |s.hands| ==> s.hands[d].logged <= |s.hands[d].batch|
  }

  lemma {:induction false} RunKeepsHands(maxRetry: int, b: seq<System>, steps: seq<Step>, i: nat)
    requires Run(maxRetry, b, steps) && HandsOk(b[0]) && i < |b|
    ensures HandsOk(b[i])
  {
    if i > 0 {
      RunKeepsHands(maxRetry, b, steps, i - 1);
      assert Transition(maxRetry, b[i - 1], steps[i - 1], b[i]);
      StepKeepsHands(maxRetry, b[i - 1], steps[i - 1]);
    }
  }

  lemma StepKeepsHands(maxRetry: int, s: System, step: Step)
    requires Enabled(s, step) && HandsOk(s)
    ensures HandsOk(Next(maxRetry, s, step))
  {}

  lemma FlyingCanLand(maxRetry: int, s: System, id: JobId) returns (s': System)
    requires Has(s.table, id, InFlight)
    ensures Continues(maxRetry, s, s') && Has(s'.table, id, Completed) && id in s'.table.completed
    ensures s'.wal == s.wal + [Event(AckEvent, id)]
  {
    s' := Next(maxRetry, s, Outcome(id, true, true));
    StepContinues(maxRetry, s, Outcome(id, true, true));
  }

  /** From every moment of every run: a job that waits, in the queue or in a dispatcher's hand, or
      that is in flight, can still be completed, with its success logged. */
  lemma EveryJobCanComplete(maxRetry: int, b: seq<System>, steps: seq<Step>, i: nat, id: JobId) returns (s': System)
    requires Run(maxRetry, b, steps) && NothingLost(b[0]) && HandsOk(b[0]) && i < |b|
    requires Has(b[i].table, id, Pending) || Has(b[i].table, id, InFlight)
    ensures Continues(maxRetry, b[i], s')
    ensures Has(s'.table, id, Completed) && id in s'.table.completed && Event(AckEvent, id) in s'.wal
  {
    NoJobIsLost(maxRetry, b, steps, i, i);
    RunKeepsHands(maxRetry, b, steps, i);
    var s1 := b[i];
    if Has(s1.table, id, InFlight) {
      SelfContinues(maxRetry, s1);
    } else if id in s1.table.queue {
      s1 := QueuedCanFly(maxRetry, s1, 0, id);
    } else {
      var d :| 0 <= d < |s1.hands| && id in s1.hands[d].batch;
      s1 := HeldCanFly(maxRetry, s1, d, 0, id);
    }
    s' := FlyingCanLand(maxRetry, s1, id);
    ContinuesTrans(maxRetry, b[i], s1, s');
  }
}
