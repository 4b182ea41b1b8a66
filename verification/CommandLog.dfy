/** Applying committed commands again: after a restart the tail of the command log may be applied
    to a state that already has it. */
module CommandLog {
  import opened Jobs
  import opened ControllerSteps
  import opened SlotSteps

  function ApplyAll(t: Table, cs: seq<Command>): Table
    decreases |cs|
  {
    if cs == [] then t else ApplyCommand(ApplyAll(t, cs[..|cs| - 1]), cs[|cs| - 1])
  }

  lemma {:induction false} ApplyAppend(t: Table, a: seq<Command>, b: seq<Command>)
    ensures ApplyAll(t, a + b) == ApplyAll(ApplyAll(t, a), b)
    decreases |b|
  {
    if b == [] {
      assert a + b == a;
    } else {
      ApplyAppend(t, a, b[..|b| - 1]);
      assert (a + b)[..|a + b| - 1] == a + b[..|b| - 1];
    }
  }

  // ---- What commands never undo ----

  /** Settled jobs stay settled, known jobs stay known, and only a dispatch puts a job in flight. */
  ghost predicate Later(t: Table, t': Table) {
    && t.jobs.Keys <= t'.jobs.Keys && t.completed <= t'.completed && t.dead <= t'.dead
    && forall id :: id in t'.jobs && t'.jobs[id].status == InFlight ==> id in t.jobs && t.jobs[id].status == InFlight
  }

  lemma {:induction false} EnqueueIsLater(t: Table, jobs: seq<Job>)
    ensures Later(t, ApplyEnqueue(t, jobs))
    ensures forall i :: 0 <= i < |jobs| ==> jobs[i].id in ApplyEnqueue(t, jobs).jobs
    decreases |jobs|
  {
    if jobs != [] {
      EnqueueIsLater(t, jobs[..|jobs| - 1]);
      forall i | 0 <= i < |jobs| ensures jobs[i].id in ApplyEnqueue(t, jobs).jobs {
        if i < |jobs| - 1 { assert jobs[..|jobs| - 1][i] == jobs[i]; }
      }
    }
  }

  lemma CommandIsLater(t: Table, c: Command)
    ensures Later(t, ApplyCommand(t, c))
  {
    if c.EnqueueCommand? { EnqueueIsLater(t, c.jobs); }
  }

  lemma {:induction false} CommandsAreLater(t: Table, cs: seq<Command>)
    ensures Later(t, ApplyAll(t, cs))
    decreases |cs|
  {
    if cs != [] {
      CommandsAreLater(t, cs[..|cs| - 1]);
      CommandIsLater(ApplyAll(t, cs[..|cs| - 1]), cs[|cs| - 1]);
    }
  }

  lemma SuffixIsLater(t: Table, cs: seq<Command>, i: nat)
    requires i <= |cs|
    ensures Later(ApplyAll(t, cs[..i]), ApplyAll(t, cs))
  {
    ApplyAppend(t, cs[..i], cs[i..]);
    assert cs[..i] + cs[i..] == cs;
    CommandsAreLater(ApplyAll(t, cs[..i]), cs[i..]);
  }

  // ---- Commands that have nothing left to do ----

  ghost predicate Inert(t: Table, c: Command) {
    match c
    case EnqueueCommand(jobs) => forall i :: 0 <= i < |jobs| ==> jobs[i].id in t.jobs
    case AckCommand(id, status) =>
      || id in t.completed || id in t.dead || id !in t.jobs
      || (status == Completed && t.jobs[id].status != InFlight)
  }

  lemma {:induction false} KnownJobsInert(t: Table, jobs: seq<Job>)
    requires forall i :: 0 <= i < |jobs| ==> jobs[i].id in t.jobs
    ensures ApplyEnqueue(t, jobs) == t
    decreases |jobs|
  {
    if jobs != [] {
      assert forall i :: 0 <= i < |jobs| - 1 ==> jobs[..|jobs| - 1][i] == jobs[i];
      KnownJobsInert(t, jobs[..|jobs| - 1]);
    }
  }

  lemma InertDoesNothing(t: Table, c: Command)
    requires Inert(t, c)
    ensures ApplyCommand(t, c) == t
  {
    if c.EnqueueCommand? { KnownJobsInert(t, c.jobs); }
  }

  lemma {:induction false} AllInert(t: Table, cs: seq<Command>)
    requires forall i :: 0 <= i < |cs| ==> Inert(t, cs[i])
    ensures ApplyAll(t, cs) == t
    decreases |cs|
  {
    if cs != [] {
      assert forall i :: 0 <= i < |cs| - 1 ==> cs[..|cs| - 1][i] == cs[i];
      AllInert(t, cs[..|cs| - 1]);
      InertDoesNothing(t, cs[|cs| - 1]);
    }
  }

  predicate FailingAck(c: Command) {
    c.AckCommand? && c.status != Completed
  }

  datatype Fate = Unheard | Alive | Killed

  /** What a list of commands alone makes of an ID: the first ENQUEUE naming it brings it to
      life, and the first failing verdict after that kills it. A success never settles it, since
      nothing in the list dispatches it. */
  function FateOf(cs: seq<Command>, id: JobId): Fate
    decreases |cs|
  {
    if cs == [] then Unheard
    else
      var before, c := FateOf(cs[..|cs| - 1], id), cs[|cs| - 1];
      if before == Unheard && c.EnqueueCommand? && Names(c.jobs, id) then Alive
      else if before == Alive && FailingAck(c) && c.id == id then Killed
      else before
  }

  predicate Stranger(t: Table, id: JobId) {
    id !in t.jobs && id !in t.completed && id !in t.dead
  }

  /** A failing verdict on an ID that neither the table nor the list has heard of by then, which
      the list goes on to enqueue and not to kill. */
  predicate EarlyKill(t: Table, cs: seq<Command>, i: nat)
    requires i < |cs|
  {
    FailingAck(cs[i]) && Stranger(t, cs[i].id) && FateOf(cs[..i], cs[i].id) == Unheard && FateOf(cs, cs[i].id) == Alive
  }

  /** For an ID the table has not heard of, the fate read off the list is what applying it does. */
  lemma {:induction false} FateIsReal(t: Table, cs: seq<Command>, id: JobId)
    requires Stranger(t, id)
    ensures var end := ApplyAll(t, cs);
            match FateOf(cs, id)
            case Unheard => Stranger(end, id)
            case Alive => id in end.jobs && end.jobs[id].status == Pending && id !in end.completed && id !in end.dead
            case Killed => id in end.jobs && id !in end.completed && id in end.dead
    decreases |cs|
  {
    if cs != [] {
      var init, c := cs[..|cs| - 1], cs[|cs| - 1];
      FateIsReal(t, init, id);
      if c.EnqueueCommand? {
        ApplyEnqueueAdds(ApplyAll(t, init), c.jobs, id);
        if id in ApplyAll(t, init).jobs { ApplyEnqueueSlot(ApplyAll(t, init), c.jobs, id); }
      }
    }
  }

  /** In terms of the tables: the job was unknown when its verdict came and is alive at the end. */
  lemma EarlyKillFindsAlive(t: Table, cs: seq<Command>, i: nat)
    requires i < |cs|
    ensures EarlyKill(t, cs, i) <==>
            && FailingAck(cs[i]) && cs[i].id !in ApplyAll(t, cs[..i]).jobs
            && var end := ApplyAll(t, cs); cs[i].id in end.jobs && cs[i].id !in end.completed && cs[i].id !in end.dead
  {
    if FailingAck(cs[i]) {
      CommandsAreLater(t, cs[..i]);
      CommandsAreLater(t, cs);
      if Stranger(t, cs[i].id) {
        FateIsReal(t, cs[..i], cs[i].id);
        FateIsReal(t, cs, cs[i].id);
      }
    }
  }

  /** After the whole list, each command but an early kill has nothing left to do. */
  lemma InertAtEnd(t: Table, cs: seq<Command>, i: nat)
    requires i < |cs| && !EarlyKill(t, cs, i)
    ensures Inert(ApplyAll(t, cs), cs[i])
  {
    var before, end := ApplyAll(t, cs[..i]), ApplyAll(t, cs);
    var after := ApplyAll(t, cs[..i + 1]);
    assert cs[..i + 1][..i] == cs[..i];
    assert after == ApplyCommand(before, cs[i]);
    SuffixIsLater(t, cs, i);
    SuffixIsLater(t, cs, i + 1);
    EarlyKillFindsAlive(t, cs, i);
    if cs[i].EnqueueCommand? {
      EnqueueIsLater(before, cs[i].jobs);
    }
  }

  /** Idempotence of the command log: applying the list a second time changes nothing exactly
      when no failing verdict in it came before its job and would now find that job alive. */
  lemma ApplyTwiceIff(t: Table, cs: seq<Command>)
    ensures ApplyAll(ApplyAll(t, cs), cs) == ApplyAll(t, cs)
        <==> forall i :: 0 <= i < |cs| ==> !EarlyKill(t, cs, i)
  {
    var end := ApplyAll(t, cs);
    if forall i :: 0 <= i < |cs| ==> !EarlyKill(t, cs, i) {
      forall i | 0 <= i < |cs| ensures Inert(end, cs[i]) {
        InertAtEnd(t, cs, i);
      }
      AllInert(end, cs);
    } else {
      var i :| 0 <= i < |cs| && EarlyKill(t, cs, i);
      KilledTheSecondTime(t, cs, i);
    }
  }

  lemma KilledTheSecondTime(t: Table, cs: seq<Command>, i: nat)
    requires i < |cs| && EarlyKill(t, cs, i)
    ensures ApplyAll(ApplyAll(t, cs), cs) != ApplyAll(t, cs)
  {
    var end, id := ApplyAll(t, cs), cs[i].id;
    var before, after := ApplyAll(end, cs[..i]), ApplyAll(end, cs[..i + 1]);
    assert cs[..i + 1][..i] == cs[..i];
    assert after == ApplyCommand(before, cs[i]);
    EarlyKillFindsAlive(t, cs, i);
    CommandsAreLater(end, cs[..i]);
    SuffixIsLater(end, cs, i + 1);
    assert id in after.completed || id in after.dead;
  }

  /** If every verdict names a job that the table or the list so far knows, any tail of the list
      may be applied again. */
  lemma KnownAcksReplay(t: Table, cs: seq<Command>, k: nat)
    requires k <= |cs|
    requires forall i :: 0 <= i < |cs| && cs[i].AckCommand? ==> cs[i].id in t.jobs || FateOf(cs[..i], cs[i].id) != Unheard
    ensures ApplyAll(ApplyAll(t, cs), cs[k..]) == ApplyAll(t, cs)
  {
    var end, tail := ApplyAll(t, cs), cs[k..];
    forall i | 0 <= i < |tail| ensures Inert(end, tail[i]) {
      InertAtEnd(t, cs, k + i);
    }
    AllInert(end, tail);
  }

  /** A snapshot may be taken after a command was applied and before its index was recorded: the
      command is then applied again, and the log goes on as if it had not been. */
  lemma ReapplyingLastIsHarmless(t: Table, cs: seq<Command>, i: nat)
    requires i < |cs|
    ensures ApplyAll(ApplyAll(t, cs[..i + 1]), cs[i..]) == ApplyAll(t, cs)
  {
    var mid := ApplyAll(t, cs[..i + 1]);
    var prefix := cs[..i + 1];
    assert prefix[..i] == cs[..i] && prefix[i] == cs[i];
    NoEarlyKillAtEnd(t, prefix);
    InertAtEnd(t, prefix, i);
    InertDoesNothing(mid, cs[i]);
    assert cs[i..] == [cs[i]] + cs[i + 1..];
    ApplyAppend(mid, [cs[i]], cs[i + 1..]);
    assert [cs[i]][..0] == [];
    assert ApplyAll(mid, [cs[i]]) == mid;
    assert cs == prefix + cs[i + 1..];
    ApplyAppend(t, prefix, cs[i + 1..]);
  }

  lemma NoEarlyKillAtEnd(t: Table, cs: seq<Command>)
    requires cs != []
    ensures !EarlyKill(t, cs, |cs| - 1)
  {
    if FailingAck(cs[|cs| - 1]) { assert FateOf(cs, cs[|cs| - 1].id) != Alive; }
  }
}
