/** Two controllers fed the same committed commands, each with dispatches, retries, timeouts and
    deaths of its own in between. */
module Replicas {
  import opened Jobs
  import opened ControllerSteps
  import opened SlotSteps
  import opened Conservation
  import opened PartialSnapshots

  datatype Move = Here(op: Op) | There(op: Op) | Both(command: Command)

  datatype Pair = Pair(here: Table, there: Table)

  function MoveOn(p: Pair, m: Move): Pair {
    match m
    case Here(op) => p.(here := ApplyOp(p.here, op))
    case There(op) => p.(there := ApplyOp(p.there, op))
    case Both(c) => Pair(ApplyCommand(p.here, c), ApplyCommand(p.there, c))
  }

  function MoveAll(p: Pair, ms: seq<Move>): Pair
    decreases |ms|
  {
    if ms == [] then p else MoveOn(MoveAll(p, ms[..|ms| - 1]), ms[|ms| - 1])
  }

  /** Commands reach both controllers; everything else is local. */
  predicate Fed(ms: seq<Move>) {
    forall k :: 0 <= k < |ms| && !ms[k].Both? ==> !ms[k].op.Committed?
  }

  /** The same jobs, the same ones completed, the same ones dead. Who is waiting and who is in
      flight, attempts and deadlines are each controller's own. */
  predicate Agree(p: Pair) {
    && p.here.jobs.Keys == p.there.jobs.Keys
    && p.here.completed == p.there.completed
    && p.here.dead == p.there.dead
  }

  predicate Open(t: Table, id: JobId) {
    id in t.jobs && id !in t.completed && id !in t.dead
  }

  /** A local death: by a kill, or by a timeout that finds no attempt left. */
  predicate Kills(t: Table, op: Op) {
    (op.Kill? || op.Expire?) && op.id in t.jobs && op.id !in t.dead
    && (op.Expire? ==> t.jobs[op.id].attempt + 1 >= op.maxRetry)
  }

  /** A local death, or a success of a job that is in flight on one side alone. */
  predicate Splits(p: Pair, m: Move) {
    match m
    case Here(op) => Kills(p.here, op)
    case There(op) => Kills(p.there, op)
    case Both(c) =>
      && c.AckCommand? && c.status == Completed && Open(p.here, c.id) && Open(p.there, c.id)
      && Has(p.here, c.id, InFlight) != Has(p.there, c.id, InFlight)
  }

  lemma LocalEffect(t: Table, op: Op)
    requires !op.Committed?
    ensures var t' := ApplyOp(t, op);
            && t'.jobs.Keys == t.jobs.Keys && t'.completed == t.completed
            && t'.dead == if Kills(t, op) then t.dead + {op.id} else t.dead
  {}

  lemma EnqueueAgrees(p: Pair, jobs: seq<Job>)
    requires Agree(p)
    ensures Agree(MoveOn(p, Both(EnqueueCommand(jobs))))
  {
    forall id ensures id in ApplyEnqueue(p.here, jobs).jobs <==> id in ApplyEnqueue(p.there, jobs).jobs {
      ApplyEnqueueAdds(p.here, jobs, id);
      ApplyEnqueueAdds(p.there, jobs, id);
    }
    ApplyEnqueueAdds(p.here, jobs, "");
    ApplyEnqueueAdds(p.there, jobs, "");
  }

  lemma AckAgreesIff(p: Pair, id: JobId, status: Status)
    requires Agree(p)
    ensures Agree(MoveOn(p, Both(AckCommand(id, status)))) <==> !Splits(p, Both(AckCommand(id, status)))
  {
    var q := MoveOn(p, Both(AckCommand(id, status)));
    if Splits(p, Both(AckCommand(id, status))) {
      assert id in q.here.completed <==> id !in q.there.completed;
    }
  }

  lemma MoveAgreesIff(p: Pair, m: Move)
    requires Agree(p) && (!m.Both? ==> !m.op.Committed?)
    ensures Agree(MoveOn(p, m)) <==> !Splits(p, m)
  {
    match m
    case Here(op) => LocalEffect(p.here, op);
    case There(op) => LocalEffect(p.there, op);
    case Both(c) =>
      match c {
        case EnqueueCommand(jobs) => EnqueueAgrees(p, jobs);
        case AckCommand(id, status) => AckAgreesIff(p, id, status);
      }
  }

  lemma NextMoment(p: Pair, ms: seq<Move>, k: nat)
    requires Fed(ms) && k < |ms| && Agree(MoveAll(p, ms[..k]))
    ensures Agree(MoveAll(p, ms[..k + 1])) <==> !Splits(MoveAll(p, ms[..k]), ms[k])
  {
    assert ms[..k + 1][..k] == ms[..k];
    MoveAgreesIff(MoveAll(p, ms[..k]), ms[k]);
  }

  lemma {:induction false} UnsplitAgrees(p: Pair, ms: seq<Move>, n: nat)
    requires Agree(p) && Fed(ms) && n <= |ms| && forall k :: 0 <= k < n ==> !Splits(MoveAll(p, ms[..k]), ms[k])
    ensures Agree(MoveAll(p, ms[..n]))
    decreases n
  {
    if n == 0 {
      assert ms[..0] == [];
    } else {
      UnsplitAgrees(p, ms, n - 1);
      NextMoment(p, ms, n - 1);
    }
  }

  /** Two controllers that agree go on agreeing at every moment up to the n-th if and only if no
      move before it splits them. */
  lemma AgreeIff(p: Pair, ms: seq<Move>, n: nat)
    requires Agree(p) && Fed(ms) && n <= |ms|
    ensures (forall k :: 0 <= k <= n ==> Agree(MoveAll(p, ms[..k])))
        <==> (forall k :: 0 <= k < n ==> !Splits(MoveAll(p, ms[..k]), ms[k]))
  {
    if forall k :: 0 <= k <= n ==> Agree(MoveAll(p, ms[..k])) {
      forall k | 0 <= k < n ensures !Splits(MoveAll(p, ms[..k]), ms[k]) {
        NextMoment(p, ms, k);
      }
    } else if forall k :: 0 <= k < n ==> !Splits(MoveAll(p, ms[..k]), ms[k]) {
      forall k | 0 <= k <= n ensures Agree(MoveAll(p, ms[..k])) {
        UnsplitAgrees(p, ms, k);
      }
    }
  }

  // ---- Separate histories ----

  function CommandsIn(ops: seq<Op>): seq<Command>
    decreases |ops|
  {
    if ops == [] then []
    else
      var last := ops[|ops| - 1];
      CommandsIn(ops[..|ops| - 1]) + if last.Committed? then [last.command] else []
  }

  lemma MoveSnoc(p: Pair, ms: seq<Move>, m: Move)
    requires Fed(ms) && (m.Both? || !m.op.Committed?)
    ensures Fed(ms + [m]) && MoveAll(p, ms + [m]) == MoveOn(MoveAll(p, ms), m)
  {
    assert (ms + [m])[..|ms|] == ms;
  }

  /** Two histories that apply the same commands in the same order, each at its own pace, line up:
      a step of one controller does not touch the other's table. */
  lemma {:induction false} LineUp(p: Pair, here: seq<Op>, there: seq<Op>) returns (ms: seq<Move>)
    requires CommandsIn(here) == CommandsIn(there)
    ensures Fed(ms) && MoveAll(p, ms) == Pair(ApplyOps(p.here, here), ApplyOps(p.there, there))
    decreases |here| + |there|
  {
    if here != [] && !here[|here| - 1].Committed? {
      var before := LineUp(p, here[..|here| - 1], there);
      MoveSnoc(p, before, Here(here[|here| - 1]));
      ms := before + [Here(here[|here| - 1])];
    } else if there != [] && !there[|there| - 1].Committed? {
      var before := LineUp(p, here, there[..|there| - 1]);
      MoveSnoc(p, before, There(there[|there| - 1]));
      ms := before + [There(there[|there| - 1])];
    } else if here == [] {
      ms := [];
    } else {
      SameLastCommand(here, there);
      var before := LineUp(p, here[..|here| - 1], there[..|there| - 1]);
      MoveSnoc(p, before, Both(here[|here| - 1].command));
      ms := before + [Both(here[|here| - 1].command)];
    }
  }

  lemma SameLastCommand(here: seq<Op>, there: seq<Op>)
    requires CommandsIn(here) == CommandsIn(there) && here != [] && here[|here| - 1].Committed?
    requires there != [] ==> there[|there| - 1].Committed?
    ensures there != [] && here[|here| - 1] == there[|there| - 1]
    ensures CommandsIn(here[..|here| - 1]) == CommandsIn(there[..|there| - 1])
  {
    var a, b := CommandsIn(here), CommandsIn(there);
    assert a[|a| - 1] == here[|here| - 1].command && a[..|a| - 1] == CommandsIn(here[..|here| - 1]);
    assert b[|b| - 1] == there[|there| - 1].command && b[..|b| - 1] == CommandsIn(there[..|there| - 1]);
  }

  // ---- A follower never completes what it never dispatched ----

  ghost predicate NeverDispatchedThere(ms: seq<Move>, id: JobId) {
    forall k :: 0 <= k < |ms| ==> !(ms[k].There? && ms[k].op.Dispatch? && ms[k].op.id == id)
  }

  ghost predicate Undone(t: Table, id: JobId) {
    id !in t.completed && !Has(t, id, InFlight)
  }

  lemma MoveKeepsUndone(p: Pair, m: Move, id: JobId)
    requires Undone(p.there, id) && !(m.There? && m.op.Dispatch? && m.op.id == id)
    ensures Undone(MoveOn(p, m).there, id)
  {
    var c := if m.Both? then m.command else if m.There? && m.op.Committed? then m.op.command else EnqueueCommand([]);
    if c.EnqueueCommand? {
      ApplyEnqueueAdds(p.there, c.jobs, id);
      if id in p.there.jobs { ApplyEnqueueSlot(p.there, c.jobs, id); }
    }
  }

  lemma {:induction false} UndispatchedStaysUndone(p: Pair, ms: seq<Move>, id: JobId)
    requires Undone(p.there, id) && NeverDispatchedThere(ms, id)
    ensures Undone(MoveAll(p, ms).there, id)
    decreases |ms|
  {
    if ms != [] {
      assert forall k :: 0 <= k < |ms| - 1 ==> ms[..|ms| - 1][k] == ms[k];
      UndispatchedStaysUndone(p, ms[..|ms| - 1], id);
      MoveKeepsUndone(MoveAll(p, ms[..|ms| - 1]), ms[|ms| - 1], id);
    }
  }

  lemma OpKeepsCompleted(t: Table, op: Op)
    ensures t.completed <= ApplyOp(t, op).completed
  {
    if op.Committed? && op.command.EnqueueCommand? { ApplyEnqueueAdds(t, op.command.jobs, ""); }
  }

  lemma {:induction false} CompletedHereStays(p: Pair, ms: seq<Move>)
    ensures p.here.completed <= MoveAll(p, ms).here.completed
    decreases |ms|
  {
    if ms != [] {
      var before, last := MoveAll(p, ms[..|ms| - 1]), ms[|ms| - 1];
      CompletedHereStays(p, ms[..|ms| - 1]);
      match last
      case Here(op) => OpKeepsCompleted(before.here, op);
      case There(_) =>
      case Both(c) => OpKeepsCompleted(before.here, Committed(c));
    }
  }

  lemma {:induction false} MoveAllAppend(p: Pair, ms: seq<Move>, more: seq<Move>)
    ensures MoveAll(p, ms + more) == MoveAll(MoveAll(p, ms), more)
    decreases |more|
  {
    if more == [] {
      assert ms + more == ms;
    } else {
      MoveAllAppend(p, ms, more[..|more| - 1]);
      assert (ms + more)[..|ms + more| - 1] == ms + more[..|more| - 1];
    }
  }

  lemma TwoMoves(p: Pair, ms: seq<Move>)
    requires |ms| == 2
    ensures MoveAll(p, ms) == MoveOn(MoveOn(p, ms[0]), ms[1])
  {
    assert ms[..1][..0] == [];
    assert MoveAll(p, ms[..1]) == MoveOn(MoveAll(p, ms[..1][..0]), ms[..1][0]);
  }

  /** A job dispatched on one controller alone, with its success then committed: it is completed
      there and still waiting on the other, and however the two go on, as long as the other does
      not dispatch it itself, it is never completed on it and the two never agree again. */
  lemma FollowerNeverCompletes(p: Pair, id: JobId, deadline: int, more: seq<Move>)
    requires Has(p.here, id, Pending) && Open(p.here, id) && Has(p.there, id, Pending) && Open(p.there, id)
    requires NeverDispatchedThere(more, id)
    ensures var q := MoveAll(p, [Here(Dispatch(id, deadline)), Both(AckCommand(id, Completed))]);
            Has(q.here, id, Completed) && q.there == p.there
    ensures var q := MoveAll(p, [Here(Dispatch(id, deadline)), Both(AckCommand(id, Completed))] + more);
            id in q.here.completed && id !in q.there.completed && !Agree(q)
  {
    var ms := [Here(Dispatch(id, deadline)), Both(AckCommand(id, Completed))];
    TwoMoves(p, ms);
    var q := MoveAll(p, ms);
    MoveAllAppend(p, ms, more);
    UndispatchedStaysUndone(q, more, id);
    CompletedHereStays(q, more);
  }
}
