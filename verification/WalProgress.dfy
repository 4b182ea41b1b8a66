/** What the log can still do, and what it cannot do any more: numbers, answers and the end. */
module WalProgress {
  import opened ControllerSteps
  import opened GroupCommit

  // ---- Numbers ----

  /** The appends begun since the last finished rotation. */
  function Begins(steps: seq<Step>): nat
    decreases |steps|
  {
    if steps == [] then 0
    else
      match steps[|steps| - 1]
      case Begin(_, _) => Begins(steps[..|steps| - 1]) + 1
      case FinishRotation => 0
      case _ => Begins(steps[..|steps| - 1])
  }

  predicate RotatesIn(steps: seq<Step>) {
    FinishRotation in steps
  }

  /** At every moment of every run the last number drawn is the count of the appends begun since
      the last finished rotation, on top of the number the log was opened with if there was none. */
  lemma {:induction false} NumberIsCount(b: seq<Wal>, steps: seq<Step>, i: nat)
    requires Run(b, steps) && i < |b|
    ensures b[i].lastNumber == Begins(steps[..i]) + if RotatesIn(steps[..i]) then 0 else b[0].lastNumber
  {
    if i > 0 {
      NumberIsCount(b, steps, i - 1);
      assert Transition(b[i - 1], steps[i - 1], b[i]);
      StepCounts(b[i - 1], steps[..i - 1], steps[i - 1], b[0].lastNumber);
      assert steps[..i] == steps[..i - 1] + [steps[i - 1]];
    }
  }

  lemma StepCounts(w: Wal, before: seq<Step>, step: Step, start: nat)
    requires Enabled(w, step) && w.lastNumber == Begins(before) + if RotatesIn(before) then 0 else start
    ensures var steps := before + [step];
            Next(w, step).lastNumber == Begins(steps) + if RotatesIn(steps) then 0 else start
  {
    assert (before + [step])[..|before|] == before;
  }

  lemma {:induction false} NumbersRise(b: seq<Wal>, steps: seq<Step>, i: nat, j: nat)
    requires Run(b, steps) && i <= j < |b| && forall k :: i <= k < j ==> steps[k] != FinishRotation
    ensures b[i].lastNumber <= b[j].lastNumber
    decreases j
  {
    if i < j {
      NumbersRise(b, steps, i, j - 1);
      assert Transition(b[j - 1], steps[j - 1], b[j]);
    }
  }

  /** Between two finished rotations no number is drawn twice: the later append has the larger. */
  lemma NumbersAreDistinct(b: seq<Wal>, steps: seq<Step>, i: nat, j: nat, c: nat, d: nat, e: Event, f: Event)
    requires Run(b, steps) && i < j < |steps| && steps[i] == Begin(c, e) && steps[j] == Begin(d, f)
    requires forall k :: i <= k < j ==> steps[k] != FinishRotation
    ensures c in b[i + 1].calls && d in b[j + 1].calls
    ensures b[i + 1].calls[c].record.event == e && b[j + 1].calls[d].record.event == f
    ensures b[i + 1].calls[c].record.number < b[j + 1].calls[d].record.number
  {
    assert Transition(b[i], steps[i], b[i + 1]) && Transition(b[j], steps[j], b[j + 1]);
    NumbersRise(b, steps, i + 1, j);
  }

  // ---- The end ----

  /** The writer has stopped and no rotation will start it again. */
  predicate Ended(w: Wal) {
    !w.running && (w.phase == Closing || w.phase == Broken)
  }

  /** Nothing is written, renamed or answered nil after a close or a failed rotation: whatever is
      appended from then on can only be refused. */
  lemma {:induction false} EndIsForever(b: seq<Wal>, steps: seq<Step>, i: nat, j: nat)
    requires Run(b, steps) && i <= j < |b| && Ended(b[i])
    ensures Ended(b[j]) && b[j].phase == b[i].phase
    ensures b[j].file == b[i].file && b[j].rotated == b[i].rotated && b[j].answered == b[i].answered
    ensures forall c :: c in b[j].calls && b[j].calls[c].Returned? && b[j].calls[c].ok ==>
              c in b[i].calls && b[i].calls[c] == b[j].calls[c]
    decreases j
  {
    if i < j {
      EndIsForever(b, steps, i, j - 1);
      assert Transition(b[j - 1], steps[j - 1], b[j]);
    }
  }

  /** A rotation that fails ends the log, at whichever stage; only a failure to open the new file
      has put the old one away by then. */
  lemma FailedRotationEnds(w: Wal, stage: RotationFault)
    requires Enabled(w, FailRotation(stage))
    ensures var w' := Next(w, FailRotation(stage));
            && Ended(w') && w'.phase == Broken && Written(w') == Written(w)
            && (w'.rotated != w.rotated <==> stage.OpenFails?)
  {
    RotationKeepsWritten(w);
  }

  // ---- Answers ----

  lemma Prepend(w: Wal, step: Step, b: seq<Wal>, steps: seq<Step>)
    requires Enabled(w, step) && Run(b, steps) && b[0] == Next(w, step)
    ensures Run([w] + b, [step] + steps) && ([w] + b)[|steps| + 1] == b[|steps|]
  {
    var c, all := [w] + b, [step] + steps;
    forall i | 0 <= i < |all| ensures Transition(c[i], all[i], c[i + 1]) {
      if i > 0 { assert Transition(b[i - 1], steps[i - 1], b[i]); }
    }
  }

  /** The line is empty, and each call that waited has its nil answer; the rest is as it was. */
  ghost predicate AllAnswered(w: Wal, w': Wal) {
    && Line(w') == [] && w'.running && w'.phase == w.phase
    && w'.bufferSize == w.bufferSize && w'.lastNumber == w.lastNumber
    && w'.calls.Keys == w.calls.Keys
    && forall c :: c in w.calls ==> w'.calls[c] == if w.calls[c].Waiting? then Returned(w.calls[c].record, true) else w.calls[c]
  }

  lemma FlushAnswers(w: Wal, w': Wal)
    requires WalInv(w) && AllAnswered(FlushNext(w, NoFault), w')
    ensures AllAnswered(w, w')
  {
    forall c | c in w.calls
      ensures w'.calls[c] == if w.calls[c].Waiting? then Returned(w.calls[c].record, true) else w.calls[c]
    {
      BatchIsFront(w, c);
    }
  }

  lemma NobodyWaits(w: Wal)
    requires WalInv(w) && Line(w) == [] && w.running
    ensures AllAnswered(w, w)
  {}

  /** From every state of a log whose writer runs, the writer alone can bring it about that every
      waiting append has returned nil. */
  lemma {:induction false} WriterCanAnswerAll(w: Wal) returns (b: seq<Wal>, steps: seq<Step>)
    requires w.running && w.bufferSize > 0 && WalInv(w)
    ensures Run(b, steps) && b[0] == w && WalInv(b[|steps|]) && AllAnswered(w, b[|steps|])
    ensures forall i :: 0 <= i < |steps| ==> steps[i] == Receive || steps[i] == FlushBatch(NoFault)
    decreases 2 * |w.channel| + if w.batch != [] then 1 else 0
  {
    if Line(w) == [] {
      NobodyWaits(w);
      b, steps := [w], [];
    } else {
      var step := if w.batch != [] then FlushBatch(NoFault) else Receive;
      var w1 := Next(w, step);
      StepKeepsWal(w, step);
      var b1, steps1 := WriterCanAnswerAll(w1);
      Prepend(w, step, b1, steps1);
      if w.batch != [] { FlushAnswers(w, b1[|steps1|]); }
      b, steps := [w] + b1, [step] + steps1;
    }
  }

  lemma Joined(b: seq<Wal>, steps: seq<Step>, c: seq<Wal>, more: seq<Step>)
    requires Run(b, steps) && Run(c, more) && b[|steps|] == c[0]
    ensures Run(b + c[1..], steps + more) && (b + c[1..])[0] == b[0] && (b + c[1..])[|steps + more|] == c[|more|]
  {
    var all, acts := b + c[1..], steps + more;
    forall i | 0 <= i < |acts| ensures Transition(all[i], acts[i], all[i + 1]) {
      if i < |steps| {
        assert Transition(b[i], steps[i], b[i + 1]);
      } else {
        assert Transition(c[i - |steps|], more[i - |steps|], c[i - |steps| + 1]);
      }
    }
  }

  /** From every state of a log whose writer runs, an append that begins now can return nil, under
      the next number; by GroupCommit.NilMeansDurable its record is then on disk. */
  lemma AppendCanSucceed(w: Wal, call: nat, event: Event) returns (b: seq<Wal>, steps: seq<Step>)
    requires w.running && w.bufferSize > 0 && WalInv(w) && call !in w.calls
    ensures Run(b, steps) && b[0] == w
    ensures call in b[|steps|].calls && b[|steps|].calls[call] == Returned(Record(w.lastNumber + 1, event), true)
  {
    var w1 := Next(w, Begin(call, event));
    StepKeepsWal(w, Begin(call, event));
    var b1, steps1 := WriterCanAnswerAll(w1);
    var w2 := b1[|steps1|];
    var w3 := Next(w2, Send(call));
    StepKeepsWal(w2, Send(call));
    var b3, steps3 := WriterCanAnswerAll(w3);
    Prepend(w2, Send(call), b3, steps3);
    Joined(b1, steps1, [w2] + b3, [Send(call)] + steps3);
    b, steps := b1 + ([w2] + b3)[1..], steps1 + ([Send(call)] + steps3);
    Prepend(w, Begin(call, event), b, steps);
    b, steps := [w] + b, [Begin(call, event)] + steps;
  }

  /** Two buffers of appends fit into the channel before the writer takes any, and not one more. */
  lemma {:induction false} ChannelHoldsTwoBuffers(bufferSize: nat, n: nat, event: Event) returns (b: seq<Wal>, steps: seq<Step>)
    requires n <= 2 * bufferSize
    ensures Run(b, steps) && b[0] == Init(bufferSize, 0, EMPTY_FILE)
    ensures var w := b[|steps|]; |w.channel| == n && w.bufferSize == bufferSize && forall c :: c in w.calls ==> c < n
    ensures n == 2 * bufferSize ==> forall c :: !Enabled(b[|steps|], Send(c))
  {
    if n == 0 {
      b, steps := [Init(bufferSize, 0, EMPTY_FILE)], [];
    } else {
      b, steps := ChannelHoldsTwoBuffers(bufferSize, n - 1, event);
      var w := b[|steps|];
      var w1 := Next(w, Begin(n - 1, event));
      var w2 := Next(w1, Send(n - 1));
      var c, more := [w, w1, w2], [Begin(n - 1, event), Send(n - 1)];
      assert Transition(w, more[0], w1) && Transition(w1, more[1], w2);
      Joined(b, steps, c, more);
      b, steps := b + c[1..], steps + more;
    }
  }

  /** From every open state a rotation can be run to its end: the file so far, with what the batch
      adds to it, is put away, and an empty one is open under fresh numbers with the line's rest
      still waiting. */
  lemma RotationCanFinish(w: Wal) returns (b: seq<Wal>)
    requires w.running && w.phase == Open
    ensures Run(b, [Shut(true), StopWriter(NoFault), FinishRotation]) && b[0] == w
    ensures var w' := b[3];
            && w'.running && w'.phase == Open && w'.file == EMPTY_FILE && w'.lastNumber == 0
            && |w'.rotated| == |w.rotated| + 1 && w'.rotated[..|w.rotated|] == w.rotated
            && w'.rotated[|w.rotated|].records == w.file.records + Records(w.batch)
            && w'.batch == [] && w'.channel == w.channel
  {
    var w1 := Next(w, Shut(true));
    var w2 := Next(w1, StopWriter(NoFault));
    b := [w, w1, w2, Next(w2, FinishRotation)];
  }
}
