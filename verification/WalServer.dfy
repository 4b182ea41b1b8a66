/** The log object: the batch writer's loop over whatever its select yields, the flush of one
    batch, and rotation. */
module WalServer {
  import opened ControllerSteps
  import opened GroupCommit

  /** What the writer's select yields: a request, the flush timer, or the close signal. */
  datatype Signal = Arrives(request: Request) | Tick | Closed

  /** The batch writer between two signals. */
  datatype Writer = Writer(file: File, batch: seq<Request>, answered: seq<(Request, bool)>, stopped: bool)

  /** A fault beyond the batch is none. */
  function Clip(fault: Fault, n: nat): (r: Fault)
    ensures Possible(r, n)
  {
    if fault.EncodeFault? && fault.at >= n then NoFault else fault
  }

  function Flushed(w: Writer, fault: Fault): Writer {
    var (f, ok) := Flush(w.file, w.batch, Clip(fault, |w.batch|));
    Writer(f, [], w.answered + Answers(w.batch, ok), w.stopped)
  }

  function WriterStep(bufferSize: nat, w: Writer, signal: Signal, fault: Fault): Writer {
    if w.stopped then w
    else
      match signal
      case Arrives(q) =>
        var w1 := w.(batch := w.batch + [q]);
        if |w1.batch| >= bufferSize then Flushed(w1, fault) else w1
      case Tick => if w.batch == [] then w else Flushed(w, fault)
      case Closed => (if w.batch == [] then w else Flushed(w, fault)).(stopped := true)
  }

  /** A signal, and the fault that the flush it sets off meets, if it sets one off. */
  datatype Heard = Heard(signal: Signal, fault: Fault)

  function WriterRun(bufferSize: nat, w: Writer, heard: seq<Heard>): Writer
    decreases |heard|
  {
    if heard == [] then w
    else
      var last := heard[|heard| - 1];
      WriterStep(bufferSize, WriterRun(bufferSize, w, heard[..|heard| - 1]), last.signal, last.fault)
  }

  /** The requests that arrive before the close signal. */
  function Arrived(heard: seq<Heard>): (r: (seq<Request>, bool))
    decreases |heard|
  {
    if heard == [] then ([], false)
    else
      var (qs, closed) := Arrived(heard[..|heard| - 1]);
      var last := heard[|heard| - 1].signal;
      if closed then (qs, true)
      else if last.Arrives? then (qs + [last.request], false)
      else (qs, last.Closed?)
  }

  /** The log without batching: each request is written, synced and answered on its own. */
  function OneAtATime(f: File, qs: seq<Request>): (r: (File, seq<(Request, bool)>))
    decreases |qs|
  {
    if qs == [] then (f, [])
    else
      var (f1, answers) := OneAtATime(f, qs[..|qs| - 1]);
      var (f2, ok) := Flush(f1, qs[|qs| - 1..], NoFault);
      (f2, answers + Answers(qs[|qs| - 1..], ok))
  }

  lemma {:induction false} OneAtATimeIs(f: File, qs: seq<Request>)
    requires f.synced == |f.records|
    ensures OneAtATime(f, qs) == (File(f.records + Records(qs), |f.records| + |qs|), Answers(qs, true))
    decreases |qs|
  {
    if qs == [] {
      assert f.records + Records(qs) == f.records;
    } else {
      var init, last := qs[..|qs| - 1], qs[|qs| - 1..];
      OneAtATimeIs(f, init);
      assert qs == init + last;
      RecordsAppend(init, last);
      assert (f.records + Records(init)) + Records(last) == f.records + (Records(init) + Records(last));
      assert Answers(qs, true) == Answers(init, true) + Answers(last, true);
    }
  }

  lemma OutstandingTail(qs: seq<Request>, batch: seq<Request>, more: seq<Request>)
    requires |batch| <= |qs| && batch == qs[|qs| - |batch|..]
    ensures batch + more == (qs + more)[|qs| - |batch|..] && (qs + more)[..|qs| - |batch|] == qs[..|qs| - |batch|]
  {}

  /** Flushing the outstanding tail in one go is writing its requests one by one. */
  lemma FlushedAgrees(f: File, w: Writer, qs: seq<Request>)
    requires f.synced == |f.records| && |w.batch| <= |qs| && w.batch == qs[|qs| - |w.batch|..]
    requires (w.file, w.answered) == OneAtATime(f, qs[..|qs| - |w.batch|])
    ensures (Flushed(w, NoFault).file, Flushed(w, NoFault).answered) == OneAtATime(f, qs)
    ensures qs[|qs|..] == [] && qs[..|qs|] == qs
  {
    assert qs == qs[..|qs| - |w.batch|] + w.batch;
    FlushAppends(f, qs[..|qs| - |w.batch|], w.batch);
  }

  lemma FlushAppends(f: File, done: seq<Request>, batch: seq<Request>)
    requires f.synced == |f.records|
    ensures var (f1, answers) := OneAtATime(f, done);
            OneAtATime(f, done + batch) == (Flush(f1, batch, NoFault).0, answers + Answers(batch, true))
  {
    OneAtATimeIs(f, done);
    OneAtATimeIs(f, done + batch);
    RecordsAppend(done, batch);
    assert (f.records + Records(done)) + Records(batch) == f.records + (Records(done) + Records(batch));
    assert Answers(done + batch, true) == Answers(done, true) + Answers(batch, true);
  }

  /** All of the requests but the tail in the batch have been written and answered; and there is
      no tail once the writer has stopped. */
  ghost predicate UpToTail(bufferSize: nat, f: File, w: Writer, qs: seq<Request>, closed: bool) {
    && w.stopped == closed && (closed ==> w.batch == []) && (bufferSize > 0 ==> |w.batch| < bufferSize)
    && |w.batch| <= |qs| && w.batch == qs[|qs| - |w.batch|..]
    && (w.file, w.answered) == OneAtATime(f, qs[..|qs| - |w.batch|])
  }

  lemma HeardAgrees(bufferSize: nat, f: File, w: Writer, qs: seq<Request>, signal: Signal)
    requires f.synced == |f.records| && UpToTail(bufferSize, f, w, qs, false)
    ensures UpToTail(bufferSize, f, WriterStep(bufferSize, w, signal, NoFault),
                     if signal.Arrives? then qs + [signal.request] else qs, signal.Closed?)
  {
    match signal
    case Arrives(q) => ArrivalAgrees(bufferSize, f, w, qs, q);
    case Tick => FlushedAgrees(f, w, qs);
    case Closed => FlushedAgrees(f, w, qs);
  }

  lemma ArrivalAgrees(bufferSize: nat, f: File, w: Writer, qs: seq<Request>, q: Request)
    requires f.synced == |f.records| && UpToTail(bufferSize, f, w, qs, false)
    ensures UpToTail(bufferSize, f, WriterStep(bufferSize, w, Arrives(q), NoFault), qs + [q], false)
  {
    OutstandingTail(qs, w.batch, [q]);
    FlushedAgrees(f, w.(batch := w.batch + [q]), qs + [q]);
  }

  lemma {:induction false} WriterUpToTail(bufferSize: nat, f: File, heard: seq<Heard>)
    requires f.synced == |f.records| && forall i :: 0 <= i < |heard| ==> heard[i].fault == NoFault
    ensures UpToTail(bufferSize, f, WriterRun(bufferSize, Writer(f, [], [], false), heard), Arrived(heard).0, Arrived(heard).1)
    decreases |heard|
  {
    if heard == [] {
      assert OneAtATime(f, []) == (f, []);
    } else {
      var init := heard[..|heard| - 1];
      WriterUpToTail(bufferSize, f, init);
      if !Arrived(init).1 {
        HeardAgrees(bufferSize, f, WriterRun(bufferSize, Writer(f, [], [], false), init), Arrived(init).0, heard[|heard| - 1].signal);
      }
    }
  }

  /** Group commit agrees with the plain log: for every buffer size and every timing, once the
      writer has seen the close signal, file and answers are those of writing the arrived
      requests one at a time; until then only the tail in the batch is outstanding. */
  lemma WriterAgrees(bufferSize: nat, f: File, heard: seq<Heard>)
    requires f.synced == |f.records| && forall i :: 0 <= i < |heard| ==> heard[i].fault == NoFault
    ensures var w, (qs, closed) := WriterRun(bufferSize, Writer(f, [], [], false), heard), Arrived(heard);
            && w.stopped == closed && (closed ==> w.batch == []) && (bufferSize > 0 ==> |w.batch| < bufferSize)
            && |w.batch| <= |qs| && w.batch == qs[|qs| - |w.batch|..]
            && (w.file, w.answered) == OneAtATime(f, qs[..|qs| - |w.batch|])
  {
    WriterUpToTail(bufferSize, f, heard);
  }

  /** Whatever faults occur: what the writer answers with nil is in the synced part of the file. */
  lemma {:induction false} NilAnswerIsSynced(bufferSize: nat, w: Writer, heard: seq<Heard>)
    requires w.file.synced <= |w.file.records|
    ensures var w' := WriterRun(bufferSize, w, heard);
            && w.answered <= w'.answered && w'.file.synced <= |w'.file.records|
            && forall k :: |w.answered| <= k < |w'.answered| && w'.answered[k].1 ==> InSynced(w'.file, w'.answered[k].0.record)
    decreases |heard|
  {
    if heard != [] {
      var before, last := WriterRun(bufferSize, w, heard[..|heard| - 1]), heard[|heard| - 1];
      NilAnswerIsSynced(bufferSize, w, heard[..|heard| - 1]);
      var batch := if last.signal.Arrives? then before.batch + [last.signal.request] else before.batch;
      FlushedSyncs(before.(batch := batch), last.fault, |w.answered|);
    }
  }

  lemma FlushedSyncs(w: Writer, fault: Fault, n: nat)
    requires w.file.synced <= |w.file.records| && n <= |w.answered|
    requires forall k :: n <= k < |w.answered| && w.answered[k].1 ==> InSynced(w.file, w.answered[k].0.record)
    ensures var w' := Flushed(w, fault);
            && w.answered <= w'.answered && w'.file.synced <= |w'.file.records|
            && forall k :: n <= k < |w'.answered| && w'.answered[k].1 ==> InSynced(w'.file, w'.answered[k].0.record)
  {
    var w', fault' := Flushed(w, fault), Clip(fault, |w.batch|);
    FlushSyncs(w.file, w.batch, fault', Record(0, Event(EnqueueEvent, "")));
    forall k | n <= k < |w'.answered| && w'.answered[k].1 ensures InSynced(w'.file, w'.answered[k].0.record) {
      FlushSyncs(w.file, w.batch, fault', w'.answered[k].0.record);
      if k >= |w.answered| {
        assert Records(w.batch)[k - |w.answered|] == w'.answered[k].0.record;
      }
    }
  }

  // ---- The writer within the step system ----

  function View(w: Wal): Writer {
    Writer(w.file, w.batch, w.answered, !w.running)
  }

  /** The step system lets other steps come between the arrival that fills a batch and its flush. */
  predicate Full(w: Wal) {
    w.batch != [] && |w.batch| >= w.bufferSize
  }

  function Newest(w: Wal): Request
    requires Full(w)
  {
    w.batch[|w.batch| - 1]
  }

  /** The writer before the arrival whose flush is still to come, if there is one. */
  function Behind(w: Wal): Writer {
    if Full(w) then View(w).(batch := w.batch[..|w.batch| - 1]) else View(w)
  }

  /** What the writer has dealt with once a step is done. */
  function HeardIn(w: Wal, step: Step): seq<Heard>
    requires Enabled(w, step)
  {
    match step
    case Receive => if |w.batch| + 1 < w.bufferSize then [Heard(Arrives(w.channel[0]), NoFault)] else []
    case FlushBatch(fault) => if Full(w) then [Heard(Arrives(Newest(w)), fault)] else [Heard(Tick, fault)]
    case StopWriter(fault) =>
      if Full(w) then [Heard(Arrives(Newest(w)), fault)] + [Heard(Closed, NoFault)] else [Heard(Closed, fault)]
    case _ => []
  }

  ghost function HeardOver(b: seq<Wal>, steps: seq<Step>, i: nat): seq<Heard>
    requires Run(b, steps) && i < |b|
    decreases i
  {
    if i == 0 then []
    else
      assert Transition(b[i - 1], steps[i - 1], b[i]);
      HeardOver(b, steps, i - 1) + HeardIn(b[i - 1], steps[i - 1])
  }

  lemma OneHeard(bufferSize: nat, w: Writer, h: Heard)
    ensures WriterRun(bufferSize, w, [h]) == WriterStep(bufferSize, w, h.signal, h.fault)
  {
    assert [h][..0] == [];
  }

  lemma {:induction false} HeardMore(bufferSize: nat, w: Writer, heard: seq<Heard>, more: seq<Heard>)
    ensures WriterRun(bufferSize, w, heard + more) == WriterRun(bufferSize, WriterRun(bufferSize, w, heard), more)
    decreases |more|
  {
    if more == [] {
      assert heard + more == heard;
    } else {
      HeardMore(bufferSize, w, heard, more[..|more| - 1]);
      assert (heard + more)[..|heard + more| - 1] == heard + more[..|more| - 1];
    }
  }

  lemma StepIsWriterRun(w: Wal, step: Step)
    requires Enabled(w, step) && |w.batch| <= w.bufferSize && !step.FinishRotation? && !step.FailRotation?
    ensures WriterRun(w.bufferSize, Behind(w), HeardIn(w, step)) == Behind(Next(w, step))
    ensures |Next(w, step).batch| <= w.bufferSize == Next(w, step).bufferSize
  {
    match step
    case Receive => OneHeard(w.bufferSize, Behind(w), Heard(Arrives(w.channel[0]), NoFault));
    case FlushBatch(fault) => FlushIsHeard(w, fault);
    case StopWriter(fault) => StopIsHeard(w, fault);
    case _ =>
  }

  lemma FlushIsHeard(w: Wal, fault: Fault)
    requires Enabled(w, FlushBatch(fault)) && |w.batch| <= w.bufferSize
    ensures WriterRun(w.bufferSize, Behind(w), HeardIn(w, FlushBatch(fault))) == View(FlushNext(w, fault))
  {
    OneHeard(w.bufferSize, Behind(w), HeardIn(w, FlushBatch(fault))[0]);
    if Full(w) { assert w.batch[..|w.batch| - 1] + [Newest(w)] == w.batch; }
  }

  lemma StopIsHeard(w: Wal, fault: Fault)
    requires Enabled(w, StopWriter(fault)) && |w.batch| <= w.bufferSize
    ensures WriterRun(w.bufferSize, Behind(w), HeardIn(w, StopWriter(fault))) == View(Next(w, StopWriter(fault)))
  {
    if Full(w) {
      FlushIsHeard(w, fault);
      var flushed := View(FlushNext(w, fault));
      HeardMore(w.bufferSize, Behind(w), [Heard(Arrives(Newest(w)), fault)], [Heard(Closed, NoFault)]);
      OneHeard(w.bufferSize, flushed, Heard(Closed, NoFault));
    } else {
      OneHeard(w.bufferSize, Behind(w), Heard(Closed, fault));
    }
  }

  /** Between rotations, the batch writer of the step system is the loop of the log object: at
      every moment of every run it is where the loop is after the signals heard so far, save for
      an arrival whose flush is still to come. */
  lemma {:induction false} WriterOfEveryRun(b: seq<Wal>, steps: seq<Step>, i: nat)
    requires Run(b, steps) && i < |b| && |b[0].batch| <= b[0].bufferSize
    requires forall k :: 0 <= k < i ==> !steps[k].FinishRotation? && !steps[k].FailRotation?
    ensures WriterRun(b[0].bufferSize, Behind(b[0]), HeardOver(b, steps, i)) == Behind(b[i])
    ensures |b[i].batch| <= b[i].bufferSize == b[0].bufferSize
    decreases i
  {
    if i > 0 {
      WriterOfEveryRun(b, steps, i - 1);
      assert Transition(b[i - 1], steps[i - 1], b[i]);
      StepIsWriterRun(b[i - 1], steps[i - 1]);
      HeardMore(b[0].bufferSize, Behind(b[0]), HeardOver(b, steps, i - 1), HeardIn(b[i - 1], steps[i - 1]));
    }
  }

  /** The converse: each turn of the loop is one or two steps of the step system. */
  lemma SignalAsSteps(w: Wal, h: Heard) returns (b: seq<Wal>, steps: seq<Step>)
    requires w.running && |w.batch| < w.bufferSize
    requires h.signal.Arrives? ==> w.channel != [] && w.channel[0] == h.signal.request
    requires h.signal.Closed? ==> w.phase != Open
    ensures Run(b, steps) && b[0] == w && |steps| <= 2
    ensures View(b[|steps|]) == WriterStep(w.bufferSize, View(w), h.signal, h.fault)
  {
    match h.signal
    case Arrives(q) =>
      var w1 := Next(w, Receive);
      if |w1.batch| >= w.bufferSize {
        steps := [Receive, FlushBatch(Clip(h.fault, |w1.batch|))];
        b := [w, w1, Next(w1, steps[1])];
      } else {
        steps, b := [Receive], [w, w1];
      }
    case Tick =>
      steps := if w.batch == [] then [] else [FlushBatch(Clip(h.fault, |w.batch|))];
      b := if w.batch == [] then [w] else [w, Next(w, steps[0])];
    case Closed =>
      steps := [StopWriter(if w.batch == [] then NoFault else Clip(h.fault, |w.batch|))];
      b := [w, Next(w, steps[0])];
  }

  /** What the second half of a rotation makes of file, rotated files, last number and close
      signal. */
  datatype Renewal = Renewal(file: File, rotated: seq<File>, lastNumber: nat, closed: bool)

  function Renewed(file: File, rotated: seq<File>, lastNumber: nat, closes: bool, renames: bool, opens: bool): Renewal {
    if closes && renames then
      Renewal(EMPTY_FILE, rotated + [file], if opens then 0 else lastNumber, !opens)
    else Renewal(file, rotated, lastNumber, true)
  }

  /** It is the rotation step of the step system that fails where the object fails, if it does. */
  lemma RenewalIsStep(w: Wal, closes: bool, renames: bool, opens: bool)
    requires !w.running && w.phase == Rotating
    ensures var step := if !closes then FailRotation(CloseFails) else if !renames then FailRotation(RenameFails)
                        else if !opens then FailRotation(OpenFails) else FinishRotation;
            && Enabled(w, step)
            && var w' := Next(w, step);
               Renewed(w.file, w.rotated, w.lastNumber, closes, renames, opens)
               == Renewal(w'.file, w'.rotated, w'.lastNumber, w'.phase != Open)
  {}

  const DEFAULT_BUFFER_SIZE: nat := 100

  class WAL {
    const bufferSize: nat
    var lastNumber: nat
    var file: File
    var rotated: seq<File>
    var isClosed: bool
    // everything sent on reply channels so far
    var answered: seq<(Request, bool)>

    constructor (size: int, lastNumber: nat, file: File)
      ensures bufferSize == (if size <= 0 then 100 else size)
      ensures this.lastNumber == lastNumber && this.file == file && rotated == [] && !isClosed && answered == []
    {
      bufferSize := if size <= 0 then DEFAULT_BUFFER_SIZE else size;
      this.lastNumber, this.file, rotated, isClosed, answered := lastNumber, file, [], false, [];
    }

    /** The first half of an append: a number is drawn under the lock. */
    method DrawNumber(event: Event) returns (r: Record)
      modifies `lastNumber
      ensures lastNumber == old(lastNumber) + 1 && r == Record(lastNumber, event)
    {
      lastNumber := lastNumber + 1;
      r := Record(lastNumber, event);
    }

    method FlushBatch(batch: seq<Request>, fault: Fault)
      requires Possible(fault, |batch|)
      modifies `file, `answered
      ensures var (f, ok) := Flush(old(file), batch, fault);
              file == f && answered == old(answered) + Answers(batch, ok)
    {
      var ok := true;
      var i := 0;
      while i < |batch| && ok
        invariant 0 <= i <= |batch|
        invariant ok <==> !(fault.EncodeFault? && fault.at < i)
        invariant !ok ==> fault.at == i - 1
        invariant file == File(old(file).records + Records(batch[..if ok then i else i - 1]), old(file).synced)
        invariant answered == old(answered)
      {
        if fault == EncodeFault(i) {
          ok := false;
        } else {
          file := file.(records := file.records + [batch[i].record]);
          assert Records(batch[..i + 1]) == Records(batch[..i]) + [batch[i].record];
        }
        i := i + 1;
      }
      assert batch[..|batch|] == batch;
      if ok {
        if fault == SyncFault {
          ok := false;
        } else {
          file := file.(synced := |file.records|);
        }
      }
      for k := 0 to |batch|
        invariant file == Flush(old(file), batch, fault).0
        invariant answered == old(answered) + Answers(batch[..k], ok)
      {
        answered := answered + [(batch[k], ok)];
        assert Answers(batch[..k + 1], ok) == Answers(batch[..k], ok) + [(batch[k], ok)];
      }
    }

    /** The writer's loop over the signals of its select, with the fault each flush meets. */
    method BatchWriter(heard: seq<Heard>) returns (batch: seq<Request>, stopped: bool)
      modifies `file, `answered
      ensures WriterRun(bufferSize, Writer(old(file), [], old(answered), false), heard)
           == Writer(file, batch, answered, stopped)
    {
      batch, stopped := [], false;
      for i := 0 to |heard|
        invariant WriterRun(bufferSize, Writer(old(file), [], old(answered), false), heard[..i])
               == Writer(file, batch, answered, stopped)
        invariant !stopped
      {
        assert heard[..i + 1][..i] == heard[..i];
        match heard[i].signal
        case Arrives(request) =>
          batch := batch + [request];
          if |batch| >= bufferSize {
            FlushBatch(batch, Clip(heard[i].fault, |batch|));
            batch := [];
          }
        case Tick =>
          if |batch| > 0 {
            FlushBatch(batch, Clip(heard[i].fault, |batch|));
            batch := [];
          }
        case Closed =>
          if |batch| > 0 {
            FlushBatch(batch, Clip(heard[i].fault, |batch|));
            batch := [];
          }
          stopped := true;
          StoppedStays(bufferSize, Writer(old(file), [], old(answered), false), heard, i + 1);
          return;
      }
      assert heard[..|heard|] == heard;
    }

    /** The first lock-held section of a rotation. */
    method BeginRotation() returns (ok: bool)
      modifies `isClosed
      ensures ok == !old(isClosed) && isClosed
    {
      if isClosed {
        return false;
      }
      isClosed := true;
      return true;
    }

    /** The second one, after the writer has stopped; a failure leaves the log closed. */
    method FinishRotation(closes: bool, renames: bool, opens: bool) returns (ok: bool)
      requires isClosed
      modifies this
      ensures ok == (closes && renames && opens) && answered == old(answered)
      ensures closes && renames ==> rotated == old(rotated) + [old(file)] && file == File([], 0)
      ensures !closes || !renames ==> rotated == old(rotated) && file == old(file)
      ensures lastNumber == (if ok then 0 else old(lastNumber)) && isClosed == !ok
      ensures Renewal(file, rotated, lastNumber, isClosed)
           == Renewed(old(file), old(rotated), old(lastNumber), closes, renames, opens)
      ensures Concat(rotated) + file.records == old(Concat(rotated) + file.records)
    {
      if !closes || !renames {
        return false;
      }
      assert (rotated + [file])[..|rotated|] == rotated;
      rotated := rotated + [file];
      file := EMPTY_FILE;
      if !opens {
        return false;
      }
      lastNumber := 0;
      isClosed := false;
      return true;
    }
  }

  lemma {:induction false} StoppedStays(bufferSize: nat, w: Writer, heard: seq<Heard>, i: nat)
    requires i <= |heard| && WriterRun(bufferSize, w, heard[..i]).stopped
    ensures WriterRun(bufferSize, w, heard) == WriterRun(bufferSize, w, heard[..i])
    decreases |heard|
  {
    if i < |heard| {
      assert heard[..|heard| - 1][..i] == heard[..i];
      StoppedStays(bufferSize, w, heard[..|heard| - 1], i);
    } else {
      assert heard[..i] == heard;
    }
  }
}
