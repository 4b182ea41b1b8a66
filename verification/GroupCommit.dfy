/** The group-commit log as a step system: any number of appenders, one batch writer behind a
    bounded channel, rotation and close, and input/output faults at any point. */
module GroupCommit {
  import opened ControllerSteps

  /** A logged event with the sequence number its appender drew. */
  datatype Record = Record(number: nat, event: Event)

  /** One append on its way; the call number stands for its reply channel. */
  datatype Request = Request(record: Record, call: nat)

  /** The records written to a file, and how many of them are known to be on disk. */
  datatype File = File(records: seq<Record>, synced: nat)

  datatype Fault = NoFault | EncodeFault(at: nat) | SyncFault

  datatype Call = Begun(record: Record) | Waiting(record: Record) | Returned(record: Record, ok: bool)

  const EMPTY_FILE := File([], 0)

  function Records(rs: seq<Request>): seq<Record> {
    seq(|rs|, i requires 0 <= i < |rs| => rs[i].record)
  }

  predicate Possible(fault: Fault, n: nat) {
    fault.EncodeFault? ==> fault.at < n
  }

  /** One batch: every record is written, then one sync covers them all. A record that cannot be
      encoded ends the writing; all requests of the batch get the same answer. */
  function Flush(f: File, batch: seq<Request>, fault: Fault): (r: (File, bool))
    requires Possible(fault, |batch|)
  {
    match fault
    case NoFault => (File(f.records + Records(batch), |f.records| + |batch|), true)
    case EncodeFault(at) => (File(f.records + Records(batch[..at]), f.synced), false)
    case SyncFault => (File(f.records + Records(batch), f.synced), false)
  }

  /** The close signal is given in every phase but Open; a failed rotation never reopens. */
  datatype Phase = Open | Rotating | Closing | Broken

  datatype Wal = Wal(
    bufferSize: nat,
    lastNumber: nat,
    channel: seq<Request>,
    batch: seq<Request>,
    file: File,
    rotated: seq<File>,
    running: bool,                      // the batch writer
    phase: Phase,
    calls: map<nat, Call>,
    accepted: seq<Request>,             // everything ever sent into the channel, in order
    answered: seq<(Request, bool)>)     // everything ever answered, in order

  /** Where a rotation can fail: it then stays closed. */
  datatype RotationFault = CloseFails | RenameFails | OpenFails

  datatype Step =
    | Begin(call: nat, event: Event)
    | Send(call: nat)
    | Refuse(call: nat)
    | Receive
    | FlushBatch(fault: Fault)
    | Shut(rotate: bool)
    | StopWriter(fault: Fault)
    | FinishRotation
    | FailRotation(stage: RotationFault)

  function Init(bufferSize: nat, lastNumber: nat, file: File): Wal {
    Wal(bufferSize, lastNumber, [], [], file, [], true, Open, map[], [], [])
  }

  /** A refusal needs the close signal, but a caller may act on one that has since been renewed. */
  predicate Enabled(w: Wal, step: Step) {
    match step
    case Begin(call, _) => call !in w.calls
    case Send(call) => call in w.calls && w.calls[call].Begun? && |w.channel| < 2 * w.bufferSize
    case Refuse(call) => call in w.calls && w.calls[call].Begun?
    case Receive => w.running && w.channel != [] && |w.batch| < w.bufferSize
    case FlushBatch(fault) => w.running && w.batch != [] && Possible(fault, |w.batch|)
    case Shut(_) => w.phase == Open
    case StopWriter(fault) => w.running && w.phase != Open && Possible(fault, |w.batch|) && (w.batch == [] ==> fault == NoFault)
    case FinishRotation => !w.running && w.phase == Rotating
    case FailRotation(_) => !w.running && w.phase == Rotating
  }

  function Answers(batch: seq<Request>, ok: bool): seq<(Request, bool)> {
    seq(|batch|, i requires 0 <= i < |batch| => (batch[i], ok))
  }

  predicate Asked(batch: seq<Request>, call: nat) {
    exists i :: 0 <= i < |batch| && batch[i].call == call
  }

  function Reply(calls: map<nat, Call>, batch: seq<Request>, ok: bool): map<nat, Call> {
    map c | c in calls :: if Asked(batch, c) then Returned(calls[c].record, ok) else calls[c]
  }

  function FlushNext(w: Wal, fault: Fault): Wal
    requires Possible(fault, |w.batch|)
  {
    var (file, ok) := Flush(w.file, w.batch, fault);
    w.(file := file, batch := [], calls := Reply(w.calls, w.batch, ok), answered := w.answered + Answers(w.batch, ok))
  }

  function Next(w: Wal, step: Step): Wal
    requires Enabled(w, step)
  {
    match step
    case Begin(call, event) =>
      w.(lastNumber := w.lastNumber + 1, calls := w.calls[call := Begun(Record(w.lastNumber + 1, event))])
    case Send(call) =>
      var request := Request(w.calls[call].record, call);
      w.(channel := w.channel + [request], accepted := w.accepted + [request],
         calls := w.calls[call := Waiting(w.calls[call].record)])
    case Refuse(call) => w.(calls := w.calls[call := Returned(w.calls[call].record, false)])
    case Receive => w.(channel := w.channel[1..], batch := w.batch + [w.channel[0]])
    case FlushBatch(fault) => FlushNext(w, fault)
    case Shut(rotate) => w.(phase := if rotate then Rotating else Closing)
    case StopWriter(fault) => (if w.batch == [] then w else FlushNext(w, fault)).(running := false)
    case FinishRotation =>
      w.(rotated := w.rotated + [w.file], file := EMPTY_FILE, lastNumber := 0, phase := Open, running := true)
    case FailRotation(stage) =>
      (if stage.OpenFails? then w.(rotated := w.rotated + [w.file], file := EMPTY_FILE) else w).(phase := Broken)
  }

  predicate Transition(w: Wal, step: Step, w': Wal) {
    Enabled(w, step) && w' == Next(w, step)
  }

  predicate Run(b: seq<Wal>, steps: seq<Step>) {
    && |b| == |steps| + 1
    && forall i :: 0 <= i < |steps| ==> Transition(b[i], steps[i], b[i + 1])
  }

  // ---- The simple log ----

  function Concat(files: seq<File>): seq<Record>
    decreases |files|
  {
    if files == [] then [] else Concat(files[..|files| - 1]) + files[|files| - 1].records
  }

  /** Everything written so far: rotated files, then the current one. */
  function Written(w: Wal): seq<Record> {
    Concat(w.rotated) + w.file.records
  }

  /** Rotated files, current file, batch and channel together are what the log was opened with,
      then the accepted requests in order. */
  ghost predicate Simple(w: Wal, base: seq<Record>) {
    Written(w) + Records(w.batch) + Records(w.channel) == base + Records(w.accepted)
  }

  function Missing(w: Wal, base: seq<Record>): int {
    |base| + |w.accepted| - |Written(w)| - |w.batch| - |w.channel|
  }

  predicate LosesRecords(step: Step) {
    (step.FlushBatch? || step.StopWriter?) && step.fault.EncodeFault?
  }

  lemma RecordsAppend(a: seq<Request>, b: seq<Request>)
    ensures Records(a + b) == Records(a) + Records(b)
  {}

  lemma WrittenByFlush(w: Wal, fault: Fault)
    requires Possible(fault, |w.batch|)
    ensures Written(FlushNext(w, fault)) == Written(w) + Records(if fault.EncodeFault? then w.batch[..fault.at] else w.batch)
  {}

  lemma FlushStaysSimple(w: Wal, base: seq<Record>, fault: Fault)
    requires Possible(fault, |w.batch|) && !fault.EncodeFault? && Simple(w, base)
    ensures Simple(FlushNext(w, fault), base)
  {
    var w' := FlushNext(w, fault);
    WrittenByFlush(w, fault);
    assert Written(w') + Records(w'.batch) == Written(w) + Records(w.batch);
  }

  lemma RotationKeepsWritten(w: Wal)
    ensures Written(w.(rotated := w.rotated + [w.file], file := EMPTY_FILE)) == Written(w)
  {
    assert (w.rotated + [w.file])[..|w.rotated|] == w.rotated;
  }

  lemma StepStaysSimple(w: Wal, base: seq<Record>, step: Step)
    requires Enabled(w, step) && Simple(w, base) && !LosesRecords(step)
    ensures Simple(Next(w, step), base)
  {
    var w' := Next(w, step);
    match step
    case Send(call) =>
      var request := Request(w.calls[call].record, call);
      RecordsAppend(w.channel, [request]);
      RecordsAppend(w.accepted, [request]);
      assert (base + Records(w.accepted)) + Records([request]) == base + (Records(w.accepted) + Records([request]));
      assert Written(w) + Records(w.batch) + (Records(w.channel) + Records([request]))
          == (Written(w) + Records(w.batch) + Records(w.channel)) + Records([request]);
    case Receive =>
      assert w.channel == [w.channel[0]] + w.channel[1..];
      RecordsAppend([w.channel[0]], w.channel[1..]);
      RecordsAppend(w.batch, [w.channel[0]]);
      assert Written(w) + (Records(w.batch) + Records([w.channel[0]])) + Records(w.channel[1..])
          == Written(w) + Records(w.batch) + (Records([w.channel[0]]) + Records(w.channel[1..]));
    case FlushBatch(fault) => FlushStaysSimple(w, base, fault);
    case StopWriter(fault) => if w.batch != [] { FlushStaysSimple(w, base, fault); }
    case FinishRotation => RotationKeepsWritten(w);
    case FailRotation(_) => RotationKeepsWritten(w);
    case _ =>
  }

  /** What is missing never comes back, and an encoding fault always loses something. */
  lemma StepMissing(w: Wal, base: seq<Record>, step: Step)
    requires Enabled(w, step)
    ensures Missing(Next(w, step), base) >= Missing(w, base)
    ensures LosesRecords(step) ==> Missing(Next(w, step), base) > Missing(w, base)
  {
    match step
    case FlushBatch(fault) => WrittenByFlush(w, fault);
    case StopWriter(fault) => WrittenByFlush(w, fault);
    case FinishRotation => RotationKeepsWritten(w);
    case FailRotation(_) => RotationKeepsWritten(w);
    case _ =>
  }

  lemma SimpleMissesNothing(w: Wal, base: seq<Record>)
    requires Simple(w, base)
    ensures Missing(w, base) == 0
  {
    assert |Written(w) + Records(w.batch) + Records(w.channel)| == |base + Records(w.accepted)|;
  }

  /** Group commit refines the simple one-at-a-time log: for every buffer size, every timing of
      flushes and any number of rotations, successful or not, rotated files, current file, batch
      and channel are exactly the accepted requests in order, at a given moment, if and only if
      no record has failed to encode by then. Failing syncs and failing rotations lose nothing. */
  lemma {:induction false} RefinesSimpleLogIff(base: seq<Record>, b: seq<Wal>, steps: seq<Step>, i: nat)
    requires Run(b, steps) && Simple(b[0], base) && i < |b|
    ensures Simple(b[i], base) <==> forall k :: 0 <= k < i ==> !LosesRecords(steps[k])
    ensures Missing(b[i], base) >= 0 && (Missing(b[i], base) == 0 ==> Simple(b[i], base))
    decreases i
  {
    if i == 0 {
      SimpleMissesNothing(b[0], base);
    } else {
      RefinesSimpleLogIff(base, b, steps, i - 1);
      assert Transition(b[i - 1], steps[i - 1], b[i]);
      StepMissing(b[i - 1], base, steps[i - 1]);
      if Simple(b[i - 1], base) && !LosesRecords(steps[i - 1]) {
        StepStaysSimple(b[i - 1], base, steps[i - 1]);
        SimpleMissesNothing(b[i], base);
      } else if Simple(b[i], base) {
        SimpleMissesNothing(b[i], base);
      }
    }
  }

  /** From opening the log over a file: at any moment of any run, what was ever written, then
      batch and channel, is the file's own records and then the accepted requests in order, if
      and only if no record has failed to encode by then. */
  lemma OpenedLogIsSimpleIff(bufferSize: nat, lastNumber: nat, file: File, b: seq<Wal>, steps: seq<Step>, i: nat)
    requires Run(b, steps) && i < |b| && b[0] == Init(bufferSize, lastNumber, file)
    ensures Written(b[i]) + Records(b[i].batch) + Records(b[i].channel) == file.records + Records(b[i].accepted)
        <==> forall k :: 0 <= k < i ==> !LosesRecords(steps[k])
  {
    assert Simple(Init(bufferSize, lastNumber, file), file.records);
    RefinesSimpleLogIff(file.records, b, steps, i);
  }

  // ---- Answers ----

  /** Accepted and not yet answered. */
  function Line(w: Wal): seq<Request> {
    w.batch + w.channel
  }

  ghost predicate InSynced(f: File, r: Record) {
    exists i :: 0 <= i < f.synced && i < |f.records| && f.records[i] == r
  }

  /** A record on disk: in the synced part of the current file or of a rotated one. */
  ghost predicate Durable(w: Wal, r: Record) {
    InSynced(w.file, r) || exists k :: 0 <= k < |w.rotated| && InSynced(w.rotated[k], r)
  }

  ghost predicate Distinct(line: seq<Request>) {
    forall i, j :: 0 <= i < j < |line| ==> line[i].call != line[j].call
  }

  /** Callers and the line agree: one request per waiting call, none for any other; and what was
      answered nil is on disk. */
  ghost predicate CallsOk(w: Wal) {
    && (forall i :: 0 <= i < |Line(w)| ==>
          Line(w)[i].call in w.calls && w.calls[Line(w)[i].call] == Waiting(Line(w)[i].record))
    && Distinct(Line(w))
    && (forall c :: c in w.calls && w.calls[c].Waiting? ==> Asked(Line(w), c))
    && (forall c :: c in w.calls && w.calls[c].Returned? && w.calls[c].ok ==> Durable(w, w.calls[c].record))
  }

  function Requests(answered: seq<(Request, bool)>): seq<Request> {
    seq(|answered|, i requires 0 <= i < |answered| => answered[i].0)
  }

  /** First in, first answered: the accepted requests are the answered ones, then the line. */
  ghost predicate InOrder(w: Wal) {
    w.accepted == Requests(w.answered) + Line(w)
  }

  ghost predicate Bounded(w: Wal) {
    |w.batch| <= w.bufferSize && |w.channel| <= 2 * w.bufferSize && w.file.synced <= |w.file.records|
  }

  ghost predicate WalInv(w: Wal) {
    CallsOk(w) && InOrder(w) && Bounded(w)
  }

  // ---- Sending ----

  lemma SendKeeps(w: Wal, call: nat)
    requires Enabled(w, Send(call)) && WalInv(w)
    ensures WalInv(Next(w, Send(call)))
  {
    var w', q := Next(w, Send(call)), Request(w.calls[call].record, call);
    assert Line(w') == Line(w) + [q];
    assert Requests(w.answered) + (Line(w) + [q]) == (Requests(w.answered) + Line(w)) + [q];
    assert Line(w')[|Line(w)|] == q;
    forall c | c in w'.calls && w'.calls[c].Waiting? ensures Asked(Line(w'), c) {
      if c != call {
        var i :| 0 <= i < |Line(w)| && Line(w)[i].call == c;
        assert Line(w')[i].call == c;
      }
    }
    forall c | c in w'.calls && w'.calls[c].Returned? && w'.calls[c].ok ensures Durable(w', w'.calls[c].record) {
      assert Durable(w, w.calls[c].record);
    }
  }

  lemma ReceiveKeeps(w: Wal)
    requires Enabled(w, Receive) && WalInv(w)
    ensures WalInv(Next(w, Receive))
  {
    var w' := Next(w, Receive);
    assert Line(w') == Line(w) by {
      assert w.channel == [w.channel[0]] + w.channel[1..];
    }
    forall c | c in w'.calls && w'.calls[c].Returned? && w'.calls[c].ok ensures Durable(w', w'.calls[c].record) {
      assert Durable(w, w.calls[c].record);
    }
  }

  /** Steps of a caller outside the line, and steps of the close protocol that touch no file. */
  lemma AsideKeeps(w: Wal, step: Step)
    requires Enabled(w, step) && WalInv(w)
    requires step.Begin? || step.Refuse? || step.Shut?
    ensures WalInv(Next(w, step))
  {
    var w' := Next(w, step);
    assert Line(w') == Line(w);
    forall i | 0 <= i < |Line(w')|
      ensures Line(w')[i].call in w'.calls && w'.calls[Line(w')[i].call] == Waiting(Line(w')[i].record)
    {
      assert Line(w)[i].call in w.calls && w.calls[Line(w)[i].call].Waiting?;
    }
    forall c | c in w'.calls && w'.calls[c].Waiting? ensures Asked(Line(w'), c) {
      assert w.calls[c].Waiting?;
    }
    forall c | c in w'.calls && w'.calls[c].Returned? && w'.calls[c].ok ensures Durable(w', w'.calls[c].record) {
      assert Durable(w, w.calls[c].record);
    }
  }

  lemma RotationKeeps(w: Wal, step: Step)
    requires Enabled(w, step) && WalInv(w) && (step.FinishRotation? || step.FailRotation?)
    ensures WalInv(Next(w, step))
  {
    var w' := Next(w, step);
    assert Line(w') == Line(w);
    forall c | c in w'.calls && w'.calls[c].Returned? && w'.calls[c].ok ensures Durable(w', w'.calls[c].record) {
      RotatedStaysDurable(w, w', w.calls[c].record);
    }
  }

  lemma RotatedStaysDurable(w: Wal, w': Wal, r: Record)
    requires Durable(w, r)
    requires (w'.file == w.file && w'.rotated == w.rotated) || w'.rotated == w.rotated + [w.file]
    ensures Durable(w', r)
  {
    if InSynced(w.file, r) {
      if w'.file != w.file || w'.rotated != w.rotated {
        assert InSynced(w'.rotated[|w.rotated|], r);
      }
    } else {
      var k :| 0 <= k < |w.rotated| && InSynced(w.rotated[k], r);
      assert InSynced(w'.rotated[k], r);
    }
  }

  // ---- Flushing ----

  /** A flush only extends the synced part, and on success it covers the whole batch. */
  lemma FlushSyncs(f: File, batch: seq<Request>, fault: Fault, r: Record)
    requires Possible(fault, |batch|) && f.synced <= |f.records|
    ensures InSynced(f, r) ==> InSynced(Flush(f, batch, fault).0, r)
    ensures Flush(f, batch, fault).1 && r in Records(batch) ==> InSynced(Flush(f, batch, fault).0, r)
    ensures Flush(f, batch, fault).0.synced <= |Flush(f, batch, fault).0.records|
  {
    var f' := Flush(f, batch, fault).0;
    if InSynced(f, r) {
      var i :| 0 <= i < f.synced && i < |f.records| && f.records[i] == r;
      assert f'.records[i] == r;
    }
    if Flush(f, batch, fault).1 && r in Records(batch) {
      var i :| 0 <= i < |batch| && Records(batch)[i] == r;
      assert f'.records[|f.records| + i] == r;
    }
  }

  lemma FlushKeepsDurable(w: Wal, fault: Fault, r: Record)
    requires Possible(fault, |w.batch|) && Bounded(w)
    requires Durable(w, r) || (Flush(w.file, w.batch, fault).1 && r in Records(w.batch))
    ensures Durable(FlushNext(w, fault), r)
  {
    FlushSyncs(w.file, w.batch, fault, r);
  }

  /** A request of the batch belongs to its caller, and to no other place in the line. */
  lemma BatchIsFront(w: Wal, c: nat)
    requires CallsOk(w) && c in w.calls
    ensures Asked(w.batch, c) ==> w.calls[c].Waiting? && w.calls[c].record in Records(w.batch) && !Asked(w.channel, c)
  {
    if Asked(w.batch, c) {
      var i :| 0 <= i < |w.batch| && w.batch[i].call == c;
      assert Line(w)[i] == w.batch[i] && Records(w.batch)[i] == w.batch[i].record;
      forall j | 0 <= j < |w.channel| ensures w.channel[j].call != c {
        assert Line(w)[|w.batch| + j] == w.channel[j];
      }
    }
  }

  lemma FlushKeeps(w: Wal, fault: Fault)
    requires Possible(fault, |w.batch|) && WalInv(w)
    ensures WalInv(FlushNext(w, fault))
  {
    FlushKeepsCalls(w, fault);
    FlushKeepsOrder(w, fault);
    FlushSyncs(w.file, w.batch, fault, Record(0, Event(EnqueueEvent, "")));
  }

  lemma FlushKeepsOrder(w: Wal, fault: Fault)
    requires Possible(fault, |w.batch|) && InOrder(w)
    ensures InOrder(FlushNext(w, fault))
  {
    var w', ok := FlushNext(w, fault), Flush(w.file, w.batch, fault).1;
    assert Requests(w'.answered) == Requests(w.answered) + w.batch;
    assert Line(w') == w.channel;
  }

  lemma FlushKeepsCalls(w: Wal, fault: Fault)
    requires Possible(fault, |w.batch|) && CallsOk(w) && Bounded(w)
    ensures CallsOk(FlushNext(w, fault))
  {
    var w' := FlushNext(w, fault);
    assert Line(w') == w.channel;
    ChannelStillWaits(w, w'.calls, Flush(w.file, w.batch, fault).1);
    forall c | c in w'.calls && w'.calls[c].Returned? && w'.calls[c].ok ensures Durable(w', w'.calls[c].record) {
      AnsweredIsDurable(w, fault, c);
    }
  }

  lemma AnsweredIsDurable(w: Wal, fault: Fault, c: nat)
    requires Possible(fault, |w.batch|) && CallsOk(w) && Bounded(w) && c in w.calls
    requires var w' := FlushNext(w, fault); w'.calls[c].Returned? && w'.calls[c].ok
    ensures Durable(FlushNext(w, fault), w.calls[c].record)
  {
    BatchIsFront(w, c);
    FlushKeepsDurable(w, fault, w.calls[c].record);
  }

  /** What is left in the channel after a flush is waited for as before. */
  lemma ChannelStillWaits(w: Wal, calls': map<nat, Call>, ok: bool)
    requires CallsOk(w) && calls' == Reply(w.calls, w.batch, ok)
    ensures forall i :: 0 <= i < |w.channel| ==>
              w.channel[i].call in calls' && calls'[w.channel[i].call] == Waiting(w.channel[i].record)
    ensures Distinct(w.channel)
    ensures forall c :: c in calls' && calls'[c].Waiting? ==> Asked(w.channel, c)
  {
    forall i | 0 <= i < |w.channel|
      ensures w.channel[i].call in calls' && calls'[w.channel[i].call] == Waiting(w.channel[i].record)
    {
      assert Line(w)[|w.batch| + i] == w.channel[i];
      BatchIsFront(w, w.channel[i].call);
    }
    forall i, j | 0 <= i < j < |w.channel| ensures w.channel[i].call != w.channel[j].call {
      assert Line(w)[|w.batch| + i] == w.channel[i] && Line(w)[|w.batch| + j] == w.channel[j];
    }
    forall c | c in calls' && calls'[c].Waiting? ensures Asked(w.channel, c) {
      WaitsInChannel(w, c);
    }
  }

  lemma WaitsInChannel(w: Wal, c: nat)
    requires CallsOk(w) && c in w.calls && w.calls[c].Waiting? && !Asked(w.batch, c)
    ensures Asked(w.channel, c)
  {
    var i :| 0 <= i < |Line(w)| && Line(w)[i].call == c;
    forall k | 0 <= k < |w.batch| ensures Line(w)[k].call != c {
      assert Line(w)[k] == w.batch[k];
    }
    assert Line(w)[i] == w.channel[i - |w.batch|];
  }

  lemma StepKeepsWal(w: Wal, step: Step)
    requires Enabled(w, step) && WalInv(w)
    ensures WalInv(Next(w, step))
  {
    match step
    case Send(call) => SendKeeps(w, call);
    case Receive => ReceiveKeeps(w);
    case FlushBatch(fault) => FlushKeeps(w, fault);
    case StopWriter(fault) => if w.batch != [] { FlushKeeps(w, fault); StoppedKeeps(FlushNext(w, fault)); } else { StoppedKeeps(w); }
    case FinishRotation => RotationKeeps(w, step);
    case FailRotation(_) => RotationKeeps(w, step);
    case _ => AsideKeeps(w, step);
  }

  lemma StoppedKeeps(w: Wal)
    requires WalInv(w)
    ensures WalInv(w.(running := false))
  {
    var w' := w.(running := false);
    assert Line(w') == Line(w);
    forall c | c in w'.calls && w'.calls[c].Returned? && w'.calls[c].ok ensures Durable(w', w'.calls[c].record) {
      assert Durable(w, w.calls[c].record);
    }
  }

  lemma {:induction false} RunKeepsWal(b: seq<Wal>, steps: seq<Step>, i: nat)
    requires Run(b, steps) && WalInv(b[0]) && i < |b|
    ensures WalInv(b[i])
    decreases i
  {
    if i > 0 {
      RunKeepsWal(b, steps, i - 1);
      assert Transition(b[i - 1], steps[i - 1], b[i]);
      StepKeepsWal(b[i - 1], steps[i - 1]);
    }
  }

  lemma InitKeeps(bufferSize: nat, lastNumber: nat, file: File)
    requires file.synced <= |file.records|
    ensures WalInv(Init(bufferSize, lastNumber, file))
  {}

  /** On every run, whatever fails: an append that returned nil has its record on disk, an append
      still waiting has exactly its request in batch or channel, requests are answered once each
      in the order they were accepted, and batch and channel stay within their bounds. */
  lemma NilMeansDurable(bufferSize: nat, lastNumber: nat, file: File, b: seq<Wal>, steps: seq<Step>, i: nat, call: nat)
    requires Run(b, steps) && i < |b| && call in b[i].calls
    requires file.synced <= |file.records| && b[0] == Init(bufferSize, lastNumber, file)
    ensures var w, c := b[i], b[i].calls[call];
            && (c.Returned? && c.ok ==> Durable(w, c.record))
            && (c.Waiting? <==> Asked(Line(w), call))
            && w.accepted == Requests(w.answered) + w.batch + w.channel
            && |w.batch| <= w.bufferSize && |w.channel| <= 2 * w.bufferSize
  {
    InitKeeps(bufferSize, lastNumber, file);
    RunKeepsWal(b, steps, i);
    var w := b[i];
    assert Requests(w.answered) + Line(w) == Requests(w.answered) + w.batch + w.channel;
    if Asked(Line(w), call) {
      var k :| 0 <= k < |Line(w)| && Line(w)[k].call == call;
    }
  }

  // ---- Numbers ----

  /** The file is not in number order: a number is drawn before the request is sent, so of two
      appends the later number may be written first. */
  lemma NumbersMayBeSwapped(e: Event, f: Event) returns (b: seq<Wal>, steps: seq<Step>)
    ensures Run(b, steps) && b[0] == Init(2, 0, EMPTY_FILE)
    ensures b[|steps|].file == File([Record(2, f), Record(1, e)], 2)
  {
    var c, begun := SendSwapped(e, f);
    var w5, w6, w7 := WriteTwo(c[4], Request(Record(2, f), 1), Request(Record(1, e), 0));
    steps := begun + [Receive, Receive, FlushBatch(NoFault)];
    b := c + [w5, w6, w7];
  }

  lemma SendSwapped(e: Event, f: Event) returns (b: seq<Wal>, steps: seq<Step>)
    ensures Run(b, steps) && |steps| == 4 && b[0] == Init(2, 0, EMPTY_FILE)
    ensures var w := b[4];
            && w.running && w.bufferSize == 2 && w.batch == [] && w.file == EMPTY_FILE
            && w.channel == [Request(Record(2, f), 1), Request(Record(1, e), 0)]
  {
    var w0 := Init(2, 0, EMPTY_FILE);
    var w1 := Next(w0, Begin(0, e));
    var w2 := Next(w1, Begin(1, f));
    var w3 := Next(w2, Send(1));
    steps := [Begin(0, e), Begin(1, f), Send(1), Send(0)];
    b := [w0, w1, w2, w3, Next(w3, Send(0))];
  }

  lemma WriteTwo(w: Wal, p: Request, q: Request) returns (w1: Wal, w2: Wal, w3: Wal)
    requires w.running && w.bufferSize == 2 && w.batch == [] && w.channel == [p, q] && w.file == EMPTY_FILE
    ensures Transition(w, Receive, w1) && Transition(w1, Receive, w2) && Transition(w2, FlushBatch(NoFault), w3)
    ensures w3.file == File([p.record, q.record], 2)
  {
    w1 := Next(w, Receive);
    assert w1.batch == [p] && w1.channel == [q];
    w2 := Next(w1, Receive);
    assert w2.batch == [p, q];
    w3 := Next(w2, FlushBatch(NoFault));
    assert Records([p, q]) == [p.record, q.record];
  }
}
