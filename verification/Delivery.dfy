/** What reaches the apply channel: order on every run, completeness exactly while the commit
    index stays within the log. */
module Delivery {
  import opened RaftLog
  import opened RaftNode
  import opened AppendMerge
  import opened Cluster
  import ElectionSafety
  import opened LogMatching
  import opened CommitQuorum
  import opened LeaderCompleteness
  import opened StateMachineSafety

  ghost predicate Increasing(msgs: seq<ApplyMsg>) {
    forall i, j :: 0 <= i < j < |msgs| ==> msgs[i].commandIndex < msgs[j].commandIndex
  }

  ghost predicate Within(msgs: seq<ApplyMsg>, lo: int, hi: int) {
    forall i :: 0 <= i < |msgs| ==> lo < msgs[i].commandIndex <= hi
  }

  ghost predicate Ordered(msgs: seq<ApplyMsg>, lastApplied: int) {
    0 <= lastApplied && Increasing(msgs) && Within(msgs, 0, lastApplied) && |msgs| <= lastApplied
  }

  /** One call delivers the indices it finds, in order; it delivers all of lo+1..hi exactly
      when hi is within the log. */
  lemma {:induction false} DeliverOrdered(log: Log, lo: int, hi: int)
    requires 0 <= lo <= hi && WellFormed(log)
    ensures var msgs := Deliver(log, lo, hi);
            && Increasing(msgs) && Within(msgs, lo, hi) && |msgs| <= hi - lo
            && (|msgs| == hi - lo <==> hi == lo || hi < |log|)
    decreases hi - lo
  {
    WellFormedIsContiguous(log);
    if lo < hi {
      DeliverOrdered(log, lo, hi - 1);
      var init := Deliver(log, lo, hi - 1);
      if hi < |log| {
        assert Deliver(log, lo, hi) == init + [ApplyMsg(log[hi].command, hi)];
        SnocOrdered(init, log[hi].command, lo, hi);
      } else {
        assert Deliver(log, lo, hi) == init + [];
      }
    }
  }

  lemma SnocOrdered(init: seq<ApplyMsg>, command: Command, lo: int, hi: int)
    requires Increasing(init) && Within(init, lo, hi - 1) && lo < hi
    ensures Increasing(init + [ApplyMsg(command, hi)]) && Within(init + [ApplyMsg(command, hi)], lo, hi)
  {}

  lemma AppendOrdered(a: seq<ApplyMsg>, b: seq<ApplyMsg>, mid: int, hi: int)
    requires Ordered(a, mid) && Increasing(b) && Within(b, mid, hi) && mid <= hi && |b| <= hi - mid
    ensures Ordered(a + b, hi)
  {
    var all := a + b;
    forall i | 0 <= i < |all| ensures 0 < all[i].commandIndex <= hi {
      assert all[i] == if i < |a| then a[i] else b[i - |a|];
    }
    forall i, j | 0 <= i < j < |all| ensures all[i].commandIndex < all[j].commandIndex {
      assert all[i] == if i < |a| then a[i] else b[i - |a|];
      assert all[j] == if j < |a| then a[j] else b[j - |a|];
    }
  }

  /** Increasing indices among 1..n, n of them: they are 1, 2, ..., n. */
  lemma {:induction false} FullIsGapFree(msgs: seq<ApplyMsg>, n: int)
    requires Ordered(msgs, n) && |msgs| == n
    ensures forall i :: 0 <= i < n ==> msgs[i].commandIndex == i + 1
    decreases n
  {
    if n > 0 {
      var init := msgs[..n - 1];
      forall i | 0 <= i < |init| ensures 0 < init[i].commandIndex <= n - 1 {
        assert msgs[i].commandIndex < msgs[n - 1].commandIndex;
      }
      FullIsGapFree(init, n - 1);
      if n > 1 { assert msgs[n - 2] == init[n - 2]; }
    }
  }

  ghost predicate DeliveryInv(s: State) {
    forall n :: n in s.nodes ==> n in s.delivered && Ordered(s.delivered[n], s.nodes[n].lastApplied)
  }

  lemma OthersDeliverNothing(cfg: Config, s: State, step: Step)
    requires Enabled(cfg, s, step) && !step.Apply?
    ensures Next(cfg, s, step).delivered == s.delivered && s.nodes.Keys == Next(cfg, s, step).nodes.Keys
    ensures forall n :: n in s.nodes ==> Next(cfg, s, step).nodes[n].lastApplied == s.nodes[n].lastApplied
  {}

  lemma ApplyOrdered(st: NodeState, msgs: seq<ApplyMsg>)
    requires WellFormed(st.log) && Ordered(msgs, st.lastApplied)
    ensures var (st', more) := ApplyLogs(st);
            && Ordered(msgs + more, st'.lastApplied)
            && (|msgs + more| == st'.lastApplied <==>
                  |msgs| == st.lastApplied && (st.commitIndex > st.lastApplied ==> st.commitIndex < |st.log|))
  {
    if st.commitIndex > st.lastApplied {
      DeliverOrdered(st.log, st.lastApplied, st.commitIndex);
      AppendOrdered(msgs, Deliver(st.log, st.lastApplied, st.commitIndex), st.lastApplied, st.commitIndex);
    } else {
      assert msgs + [] == msgs;
    }
  }

  /** The apply step of node n never meets a commit index beyond its log. */
  ghost predicate AppliesWithinLog(s: State, step: Step, n: NodeId) {
    step == Apply(n) && n in s.nodes && s.nodes[n].commitIndex > s.nodes[n].lastApplied ==>
      s.nodes[n].commitIndex < |s.nodes[n].log|
  }

  lemma StepDelivers(cfg: Config, s: State, step: Step)
    requires Shape(s) && NodeLogsOk(s) && DeliveryInv(s) && Enabled(cfg, s, step)
    ensures DeliveryInv(Next(cfg, s, step)) && Next(cfg, s, step).nodes.Keys == s.nodes.Keys
    ensures forall n :: n in s.nodes ==>
              (Complete(Next(cfg, s, step), n) <==> Complete(s, n) && AppliesWithinLog(s, step, n))
  {
    if step.Apply? {
      ApplyDelivers(s, step.n);
    } else {
      OthersDeliverNothing(cfg, s, step);
      SameDeliveries(s, Next(cfg, s, step));
    }
  }

  lemma SameDeliveries(s: State, s': State)
    requires s'.delivered == s.delivered && s'.nodes.Keys == s.nodes.Keys && DeliveryInv(s)
    requires forall n :: n in s.nodes ==> s'.nodes[n].lastApplied == s.nodes[n].lastApplied
    ensures DeliveryInv(s') && forall n :: n in s.nodes ==> (Complete(s', n) <==> Complete(s, n))
  {}

  lemma ApplyDelivers(s: State, n: NodeId)
    requires Ready(s, n) && s.delivered.Keys == s.nodes.Keys && NodeLogsOk(s) && DeliveryInv(s)
    ensures var s' := ApplyNext(s, n);
            && DeliveryInv(s') && s'.nodes.Keys == s.nodes.Keys
            && (forall k :: k in s.nodes ==> (Complete(s', k) <==> Complete(s, k) && AppliesWithinLog(s, Apply(n), k)))
  {
    ApplyOrdered(s.nodes[n], s.delivered[n]);
  }

  ghost predicate Shape(s: State) {
    (forall m :: m in s.network ==> m.src in s.nodes && m.dst in s.nodes) && s.delivered.Keys == s.nodes.Keys
  }

  /** Nothing up to lastApplied was skipped. */
  ghost predicate Complete(s: State, n: NodeId) {
    n in s.nodes && n in s.delivered && |s.delivered[n]| == s.nodes[n].lastApplied
  }

  lemma InvShape(cfg: Config, s: State)
    requires Inv(cfg, s)
    ensures Shape(s) && NodeLogsOk(s) && s.nodes.Keys == cfg.Ids()
  {}

  lemma RunStepDelivers(cfg: Config, b: seq<State>, steps: seq<Step>, i: nat)
    requires cfg.Valid() && Run(cfg, b, steps) && 0 < i < |b| && DeliveryInv(b[i - 1])
    ensures DeliveryInv(b[i]) && b[i].nodes.Keys == b[i - 1].nodes.Keys
    ensures forall n :: n in b[i - 1].nodes ==>
              (Complete(b[i], n) <==> Complete(b[i - 1], n) && AppliesWithinLog(b[i - 1], steps[i - 1], n))
  {
    InvIsKept(cfg);
    forall s, step, s' | Inv(cfg, s) && Transition(cfg, s, step, s') ensures Delivers(s, step, s') {
      TransitionDelivers(cfg, s, step, s');
    }
    EachStep(cfg, InvOf(cfg), (s: State, step: Step, s': State) => Delivers(s, step, s'), b, steps, i);
  }

  ghost predicate Delivers(s: State, step: Step, s': State) {
    DeliveryInv(s) ==>
      && DeliveryInv(s') && s'.nodes.Keys == s.nodes.Keys
      && forall n :: n in s.nodes ==> (Complete(s', n) <==> Complete(s, n) && AppliesWithinLog(s, step, n))
  }

  lemma TransitionDelivers(cfg: Config, s: State, step: Step, s': State)
    requires Inv(cfg, s) && Transition(cfg, s, step, s')
    ensures Delivers(s, step, s')
  {
    if DeliveryInv(s) {
      InvShape(cfg, s);
      StepDelivers(cfg, s, step);
    }
  }

  lemma {:induction false} RunDelivers(cfg: Config, b: seq<State>, steps: seq<Step>, i: nat, n: NodeId)
    requires cfg.Valid() && Run(cfg, b, steps) && i < |b| && n in cfg.Ids()
    ensures DeliveryInv(b[i]) && n in b[i].nodes
    ensures Complete(b[i], n) <==> forall k :: 0 <= k < i ==> AppliesWithinLog(b[k], steps[k], n)
  {
    if i > 0 {
      RunDelivers(cfg, b, steps, i - 1, n);
      RunStepDelivers(cfg, b, steps, i);
    }
  }

  /** In-order delivery, on every run: a node's delivered indices strictly increase, so nothing
      is delivered twice; and they are 1, 2, 3, ... up to lastApplied exactly when no apply step
      of the node met a commit index beyond the end of its log. */
  lemma DeliveryInOrder(cfg: Config, b: seq<State>, steps: seq<Step>, i: nat, n: NodeId)
    requires cfg.Valid() && Run(cfg, b, steps) && i < |b| && n in cfg.Ids()
    ensures n in b[i].delivered && n in b[i].nodes && Increasing(b[i].delivered[n])
    ensures (|b[i].delivered[n]| == b[i].nodes[n].lastApplied
             && forall x :: 0 <= x < |b[i].delivered[n]| ==> b[i].delivered[n][x].commandIndex == x + 1)
            <==> forall k :: 0 <= k < i ==> AppliesWithinLog(b[k], steps[k], n)
  {
    RunDelivers(cfg, b, steps, i, n);
    if Complete(b[i], n) {
      FullIsGapFree(b[i].delivered[n], b[i].nodes[n].lastApplied);
    }
  }

  // ---- Commit indices only rise ----

  /** No request in flight announces commits beyond its own window. */
  ghost predicate CommitsInWindow(s: State) {
    forall m :: m in s.network && m.AppendRequest? ==> m.app.leaderCommit <= m.app.prevLogIndex + |m.app.entries|
  }

  lemma AcceptedCommitRises(s: State, m: Message, st': NodeState)
    requires CommitsInWindow(s) && m in s.network && m.AppendRequest? && m.dst in s.nodes && RequestOk(s, m.src, m.app)
    requires HandlesRequest(s.nodes[m.dst], st', m.app, s.hist.termLogs[m.app.term], true)
    requires WellFormed(st'.log)
    requires st'.commitIndex == if m.app.leaderCommit > s.nodes[m.dst].commitIndex
                                then Min(m.app.leaderCommit, LastIndex(st'.log)) else s.nodes[m.dst].commitIndex
    ensures st'.commitIndex >= s.nodes[m.dst].commitIndex
  {
    WellFormedIsContiguous(st'.log);
  }

  lemma AppendCommitRises(cfg: Config, s: State, m: Message)
    requires ElectionSafety.Shape(cfg, s) && LogInv(cfg, s) && CommitsInWindow(s) && Enabled(cfg, s, ReceiveAppend(m))
    requires NodeLogsOk(AppendNext(s, m))
    ensures AppendNext(s, m).nodes[m.dst].commitIndex >= s.nodes[m.dst].commitIndex
  {
    AppendAnswers(cfg, s, m);
    HandlerCommit(s.nodes[m.dst], m.app);
    var (st', reply) := HandleAppendEntries(s.nodes[m.dst], m.app);
    assert WellFormed(AppendNext(s, m).nodes[m.dst].log);
    if reply.success {
      AcceptedCommitRises(s, m, st');
    }
  }

  lemma StepCommitRises(cfg: Config, s: State, step: Step, s': State, n: NodeId)
    requires ElectionSafety.Shape(cfg, s) && LogInv(cfg, s) && CommitsInWindow(s) && Enabled(cfg, s, step)
    requires s' == Next(cfg, s, step) && NodeLogsOk(s') && n in s.nodes
    ensures n in s'.nodes && s'.nodes[n].commitIndex >= s.nodes[n].commitIndex
  {
    if step.ReceiveAppend? {
      AppendCommitRises(cfg, s, step.m);
    } else if step.ReceiveAppendResponse? {
      CommitIgnoresCommitIndex(cfg, step.m.dst, s.nodes[step.m.dst], step.m.src, step.m.app, step.m.appReply);
    } else {
      CommitUntouched(cfg, s, step);
    }
  }

  lemma RunStepCommitRises(cfg: Config, b: seq<State>, steps: seq<Step>, j: nat, n: NodeId)
    requires cfg.Valid() && Run(cfg, b, steps) && 0 < j < |b| && RespectedBefore(b, steps, j - 1) && n in b[j - 1].nodes
    ensures n in b[j].nodes && b[j].nodes[n].commitIndex >= b[j - 1].nodes[n].commitIndex
  {
    RunKeepsInv(cfg, b, steps, j - 1);
    RunKeepsInv(cfg, b, steps, j);
    RunCommitsInWindow(cfg, b, steps, j - 1);
    TransitionCommitRises(cfg, b[j - 1], steps[j - 1], b[j], n);
  }

  lemma TransitionCommitRises(cfg: Config, s: State, step: Step, s': State, n: NodeId)
    requires Inv(cfg, s) && Inv(cfg, s') && CommitsInWindow(s)
    requires Transition(cfg, s, step, s') && n in s.nodes
    ensures n in s'.nodes && s'.nodes[n].commitIndex >= s.nodes[n].commitIndex
  {
    StepCommitRises(cfg, s, step, s', n);
  }

  lemma RunCommitsInWindow(cfg: Config, b: seq<State>, steps: seq<Step>, i: nat)
    requires cfg.Valid() && Run(cfg, b, steps) && i < |b| && RespectedBefore(b, steps, i)
    ensures CommitsInWindow(b[i])
  {
    RunKeepsSafe(cfg, b, steps, i);
    WindowsFromSafe(b[i]);
  }

  lemma WindowsFromSafe(s: State)
    requires RequestsCommitChosen(s)
    ensures CommitsInWindow(s)
  {
    forall m | m in s.network && m.AppendRequest? ensures m.app.leaderCommit <= m.app.prevLogIndex + |m.app.entries| {
      assert RequestCommitOk(s, m.app);
    }
  }

  lemma {:induction false} CommitIndexRises(cfg: Config, b: seq<State>, steps: seq<Step>, i: nat, j: nat, n: NodeId)
    requires cfg.Valid() && Run(cfg, b, steps) && i <= j < |b| && RespectedBefore(b, steps, j) && n in b[i].nodes
    ensures n in b[j].nodes && b[i].nodes[n].commitIndex <= b[j].nodes[n].commitIndex
  {
    if i < j {
      CommitIndexRises(cfg, b, steps, i, j - 1, n);
      RunStepCommitRises(cfg, b, steps, j, n);
    }
  }

  /** On runs that respect the log comparison: a commit index never falls or passes the log end,
      what a node committed stays in its log unchanged, and it delivers gap-free from 1. */
  lemma CommittedIsPermanent(cfg: Config, b: seq<State>, steps: seq<Step>, i: nat, j: nat, n: NodeId)
    requires cfg.Valid() && Run(cfg, b, steps) && i <= j < |b| && RespectedBefore(b, steps, j) && n in cfg.Ids()
    ensures n in b[i].nodes && n in b[j].nodes && n in b[j].delivered
    ensures b[i].nodes[n].commitIndex <= b[j].nodes[n].commitIndex < |b[j].nodes[n].log|
    ensures Agree(b[i].nodes[n].log, b[j].nodes[n].log, b[i].nodes[n].commitIndex)
    ensures |b[j].delivered[n]| == b[j].nodes[n].lastApplied
    ensures forall x :: 0 <= x < |b[j].delivered[n]| ==> b[j].delivered[n][x].commandIndex == x + 1
  {
    RunShape(cfg, b, steps, i);
    RunShape(cfg, b, steps, j);
    CommitIndexRises(cfg, b, steps, i, j, n);
    RunKeepsSafe(cfg, b, steps, j);
    CommittedPrefixesAgree(cfg, b, steps, i, j, n, n);
  }
}
