/** The replicated log and the job table together: what controllers at different nodes have
    applied is one list of commands, each of them a prefix of it. */
module ReplicatedTables {
  import RaftLog
  import RaftNode
  import Cluster
  import SMS = StateMachineSafety
  import opened Jobs
  import opened ControllerSteps
  import opened CommandLog
  import opened PartialSnapshots
  import opened Replicas

  /** What a controller reads from the bytes of a command; malformed ones are skipped. */
  datatype Decoded = Malformed | Decoded(command: Command)

  function CommandsOf(decode: RaftLog.Command -> Decoded, msgs: seq<RaftNode.ApplyMsg>): seq<Command>
    decreases |msgs|
  {
    if msgs == [] then []
    else
      var last := decode(msgs[|msgs| - 1].command);
      CommandsOf(decode, msgs[..|msgs| - 1]) + if last.Decoded? then [last.command] else []
  }

  lemma {:induction false} CommandsAppend(decode: RaftLog.Command -> Decoded, a: seq<RaftNode.ApplyMsg>, b: seq<RaftNode.ApplyMsg>)
    ensures CommandsOf(decode, a + b) == CommandsOf(decode, a) + CommandsOf(decode, b)
    decreases |b|
  {
    if b == [] {
      assert a + b == a;
    } else {
      CommandsAppend(decode, a, b[..|b| - 1]);
      assert (a + b)[..|a + b| - 1] == a + b[..|b| - 1];
    }
  }

  /** On runs that respect the comparison, of what two nodes delivered, at whatever moments, the
      shorter list is a prefix of the longer one. */
  lemma DeliveredPrefix(cfg: RaftNode.Config, b: seq<Cluster.State>, steps: seq<Cluster.Step>, i: nat, j: nat,
                        n: RaftNode.NodeId, k: RaftNode.NodeId)
    requires cfg.Valid() && Cluster.Run(cfg, b, steps) && i < |b| && j < |b|
    requires SMS.RespectedBefore(b, steps, i) && SMS.RespectedBefore(b, steps, j)
    requires n in b[i].delivered && k in b[j].delivered && |b[i].delivered[n]| <= |b[j].delivered[k]|
    ensures b[i].delivered[n] == b[j].delivered[k][..|b[i].delivered[n]|]
  {
    forall x | 0 <= x < |b[i].delivered[n]| ensures b[i].delivered[n][x] == b[j].delivered[k][x] {
      SMS.StateMachineSafety(cfg, b, steps, i, j, n, k, x);
    }
  }

  /** So the controller that is ahead has the table the other one will have after the rest. */
  lemma AheadByTheRest(cfg: RaftNode.Config, b: seq<Cluster.State>, steps: seq<Cluster.Step>, i: nat, j: nat,
                       n: RaftNode.NodeId, k: RaftNode.NodeId, decode: RaftLog.Command -> Decoded, t: Table)
    requires cfg.Valid() && Cluster.Run(cfg, b, steps) && i < |b| && j < |b|
    requires SMS.RespectedBefore(b, steps, i) && SMS.RespectedBefore(b, steps, j)
    requires n in b[i].delivered && k in b[j].delivered && |b[i].delivered[n]| <= |b[j].delivered[k]|
    ensures ApplyAll(t, CommandsOf(decode, b[j].delivered[k]))
         == ApplyAll(ApplyAll(t, CommandsOf(decode, b[i].delivered[n])),
                     CommandsOf(decode, b[j].delivered[k][|b[i].delivered[n]|..]))
  {
    var some, more := b[i].delivered[n], b[j].delivered[k];
    DeliveredPrefix(cfg, b, steps, i, j, n, k);
    assert more == some + more[|some|..];
    CommandsAppend(decode, some, more[|some|..]);
    ApplyAppend(t, CommandsOf(decode, some), CommandsOf(decode, more[|some|..]));
  }

  /** With local moves in between: two controllers that have been delivered equally many messages
      were fed the same commands, so their histories line up, and they agree unless a move
      splits them. */
  lemma ReplicasOfOneLog(cfg: RaftNode.Config, b: seq<Cluster.State>, steps: seq<Cluster.Step>, i: nat, j: nat,
                         n: RaftNode.NodeId, k: RaftNode.NodeId, decode: RaftLog.Command -> Decoded,
                         p: Pair, here: seq<Op>, there: seq<Op>) returns (ms: seq<Move>)
    requires cfg.Valid() && Cluster.Run(cfg, b, steps) && i < |b| && j < |b|
    requires SMS.RespectedBefore(b, steps, i) && SMS.RespectedBefore(b, steps, j)
    requires n in b[i].delivered && k in b[j].delivered && |b[i].delivered[n]| == |b[j].delivered[k]|
    requires CommandsIn(here) == CommandsOf(decode, b[i].delivered[n])
    requires CommandsIn(there) == CommandsOf(decode, b[j].delivered[k])
    requires Agree(p)
    ensures Fed(ms) && MoveAll(p, ms) == Pair(ApplyOps(p.here, here), ApplyOps(p.there, there))
    ensures (forall q :: 0 <= q < |ms| ==> !Splits(MoveAll(p, ms[..q]), ms[q])) ==>
              Agree(Pair(ApplyOps(p.here, here), ApplyOps(p.there, there)))
  {
    DeliveredPrefix(cfg, b, steps, i, j, n, k);
    assert b[j].delivered[k][..|b[j].delivered[k]|] == b[j].delivered[k];
    ms := LineUp(p, here, there);
    if forall q :: 0 <= q < |ms| ==> !Splits(MoveAll(p, ms[..q]), ms[q]) {
      UnsplitAgrees(p, ms, |ms|);
      assert ms[..|ms|] == ms;
    }
  }
}
