/** The cluster: five replicas, every message ever sent, and runs of it.
    A step delivers any sent message (loss, duplication, delay, reordering, partitions and dead nodes
    are steps that do not happen or happen again), or fires any timer, or takes any client operation. */
module RaftCluster {
  import opened RaftReducer
  import opened RaftHistory
  import opened RaftGrowth
  import opened RaftLocal
  import opened RaftReplication

  datatype Cluster = Cluster(nodes: map<NodeId, Node>, net: set<Packet>, now: int)

  datatype Action =
    | Receive(p: Packet)
    | Tick(n: NodeId, timer: Timer)
    | Begin(n: NodeId)
    | Inject(n: NodeId, op: Command)

  ghost function Target(a: Action): NodeId {
    if a.Receive? then a.p.dst else a.n
  }

  ghost function EventOf(a: Action): Event {
    match a
    case Receive(p) => Message(p.src, p.msg)
    case Tick(_, timer) => Fire(timer)
    case Begin(_) => Init
    case Inject(_, op) => External(op)
  }

  ghost function Sent(id: NodeId, fx: seq<Effect>): set<Packet> {
    set e | e in fx && e.Send? :: Packet(id, e.to, e.msg)
  }

  ghost predicate Initial(c: Cluster) {
    (forall n: NodeId :: n in c.nodes && c.nodes[n] == InitNode(n)) && c.net == {}
  }

  /** The action can happen: a message must have been sent. */
  ghost predicate Enabled(c: Cluster, a: Action) {
    && Target(a) in c.nodes
    && (a.Receive? ==> a.p in c.net)
  }

  /** The reducer does not throw on it. */
  ghost predicate Runs(c: Cluster, a: Action) {
    Target(a) in c.nodes && Valid(c.nodes[Target(a)]) && Plausible(c.nodes[Target(a)], EventOf(a))
  }

  ghost predicate Step(c: Cluster, a: Action, c2: Cluster) {
    && Enabled(c, a) && Runs(c, a) && c2.now >= c.now
    && var o := Reduce(c.nodes[Target(a)], EventOf(a), c2.now);
       && c2.nodes == c.nodes[Target(a) := o.node]
       && c2.net == c.net + Sent(Target(a), o.fx)
  }

  ghost predicate IsRun(run: seq<Cluster>, acts: seq<Action>) {
    && |run| == |acts| + 1
    && Initial(run[0])
    && forall i :: 0 <= i < |acts| ==> Step(run[i], acts[i], run[i + 1])
  }

  ghost predicate Inv(c: Cluster, h: History) {
    && HistoryOk(h)
    && (forall n: NodeId :: n in c.nodes && c.nodes[n].id == n && NodeOk(h, c.nodes[n]))
    && (forall p :: p in c.net ==> MsgOk(h, p))
  }

  ghost function NoHistory(): History {
    History(map[], map[], {})
  }

  lemma InitialInv(c: Cluster)
    requires Initial(c)
    ensures Inv(c, NoHistory())
  {
    forall n: NodeId ensures n in c.nodes && c.nodes[n].id == n && NodeOk(NoHistory(), c.nodes[n]) {
      assert c.nodes[n] == InitNode(n);
    }
  }

  /** What a step does to the acting node, seen from the history. */
  lemma ActorOk(c: Cluster, h: History, a: Action, c2: Cluster) returns (h2: History)
    requires Inv(c, h) && Step(c, a, c2)
    ensures StepOk(h, c.nodes[Target(a)], Reduce(c.nodes[Target(a)], EventOf(a), c2.now), h2)
  {
    var s := c.nodes[Target(a)];
    assert NodeOk(h, s) && s.id == Target(a);
    if a.Receive? { assert MsgOk(h, a.p); assert Packet(a.p.src, s.id, a.p.msg) == a.p; }
    h2 := ReduceOk(h, s, EventOf(a), c2.now);
  }

  lemma StepInv(c: Cluster, h: History, a: Action, c2: Cluster, h2: History)
    requires Inv(c, h) && Step(c, a, c2)
    requires StepOk(h, c.nodes[Target(a)], Reduce(c.nodes[Target(a)], EventOf(a), c2.now), h2)
    ensures Inv(c2, h2)
  {
    var s := c.nodes[Target(a)];
    var o := Reduce(s, EventOf(a), c2.now);
    forall n: NodeId ensures n in c2.nodes && c2.nodes[n].id == n && NodeOk(h2, c2.nodes[n]) {
      assert c.nodes[n].id == n;
      if n != Target(a) { OthersKeep(h, h2, s.id, c.nodes[n]); }
    }
    forall p | p in c2.net ensures MsgOk(h2, p) {
      if p in c.net {
        MessageKeeps(h, h2, s.id, p);
      } else {
        var e :| e in o.fx && e.Send? && p == Packet(Target(a), e.to, e.msg);
        assert EffectOk(h2, s.id, e);
      }
    }
  }

  /** In a reachable state no action makes the reducer index past a log: every enabled action runs. */
  lemma EnabledRuns(c: Cluster, h: History, a: Action)
    requires Inv(c, h) && Enabled(c, a)
    ensures Runs(c, a)
  {
    var s := c.nodes[Target(a)];
    assert NodeOk(h, s) && s.id == Target(a);
    if a.Receive? { assert MsgOk(h, a.p); assert Packet(a.p.src, s.id, a.p.msg) == a.p; }
    var h2 := ReduceOk(h, s, EventOf(a), c.now);
  }

  /** Histories only grow along a run. */
  ghost predicate Later(h: History, h2: History) {
    && h.acks <= h2.acks
    && (forall t :: t in h.reigns ==>
          && t in h2.reigns && h2.reigns[t].leader == h.reigns[t].leader && h2.reigns[t].start == h.reigns[t].start
          && Agree(h.reigns[t].log, h2.reigns[t].log, |h.reigns[t].log|))
  }

  lemma ExtendsIsLater(h: History, h2: History, id: NodeId)
    requires Extends(h, h2, id)
    ensures Later(h, h2)
  {
    forall t | t in h.reigns
      ensures && t in h2.reigns && h2.reigns[t].leader == h.reigns[t].leader && h2.reigns[t].start == h.reigns[t].start
              && Agree(h.reigns[t].log, h2.reigns[t].log, |h.reigns[t].log|)
    {
      assert ReignGrows(h.reigns[t], h2.reigns[t], id);
    }
  }

  lemma LaterTrans(h: History, h2: History, h3: History)
    requires Later(h, h2) && Later(h2, h3)
    ensures Later(h, h3)
  {
  }

  lemma LaterPrefix(h: History, h2: History, log: seq<Entry>, k: nat, top: nat)
    requires Later(h, h2) && CommittedPrefix(h, log, k, top)
    ensures CommittedPrefix(h2, log, k, top)
  {
    if k > 0 {
      var t: nat, idx: nat :| t <= top && CommittedAt(h, log, k, t, idx);
      Subset(AckedBy(h, t, idx), AckedBy(h2, t, idx));
      assert CommittedAt(h2, log, k, t, idx);
    }
  }

  /** The step from `c` to `c2` takes history h to h2. */
  ghost predicate Linked(c: Cluster, h: History, a: Action, c2: Cluster, h2: History) {
    Step(c, a, c2) && StepOk(h, c.nodes[Target(a)], Reduce(c.nodes[Target(a)], EventOf(a), c2.now), h2)
  }

  ghost predicate LinkedAt(run: seq<Cluster>, acts: seq<Action>, hs: seq<History>, i: nat)
    requires i < |acts| && i + 1 < |run| && i + 1 < |hs|
  {
    Linked(run[i], hs[i], acts[i], run[i + 1], hs[i + 1])
  }

  ghost predicate HistoriesOf(run: seq<Cluster>, acts: seq<Action>, hs: seq<History>) {
    && |run| == |acts| + 1 && 0 < |hs| <= |run|
    && hs[0] == NoHistory()
    && (forall i {:trigger Inv(run[i], hs[i])} :: 0 <= i < |hs| ==> Inv(run[i], hs[i]))
    && (forall i {:trigger LinkedAt(run, acts, hs, i)} :: 0 <= i < |hs| - 1 ==> LinkedAt(run, acts, hs, i))
    && (forall i, j {:trigger Later(hs[i], hs[j])} :: 0 <= i <= j < |hs| ==> Later(hs[i], hs[j]))
  }

  /** Every run has a history for each of its states. */
  lemma Histories(run: seq<Cluster>, acts: seq<Action>) returns (hs: seq<History>)
    requires IsRun(run, acts)
    ensures HistoriesOf(run, acts, hs) && |hs| == |run|
  {
    hs := HistoriesUpTo(run, acts, |acts|);
  }

  lemma {:induction false} HistoriesUpTo(run: seq<Cluster>, acts: seq<Action>, k: nat) returns (hs: seq<History>)
    requires IsRun(run, acts) && k < |run|
    ensures HistoriesOf(run, acts, hs) && |hs| == k + 1
  {
    if k == 0 {
      InitialInv(run[0]);
      hs := [NoHistory()];
    } else {
      var front := HistoriesUpTo(run, acts, k - 1);
      assert Step(run[k - 1], acts[k - 1], run[k]);
      assert Inv(run[k - 1], front[k - 1]);
      var h2 := ActorOk(run[k - 1], front[k - 1], acts[k - 1], run[k]);
      StepInv(run[k - 1], front[k - 1], acts[k - 1], run[k], h2);
      AppendHistory(run, acts, front, h2);
      hs := front + [h2];
    }
  }

  lemma AppendHistory(run: seq<Cluster>, acts: seq<Action>, front: seq<History>, h2: History)
    requires HistoriesOf(run, acts, front) && |front| < |run|
    requires Inv(run[|front|], h2)
    requires Linked(run[|front| - 1], front[|front| - 1], acts[|front| - 1], run[|front|], h2)
    ensures HistoriesOf(run, acts, front + [h2])
  {
    var hs, n := front + [h2], |front| - 1;
    ExtendsIsLater(front[n], h2, run[n].nodes[Target(acts[n])].id);
    forall i, j | 0 <= i <= j < |hs| ensures Later(hs[i], hs[j]) {
      if j <= n { assert Later(front[i], front[j]); }
      else if i <= n { assert Later(front[i], front[n]); LaterTrans(front[i], front[n], h2); }
    }
    forall i | 0 <= i < |hs| - 1 ensures LinkedAt(run, acts, hs, i) {
      if i < n { assert LinkedAt(run, acts, front, i); }
    }
    forall i | 0 <= i < |hs| ensures Inv(run[i], hs[i]) {
      if i <= n { assert Inv(run[i], front[i]); }
    }
  }
}
