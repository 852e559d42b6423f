/** Strict quorums over whole runs: messages may be lost, repeated and reordered, timers fire at any time, and a
    dead node takes no step. Packets are only ever added to the network, and any of them may be delivered again. */
module LeaderlessQuorum {
  import opened Leaderless

  datatype Packet = Packet(from: NodeId, to: NodeId, msg: Msg)

  type Nodes = map<NodeId, State>

  datatype Cluster = Cluster(nodes: Nodes, net: set<Packet>)

  datatype Action =
    | Client(n: NodeId, cmd: Cmd, now: nat)
    | Deliver(p: Packet, now: nat)
    | Fire(n: NodeId, timer: Timer, now: nat)

  function Packets(from: NodeId, fx: seq<Effect>): set<Packet> {
    if fx == [] then {}
    else Packets(from, fx[..|fx| - 1]) + if fx[|fx| - 1].Send? then {Packet(from, fx[|fx| - 1].to, fx[|fx| - 1].msg)} else {}
  }

  predicate Enabled(c: Cluster, a: Action) {
    match a
    case Deliver(p, _) => p in c.net && p.to in c.nodes
    case Client(n, _, _) => n in c.nodes
    case Fire(n, _, _) => n in c.nodes
  }

  function Actor(a: Action): NodeId {
    match a case Deliver(p, _) => p.to case Client(n, _, _) => n case Fire(n, _, _) => n
  }

  /** What the acting node makes of an action. */
  function React(s: State, a: Action): (State, seq<Effect>) {
    match a
    case Deliver(p, now) => OnMessage(s, p.from, p.msg, now)
    case Client(_, cmd, now) => OnClient(s, cmd, now)
    case Fire(_, timer, now) => OnTimer(s, timer, now)
  }

  function Step(c: Cluster, a: Action): Cluster
    requires Enabled(c, a)
  {
    var r := React(c.nodes[Actor(a)], a);
    Cluster(c.nodes[Actor(a) := r.0], c.net + Packets(Actor(a), r.1))
  }

  ghost predicate Runs(c: Cluster, acts: seq<Action>)
    decreases |acts|, 0
  {
    acts == [] || (Runs(c, acts[..|acts| - 1]) && Enabled(Exec(c, acts[..|acts| - 1]), acts[|acts| - 1]))
  }

  ghost function Exec(c: Cluster, acts: seq<Action>): Cluster
    requires Runs(c, acts)
    decreases |acts|, 1
  {
    if acts == [] then c else Step(Exec(c, acts[..|acts| - 1]), acts[|acts| - 1])
  }

  predicate Distinct(s: seq<NodeId>) {
    forall i, j :: 0 <= i < j < |s| ==> s[i] != s[j]
  }

  /** At least three nodes, the first three of them home to every key, and quorums that overlap. */
  datatype Config = Config(order: seq<NodeId>, w: nat, r: nat)

  ghost predicate ConfigOk(f: Config) {
    |f.order| >= 3 && Distinct(f.order) && 1 <= f.w <= 3 && 1 <= f.r <= 3
  }

  function Home(f: Config): seq<NodeId>
    requires |f.order| >= 3
  {
    f.order[..3]
  }

  /** Some nodes as they start. */
  function Fresh(f: Config, ns: seq<NodeId>): (m: Nodes)
    ensures forall n :: n in m <==> n in ns
    ensures forall n :: n in m ==> m[n] == Init(n, f.order, f.w, f.r, false)
  {
    if ns == [] then map[] else Fresh(f, ns[..|ns| - 1])[ns[|ns| - 1] := Init(ns[|ns| - 1], f.order, f.w, f.r, false)]
  }

  function Start(f: Config): Cluster {
    Cluster(Fresh(f, f.order), {})
  }

  // ---------- what a step never takes back ----------

  predicate SameOp(a: Pending, b: Pending) {
    match a
    case WriteOp(key, value, ts, _, _) => b.WriteOp? && b.key == key && b.value == value && b.ts == ts
    case ReadOp(key, _) => b.ReadOp? && b.key == key
  }

  ghost predicate OpsKept(s: State, s': State) {
    s.nextOp <= s'.nextOp &&
    forall o :: o in s'.pending && o < s.nextOp ==> o in s.pending && SameOp(s.pending[o], s'.pending[o])
  }

  ghost predicate DataGrows(s: State, s': State) {
    forall k {:trigger VersionOf(s'.data, k)} :: VersionOf(s.data, k) <= VersionOf(s'.data, k)
  }

  ghost predicate Grows(s: State, s': State) {
    && s'.self == s.self && s'.home == s.home && s'.w == s.w && s'.r == s.r && s'.sloppy == s.sloppy
    && OpsKept(s, s') && DataGrows(s, s') && s.history <= s'.history
  }

  lemma AckGrows(s: State, from: NodeId, m: Msg, now: nat)
    requires m.StoreAck?
    ensures Grows(s, OnStoreAck(s, from, m, now))
  {
  }

  lemma ReplyGrows(s: State, from: NodeId, m: Msg, now: nat)
    requires m.FetchReply?
    ensures Grows(s, OnFetchReply(s, from, m, now).0)
  {
  }

  lemma MessageGrows(s: State, from: NodeId, m: Msg, now: nat)
    requires m.Store? ==> m.ts >= 0
    ensures Grows(s, OnMessage(s, from, m, now).0)
  {
    match m {
      case StoreAck(_, _, _, _) => { AckGrows(s, from, m, now); }
      case FetchReply(_, _, _, _) => { ReplyGrows(s, from, m, now); }
      case _ => {}
    }
  }

  /** Versions that are stored somewhere are never the no-data sentinel. */
  predicate Sane(a: Action) { a.Deliver? && a.p.msg.Store? ==> a.p.msg.ts >= 0 }

  lemma ReactGrows(s: State, a: Action)
    requires Sane(a)
    ensures Grows(s, React(s, a).0)
  {
    match a {
      case Deliver(p, now) => { MessageGrows(s, p.from, p.msg, now); }
      case Client(_, cmd, now) => {}
      case Fire(_, timer, now) => {}
    }
  }

  function Ver(nodes: Nodes, n: NodeId, k: string): int { if n in nodes then VersionOf(nodes[n].data, k) else -1 }

  ghost predicate AllGrow(a: Nodes, b: Nodes) {
    a.Keys == b.Keys && forall n :: n in a ==> Grows(a[n], b[n])
  }

  lemma StepGrows(c: Cluster, a: Action)
    requires Enabled(c, a) && Sane(a)
    ensures AllGrow(c.nodes, Step(c, a).nodes) && c.net <= Step(c, a).net
  {
    ReactGrows(c.nodes[Actor(a)], a);
  }

  lemma VerGrows(a: Nodes, b: Nodes, n: NodeId, k: string)
    requires AllGrow(a, b)
    ensures Ver(a, n, k) <= Ver(b, n, k)
  {
    if n in a { assert DataGrows(a[n], b[n]); }
  }

  // ---------- the invariant ----------

  ghost predicate Stored(nodes: Nodes, home: seq<NodeId>, n: NodeId, k: string, ts: int) {
    n in home && n in nodes && Ver(nodes, n, k) >= ts
  }

  function Holders(nodes: Nodes, home: seq<NodeId>, k: string, ts: int): set<NodeId> {
    set n | n in home && n in nodes && Ver(nodes, n, k) >= ts
  }

  ghost predicate OpOk(nodes: Nodes, home: seq<NodeId>, op: Pending) {
    match op
    case WriteOp(key, _, ts, acks, _) => ts >= 0 && Distinct(acks) && forall i :: 0 <= i < |acks| ==> Stored(nodes, home, acks[i], key, ts)
    case ReadOp(_, replies) =>
      && (forall i, j :: 0 <= i < j < |replies| ==> replies[i].from != replies[j].from)
      && (forall i :: 0 <= i < |replies| ==> replies[i].from in home && (replies[i].value.Some? ==> replies[i].ts >= 0))
  }

  ghost predicate OpsOk(nodes: Nodes, home: seq<NodeId>, s: State) {
    forall o :: o in s.pending ==> o < s.nextOp && OpOk(nodes, home, s.pending[o])
  }

  /** Every recorded ack is backed by a write quorum. */
  ghost predicate AcksHeld(nodes: Nodes, f: Config, s: State)
    requires |f.order| >= 3
  {
    forall i :: 0 <= i < |s.history| && s.history[i].Acked? ==>
      |Holders(nodes, Home(f), s.history[i].key, s.history[i].ts)| >= f.w
  }

  ghost predicate Fixed(f: Config, n: NodeId, s: State)
    requires |f.order| >= 3
  {
    && s.self == n && s.home == Home(f) && s.w == f.w && s.r == f.r && !s.sloppy && s.hintBuffer == []
    && forall k :: k in s.data ==> s.data[k].ts >= 0
  }

  predicate IsWrite(op: Pending, k: string, ts: int) { op.WriteOp? && op.key == k && op.ts == ts }

  /** An operation id that belongs to a write of this version, as far as its coordinator still knows. */
  ghost predicate WriteIs(nodes: Nodes, c: NodeId, o: Option<OpId>, k: string, ts: int) {
    o.Some? ==> c in nodes && o.value < nodes[c].nextOp && (o.value in nodes[c].pending ==> IsWrite(nodes[c].pending[o.value], k, ts))
  }

  ghost predicate PacketOk(nodes: Nodes, home: seq<NodeId>, p: Packet) {
    match p.msg
    case Store(o, k, _, ts, handoffOf) => ts >= 0 && p.to in home && handoffOf == None && WriteIs(nodes, p.from, o, k, ts)
    case StoreAck(o, k, ts, handoffOf) =>
      Stored(nodes, home, p.from, k, ts) && handoffOf == None && WriteIs(nodes, p.to, o, k, ts)
    case StoreHint(_, _, _, _, _) => false
    case Fetch(o, _) => p.to in home && p.from in nodes && o < nodes[p.from].nextOp
    case FetchReply(o, _, ts, found) =>
      p.from in home && p.to in nodes && o < nodes[p.to].nextOp && (found.Some? ==> ts >= 0)
  }

  ghost predicate Inv(f: Config, c: Cluster) {
    && ConfigOk(f)
    && (forall n :: n in c.nodes <==> n in f.order)
    && (forall n {:trigger c.nodes[n]} :: n in c.nodes ==>
          Fixed(f, n, c.nodes[n]) && OpsOk(c.nodes, Home(f), c.nodes[n]) && AcksHeld(c.nodes, f, c.nodes[n]))
    && (forall p :: p in c.net ==> PacketOk(c.nodes, Home(f), p))
  }

  // ---------- stability ----------

  lemma StoredStable(a: Nodes, b: Nodes, home: seq<NodeId>, n: NodeId, k: string, ts: int)
    requires AllGrow(a, b) && Stored(a, home, n, k, ts)
    ensures Stored(b, home, n, k, ts)
  {
    VerGrows(a, b, n, k);
  }

  lemma WriteStable(a: Nodes, b: Nodes, c: NodeId, o: Option<OpId>, k: string, ts: int)
    requires AllGrow(a, b) && WriteIs(a, c, o, k, ts)
    ensures WriteIs(b, c, o, k, ts)
  {
    if o.Some? { assert Grows(a[c], b[c]); }
  }

  lemma PacketStable(a: Nodes, b: Nodes, home: seq<NodeId>, p: Packet)
    requires AllGrow(a, b) && PacketOk(a, home, p)
    ensures PacketOk(b, home, p)
  {
    match p.msg {
      case Store(o, k, _, ts, _) => { WriteStable(a, b, p.from, o, k, ts); }
      case StoreAck(o, k, ts, _) => {
        WriteStable(a, b, p.to, o, k, ts);
        StoredStable(a, b, home, p.from, k, ts);
      }
      case Fetch(o, _) => { assert Grows(a[p.from], b[p.from]); }
      case FetchReply(o, _, _, _) => { assert Grows(a[p.to], b[p.to]); }
    }
  }

  lemma OpStable(a: Nodes, b: Nodes, home: seq<NodeId>, op: Pending)
    requires AllGrow(a, b) && OpOk(a, home, op)
    ensures OpOk(b, home, op)
  {
    if op.WriteOp? {
      forall i | 0 <= i < |op.acks| ensures Stored(b, home, op.acks[i], op.key, op.ts) {
        StoredStable(a, b, home, op.acks[i], op.key, op.ts);
      }
    }
  }

  lemma HoldersGrow(a: Nodes, b: Nodes, home: seq<NodeId>, k: string, ts: int)
    requires AllGrow(a, b)
    ensures Holders(a, home, k, ts) <= Holders(b, home, k, ts)
    ensures |Holders(a, home, k, ts)| <= |Holders(b, home, k, ts)|
  {
    forall n | n in Holders(a, home, k, ts) ensures n in Holders(b, home, k, ts) { VerGrows(a, b, n, k); }
    SubsetSize(Holders(a, home, k, ts), Holders(b, home, k, ts));
  }

  lemma SubsetSize(a: set<NodeId>, b: set<NodeId>)
    requires a <= b
    ensures |a| <= |b|
  {
    assert b == a + (b - a);
  }

  // ---------- handlers ----------

  lemma {:induction false} SendAllPackets(from: NodeId, to: seq<NodeId>, msg: Msg, t: Effect, p: Packet)
    requires t.SetTimer? && p in Packets(from, SendAll(to, msg) + [t])
    ensures p.from == from && p.to in to && p.msg == msg
  {
    assert (SendAll(to, msg) + [t])[..|SendAll(to, msg)|] == SendAll(to, msg);
    SendAllOnly(from, to, msg, p);
  }

  lemma {:induction false} SendAllOnly(from: NodeId, to: seq<NodeId>, msg: Msg, p: Packet)
    requires p in Packets(from, SendAll(to, msg))
    ensures p.from == from && p.to in to && p.msg == msg
  {
    if to != [] {
      var front := to[..|to| - 1];
      assert SendAll(to, msg)[..|SendAll(front, msg)|] == SendAll(front, msg);
      if p in Packets(from, SendAll(front, msg)) { SendAllOnly(from, front, msg, p); }
    }
  }

  lemma OnePacket(from: NodeId, to: NodeId, msg: Msg)
    ensures Packets(from, [Send(to, msg)]) == {Packet(from, to, msg)}
  {
    assert [Send(to, msg)][..0] == [];
  }

  lemma {:induction false} RepairPackets(from: NodeId, replies: seq<Reply>, key: string, newest: Reply, p: Packet)
    requires newest.value.Some? && newest.ts >= 0 && p in Packets(from, Repairs(replies, key, newest))
    ensures p.from == from && (exists i :: 0 <= i < |replies| && replies[i].from == p.to)
    ensures p.msg.Store? && p.msg.opId == None && p.msg.handoffOf == None && p.msg.ts >= 0
  {
    if replies != [] {
      var front, rep := replies[..|replies| - 1], replies[|replies| - 1];
      var older := Repairs(front, key, newest);
      if rep.ts < newest.ts {
        assert Repairs(replies, key, newest)[..|older|] == older;
      } else {
        assert Repairs(replies, key, newest) == older;
      }
      if p in Packets(from, older) {
        RepairPackets(from, front, key, newest, p);
        var i :| 0 <= i < |front| && front[i].from == p.to;
        assert replies[i].from == p.to;
      }
    }
  }

  /** What one node's reaction must deliver, given the cluster's nodes after the step. */
  ghost predicate Good(f: Config, nodes: Nodes, n: NodeId, fx: seq<Effect>)
    requires |f.order| >= 3
  {
    && n in nodes && Fixed(f, n, nodes[n]) && OpsOk(nodes, Home(f), nodes[n]) && AcksHeld(nodes, f, nodes[n])
    && forall p :: p in Packets(n, fx) ==> PacketOk(nodes, Home(f), p)
  }

  /** A node whose operations and history the step leaves as they were. */
  lemma KeptGood(f: Config, a: Nodes, b: Nodes, n: NodeId, fx: seq<Effect>)
    requires |f.order| >= 3 && AllGrow(a, b) && n in a && Fixed(f, n, b[n])
    requires OpsOk(a, Home(f), a[n]) && AcksHeld(a, f, a[n])
    requires b[n].pending == a[n].pending && b[n].nextOp == a[n].nextOp && b[n].history == a[n].history
    requires forall p :: p in Packets(n, fx) ==> PacketOk(b, Home(f), p)
    ensures Good(f, b, n, fx)
  {
    OpsStable(f, a, b, a[n]);
    AcksStable(f, a, b, a[n]);
  }

  lemma OpsStable(f: Config, a: Nodes, b: Nodes, s: State)
    requires |f.order| >= 3 && AllGrow(a, b) && OpsOk(a, Home(f), s)
    ensures OpsOk(b, Home(f), s)
  {
    forall o | o in s.pending ensures o < s.nextOp && OpOk(b, Home(f), s.pending[o]) {
      OpStable(a, b, Home(f), s.pending[o]);
    }
  }

  lemma AcksStable(f: Config, a: Nodes, b: Nodes, s: State)
    requires |f.order| >= 3 && AllGrow(a, b) && AcksHeld(a, f, s)
    ensures AcksHeld(b, f, s)
  {
    forall i | 0 <= i < |s.history| && s.history[i].Acked?
      ensures |Holders(b, Home(f), s.history[i].key, s.history[i].ts)| >= f.w
    {
      HoldersGrow(a, b, Home(f), s.history[i].key, s.history[i].ts);
    }
  }

  lemma StoreGood(f: Config, c: Cluster, b: Nodes, p: Packet, now: nat)
    requires Inv(f, c) && Enabled(c, Deliver(p, now)) && p.msg.Store? && p in c.net
    requires b == Step(c, Deliver(p, now)).nodes
    ensures Good(f, b, p.to, OnMessage(c.nodes[p.to], p.from, p.msg, now).1)
  {
    var a, n := c.nodes, p.to;
    assert PacketOk(a, Home(f), p);
    StepGrows(c, Deliver(p, now));
    OnePacket(n, p.from, StoreAck(p.msg.opId, p.msg.key, p.msg.ts, p.msg.handoffOf));
    WriteStable(a, b, p.from, p.msg.opId, p.msg.key, p.msg.ts);
    assert Ver(b, n, p.msg.key) >= p.msg.ts;
    KeptGood(f, a, b, n, OnMessage(a[n], p.from, p.msg, now).1);
  }

  lemma FetchGood(f: Config, c: Cluster, b: Nodes, p: Packet, now: nat)
    requires Inv(f, c) && Enabled(c, Deliver(p, now)) && p.msg.Fetch?
    requires b == Step(c, Deliver(p, now)).nodes
    ensures Good(f, b, p.to, OnMessage(c.nodes[p.to], p.from, p.msg, now).1)
  {
    var a, n := c.nodes, p.to;
    assert PacketOk(a, Home(f), p);
    StepGrows(c, Deliver(p, now));
    var fx := OnMessage(a[n], p.from, p.msg, now).1;
    OnePacket(n, p.from, fx[0].msg);
    assert Grows(a[p.from], b[p.from]);
    KeptGood(f, a, b, n, fx);
  }

  function Members(s: seq<NodeId>): (m: set<NodeId>)
    ensures forall n :: n in m <==> n in s
  {
    if s == [] then {} else Members(s[..|s| - 1]) + {s[|s| - 1]}
  }

  lemma {:induction false} DistinctSize(s: seq<NodeId>)
    requires Distinct(s)
    ensures |Members(s)| == |s|
  {
    if s != [] {
      DistinctSize(s[..|s| - 1]);
      assert s[|s| - 1] !in s[..|s| - 1];
    }
  }

  /** Enough distinct acks make a quorum of holders. */
  lemma AcksAreHolders(nodes: Nodes, home: seq<NodeId>, acks: seq<NodeId>, k: string, ts: int)
    requires Distinct(acks) && forall i :: 0 <= i < |acks| ==> Stored(nodes, home, acks[i], k, ts)
    ensures |Holders(nodes, home, k, ts)| >= |acks|
  {
    DistinctSize(acks);
    forall n | n in Members(acks) ensures n in Holders(nodes, home, k, ts) {
      var i :| 0 <= i < |acks| && acks[i] == n;
      assert Stored(nodes, home, acks[i], k, ts);
    }
    SubsetSize(Members(acks), Holders(nodes, home, k, ts));
  }

  lemma PutOp(nodes: Nodes, home: seq<NodeId>, s: State, o: OpId, op: Pending)
    requires OpsOk(nodes, home, s) && o < s.nextOp && OpOk(nodes, home, op)
    ensures OpsOk(nodes, home, s.(pending := s.pending[o := op]))
  {
  }

  lemma DropOp(nodes: Nodes, home: seq<NodeId>, s: State, o: OpId, h: seq<Record>)
    requires OpsOk(nodes, home, s)
    ensures OpsOk(nodes, home, CompleteOp(s, o).(history := h))
  {
  }

  lemma MoreHistory(nodes: Nodes, f: Config, s: State, s': State, more: seq<Record>)
    requires |f.order| >= 3 && AcksHeld(nodes, f, s) && s'.history == s.history + more
    requires forall i :: 0 <= i < |more| && more[i].Acked? ==> |Holders(nodes, Home(f), more[i].key, more[i].ts)| >= f.w
    ensures AcksHeld(nodes, f, s')
  {
    forall i | 0 <= i < |s'.history| && s'.history[i].Acked?
      ensures |Holders(nodes, Home(f), s'.history[i].key, s'.history[i].ts)| >= f.w
    {
      if i >= |s.history| { assert s'.history[i] == more[i - |s.history|]; }
    }
  }

  lemma AcksSnoc(f: Config, a: Nodes, b: Nodes, op: Pending, from: NodeId)
    requires |f.order| >= 3 && AllGrow(a, b) && op.WriteOp? && OpOk(a, Home(f), op) && from !in op.acks
    requires Stored(a, Home(f), from, op.key, op.ts)
    ensures OpOk(b, Home(f), op.(acks := op.acks + [from]))
  {
    var acks := op.acks + [from];
    forall i | 0 <= i < |acks| ensures Stored(b, Home(f), acks[i], op.key, op.ts) {
      StoredStable(a, b, Home(f), acks[i], op.key, op.ts);
    }
  }

  /** A first ack of a write from a replica that stores it. */
  lemma AckGood(f: Config, c: Cluster, b: Nodes, p: Packet, now: nat)
    requires Inv(f, c) && Enabled(c, Deliver(p, now)) && p.msg.StoreAck? && p.msg.opId.Some?
    requires b == Step(c, Deliver(p, now)).nodes
    requires var s, o := c.nodes[p.to], p.msg.opId.value; o in s.pending && s.pending[o].WriteOp? && p.from !in s.pending[o].acks
    ensures Good(f, b, p.to, [])
  {
    var a, n, o := c.nodes, p.to, p.msg.opId.value;
    var s := a[n];
    var op := s.pending[o];
    assert PacketOk(a, Home(f), p) && OpOk(a, Home(f), op);
    StepGrows(c, Deliver(p, now));
    AckReaction(f, a, b, s, p, o, now);
  }

  lemma AckReaction(f: Config, a: Nodes, b: Nodes, s: State, p: Packet, o: OpId, now: nat)
    requires |f.order| >= 3 && AllGrow(a, b) && Fixed(f, p.to, s) && OpsOk(a, Home(f), s) && AcksHeld(a, f, s)
    requires p.msg.StoreAck? && p.msg.opId == Some(o) && p.msg.handoffOf == None
    requires o in s.pending && s.pending[o].WriteOp? && p.from !in s.pending[o].acks
    requires Stored(a, Home(f), p.from, s.pending[o].key, s.pending[o].ts)
    requires p.to in b && b[p.to] == OnStoreAck(s, p.from, p.msg, now)
    ensures Good(f, b, p.to, [])
  {
    var op := s.pending[o];
    var acks := op.acks + [p.from];
    OpsStable(f, a, b, s);
    AcksStable(f, a, b, s);
    AcksSnoc(f, a, b, op, p.from);
    if |acks| < s.w {
      PutOp(b, Home(f), s, o, op.(acks := acks));
      MoreHistory(b, f, s, b[p.to], []);
    } else {
      AcksAreHolders(b, Home(f), acks, op.key, op.ts);
      MoreHistory(b, f, s, b[p.to], [Acked(op.key, op.ts, now)]);
      DropOp(b, Home(f), s, o, b[p.to].history);
    }
  }

  lemma StoreAckGood(f: Config, c: Cluster, b: Nodes, p: Packet, now: nat)
    requires Inv(f, c) && Enabled(c, Deliver(p, now)) && p.msg.StoreAck?
    requires b == Step(c, Deliver(p, now)).nodes
    ensures Good(f, b, p.to, [])
  {
    var a, n := c.nodes, p.to;
    var s := a[n];
    assert PacketOk(a, Home(f), p);
    if p.msg.opId.Some? && p.msg.opId.value in s.pending && s.pending[p.msg.opId.value].WriteOp?
       && p.from !in s.pending[p.msg.opId.value].acks {
      AckGood(f, c, b, p, now);
    } else {
      StepGrows(c, Deliver(p, now));
      KeptGood(f, a, b, n, []);
    }
  }

  lemma {:induction false} NewestIn(replies: seq<Reply>)
    requires replies != []
    ensures Newest(replies) in replies && forall i :: 0 <= i < |replies| ==> replies[i].ts <= Newest(replies).ts
  {
    if |replies| > 1 {
      NewestIn(replies[..|replies| - 1]);
    }
  }

  lemma {:induction false} RepairLogOnly(replies: seq<Reply>, key: string, newest: Reply, now: nat)
    ensures forall i :: 0 <= i < |RepairLog(replies, key, newest, now)| ==> !RepairLog(replies, key, newest, now)[i].Acked?
  {
    if replies != [] { RepairLogOnly(replies[..|replies| - 1], key, newest, now); }
  }

  lemma ReadFinish(f: Config, b: Nodes, s: State, n: NodeId, o: OpId, key: string, replies: seq<Reply>, now: nat)
    requires |f.order| >= 3 && OpsOk(b, Home(f), s) && AcksHeld(b, f, s) && OpOk(b, Home(f), ReadOp(key, replies))
    requires replies != [] && n in b && Fixed(f, n, b[n])
    requires var newest := Newest(replies);
      var log := if newest.value.Some? then RepairLog(replies, key, newest, now) else [];
      b[n] == CompleteOp(s, o).(history := s.history + [ReadDone(s.self, key, newest.ts, now)] + log)
    ensures var newest := Newest(replies);
      Good(f, b, n, if newest.value.Some? then Repairs(replies, key, newest) else [])
  {
    var newest := Newest(replies);
    var log := if newest.value.Some? then RepairLog(replies, key, newest, now) else [];
    NewestIn(replies);
    RepairLogOnly(replies, key, newest, now);
    assert b[n].history == s.history + ([ReadDone(s.self, key, newest.ts, now)] + log);
    MoreHistory(b, f, s, b[n], [ReadDone(s.self, key, newest.ts, now)] + log);
    DropOp(b, Home(f), s, o, b[n].history);
    if newest.value.Some? {
      forall q | q in Packets(n, Repairs(replies, key, newest)) ensures PacketOk(b, Home(f), q) {
        RepairPackets(n, replies, key, newest, q);
      }
    }
  }

  /** A first reply to a read that is still pending. */
  lemma ReplyReaction(f: Config, b: Nodes, s: State, p: Packet, now: nat)
    requires |f.order| >= 3 && Fixed(f, p.to, s) && OpsOk(b, Home(f), s) && AcksHeld(b, f, s)
    requires p.msg.FetchReply? && p.from in Home(f) && (p.msg.found.Some? ==> p.msg.ts >= 0)
    requires var o := p.msg.getOp; o in s.pending && s.pending[o].ReadOp? && !Replied(s.pending[o].replies, p.from)
    requires p.to in b && b[p.to] == OnFetchReply(s, p.from, p.msg, now).0
    ensures Good(f, b, p.to, OnFetchReply(s, p.from, p.msg, now).1)
  {
    var o := p.msg.getOp;
    var op := s.pending[o];
    var replies := op.replies + [Reply(p.from, p.msg.ts, p.msg.found)];
    assert OpOk(b, Home(f), op);
    assert OpOk(b, Home(f), op.(replies := replies));
    if |replies| < s.r {
      PutOp(b, Home(f), s, o, op.(replies := replies));
      MoreHistory(b, f, s, b[p.to], []);
    } else {
      NewestIn(replies);
      ReadFinish(f, b, s, p.to, o, op.key, replies, now);
    }
  }

  lemma ReplyGood(f: Config, c: Cluster, b: Nodes, p: Packet, now: nat)
    requires Inv(f, c) && Enabled(c, Deliver(p, now)) && p.msg.FetchReply?
    requires b == Step(c, Deliver(p, now)).nodes
    requires var s, o := c.nodes[p.to], p.msg.getOp;
      o in s.pending && s.pending[o].ReadOp? && !Replied(s.pending[o].replies, p.from)
    ensures Good(f, b, p.to, OnMessage(c.nodes[p.to], p.from, p.msg, now).1)
  {
    var a, s := c.nodes, c.nodes[p.to];
    assert PacketOk(a, Home(f), p);
    StepGrows(c, Deliver(p, now));
    OpsStable(f, a, b, s);
    AcksStable(f, a, b, s);
    ReplyReaction(f, b, s, p, now);
  }

  lemma FetchReplyGood(f: Config, c: Cluster, b: Nodes, p: Packet, now: nat)
    requires Inv(f, c) && Enabled(c, Deliver(p, now)) && p.msg.FetchReply?
    requires b == Step(c, Deliver(p, now)).nodes
    ensures Good(f, b, p.to, OnMessage(c.nodes[p.to], p.from, p.msg, now).1)
  {
    var s := c.nodes[p.to];
    if p.msg.getOp in s.pending && s.pending[p.msg.getOp].ReadOp? && !Replied(s.pending[p.msg.getOp].replies, p.from) {
      ReplyGood(f, c, b, p, now);
    } else {
      StepGrows(c, Deliver(p, now));
      KeptGood(f, c.nodes, b, p.to, []);
    }
  }

  lemma ClientGood(f: Config, c: Cluster, b: Nodes, n: NodeId, cmd: Cmd, now: nat)
    requires Inv(f, c) && n in c.nodes && b == Step(c, Client(n, cmd, now)).nodes
    ensures Good(f, b, n, OnClient(c.nodes[n], cmd, now).1)
  {
    var a, s := c.nodes, c.nodes[n];
    StepGrows(c, Client(n, cmd, now));
    OpsStable(f, a, b, s);
    AcksStable(f, a, b, s);
    var fx := OnClient(s, cmd, now).1;
    var t := SetTimer(OP_TIMEOUT_MS, OpTimeout(s.nextOp));
    forall q | q in Packets(n, fx) ensures PacketOk(b, Home(f), q) {
      match cmd {
        case WriteCmd(k, v) => { SendAllPackets(n, s.home, Store(Some(s.nextOp), k, v, now + 1, None), t, q); }
        case ReadCmd(k) => { SendAllPackets(n, s.home, Fetch(s.nextOp, k), t, q); }
      }
    }
  }

  lemma TimerReaction(f: Config, b: Nodes, s: State, n: NodeId, t: Timer, now: nat)
    requires |f.order| >= 3 && Fixed(f, n, s) && OpsOk(b, Home(f), s) && AcksHeld(b, f, s)
    requires n in b && b[n] == OnTimer(s, t, now).0
    ensures Good(f, b, n, OnTimer(s, t, now).1)
  {
    if t.OpTimeout? && t.opId in s.pending {
      var r := if s.pending[t.opId].ReadOp? then FailedRead(s.self, s.pending[t.opId].key, now)
               else FailedWrite(s.pending[t.opId].key, now);
      MoreHistory(b, f, s, b[n], [r]);
      DropOp(b, Home(f), s, t.opId, b[n].history);
    }
  }

  lemma TimerGood(f: Config, c: Cluster, b: Nodes, n: NodeId, t: Timer, now: nat)
    requires Inv(f, c) && n in c.nodes && b == Step(c, Fire(n, t, now)).nodes
    ensures Good(f, b, n, OnTimer(c.nodes[n], t, now).1)
  {
    var a, s := c.nodes, c.nodes[n];
    StepGrows(c, Fire(n, t, now));
    assert Fixed(f, n, s);
    OpsStable(f, a, b, s);
    AcksStable(f, a, b, s);
    TimerReaction(f, b, s, n, t, now);
  }

  lemma ActionSane(f: Config, c: Cluster, a: Action)
    requires Inv(f, c) && Enabled(c, a)
    ensures Sane(a)
  {
    if a.Deliver? { assert PacketOk(c.nodes, Home(f), a.p); }
  }

  lemma ActorGood(f: Config, c: Cluster, a: Action)
    requires Inv(f, c) && Enabled(c, a)
    ensures Good(f, Step(c, a).nodes, Actor(a), React(c.nodes[Actor(a)], a).1)
  {
    var b := Step(c, a).nodes;
    match a {
      case Client(n, cmd, now) => { ClientGood(f, c, b, n, cmd, now); }
      case Fire(n, t, now) => { TimerGood(f, c, b, n, t, now); }
      case Deliver(p, now) => {
        assert PacketOk(c.nodes, Home(f), p);
        match p.msg {
          case Store(_, _, _, _, _) => { StoreGood(f, c, b, p, now); }
          case StoreAck(_, _, _, _) => { StoreAckGood(f, c, b, p, now); }
          case Fetch(_, _) => { FetchGood(f, c, b, p, now); }
          case FetchReply(_, _, _, _) => { FetchReplyGood(f, c, b, p, now); }
        }
      }
    }
  }

  lemma StepInv(f: Config, c: Cluster, a: Action)
    requires Inv(f, c) && Enabled(c, a)
    ensures Inv(f, Step(c, a))
  {
    var c' := Step(c, a);
    ActionSane(f, c, a);
    StepGrows(c, a);
    ActorGood(f, c, a);
    forall n | n in c'.nodes
      ensures Fixed(f, n, c'.nodes[n]) && OpsOk(c'.nodes, Home(f), c'.nodes[n]) && AcksHeld(c'.nodes, f, c'.nodes[n])
    {
      if n != Actor(a) {
        assert c'.nodes[n] == c.nodes[n];
        OpsStable(f, c.nodes, c'.nodes, c.nodes[n]);
        AcksStable(f, c.nodes, c'.nodes, c.nodes[n]);
      }
    }
    forall p | p in c'.net ensures PacketOk(c'.nodes, Home(f), p) {
      if p in c.net { PacketStable(c.nodes, c'.nodes, Home(f), p); }
    }
  }

  lemma StartInv(f: Config)
    requires ConfigOk(f)
    ensures Inv(f, Start(f))
  {
  }

  lemma {:induction false} ExecInv(f: Config, c: Cluster, acts: seq<Action>)
    requires Inv(f, c) && Runs(c, acts)
    ensures Inv(f, Exec(c, acts))
  {
    if acts != [] {
      ExecInv(f, c, acts[..|acts| - 1]);
      StepInv(f, Exec(c, acts[..|acts| - 1]), acts[|acts| - 1]);
    }
  }
}
