/** Replication over whole runs: packets may be lost, repeated and reordered but take at least the least latency,
    timers fire at any time, and dead nodes take no step. */
module ReplicationRuns {
  import opened Replication

  datatype Packet = Packet(from: NodeId, to: NodeId, msg: Msg, sentAt: nat)

  type Nodes = map<NodeId, State>

  datatype Cluster = Cluster(nodes: Nodes, net: set<Packet>, clock: nat, least: nat)

  datatype Action =
    | Client(n: NodeId, cmd: Cmd, now: nat)
    | Deliver(p: Packet, now: nat)
    | Fire(n: NodeId, tag: nat, now: nat)

  function PacketOf(from: NodeId, f: Effect, now: nat): set<Packet> {
    if f.Send? then {Packet(from, f.to, f.msg, now)} else {}
  }

  function Packets(from: NodeId, fx: seq<Effect>, now: nat): set<Packet> {
    if fx == [] then {} else Packets(from, fx[..|fx| - 1], now) + PacketOf(from, fx[|fx| - 1], now)
  }

  function Actor(a: Action): NodeId { if a.Deliver? then a.p.to else a.n }

  /** The virtual clock never runs backwards, and a message is not delivered before the least latency is over. */
  predicate Enabled(c: Cluster, a: Action) {
    Actor(a) in c.nodes && a.now >= c.clock && (a.Deliver? ==> a.p in c.net && a.now >= a.p.sentAt + c.least)
  }

  function React(s: State, a: Action): (State, seq<Effect>) {
    match a
    case Client(_, cmd, now) => OnClient(s, cmd, now)
    case Deliver(p, now) => OnMessage(s, p.from, p.msg, now)
    case Fire(_, tag, _) => OnTimer(s, tag)
  }

  function Step(c: Cluster, a: Action): Cluster
    requires Enabled(c, a)
  {
    var r := React(c.nodes[Actor(a)], a);
    Cluster(c.nodes[Actor(a) := r.0], c.net + Packets(Actor(a), r.1, a.now), a.now, c.least)
  }

  ghost predicate Runs(c: Cluster, acts: seq<Action>)
    decreases |acts|, 0
  {
    acts == [] || (Runs(c, acts[..|acts| - 1]) && Enabled(Exec(c, acts[..|acts| - 1]), acts[|acts| - 1]))
  }

  ghost function Exec(c: Cluster, acts: seq<Action>): Cluster
    requires Runs(c, acts)
    decreases |acts|, 1
  {
    if acts == [] then c else Step(Exec(c, acts[..|acts| - 1]), acts[|acts| - 1])
  }

  ghost predicate Distinct(s: seq<NodeId>) {
    forall i, j :: 0 <= i < j < |s| ==> s[i] != s[j]
  }

  /** Some nodes as they start. */
  function Fresh(order: seq<NodeId>, mode: Mode, ns: seq<NodeId>): (m: Nodes)
    requires order != []
    ensures forall n :: n in m <==> n in ns
    ensures forall n :: n in m ==> m[n] == Init(n, order, mode)
  {
    if ns == [] then map[] else Fresh(order, mode, ns[..|ns| - 1])[ns[|ns| - 1] := Init(ns[|ns| - 1], order, mode)]
  }

  function Start(order: seq<NodeId>, mode: Mode, least: nat): Cluster
    requires order != []
  {
    Cluster(Fresh(order, mode, order), {}, 0, least)
  }

  /** With no latency, what a node applied may be missed by reads of the same tick. */
  function Slack(least: nat): nat { if least == 0 then 1 else 0 }

  // ---------- the invariant ----------

  /** log[i] carries number i + 1. */
  ghost predicate Numbered(log: seq<Entry>) {
    forall i :: 0 <= i < |log| ==> log[i].tag == i + 1
  }

  ghost predicate In(log: seq<Entry>, e: Entry) {
    1 <= e.tag <= |log| && log[e.tag - 1] == e
  }

  /** The number of the last entry for a key. */
  function Latest(log: seq<Entry>, k: string): nat {
    if log == [] then 0 else if log[|log| - 1].key == k then log[|log| - 1].tag else Latest(log[..|log| - 1], k)
  }

  ghost predicate DataOk(s: State) {
    forall k {:trigger SeqOf(s, k)} :: SeqOf(s, k) == Latest(s.log, k)
  }

  /** A read of the key of entry q that did not see it. */
  ghost predicate Missed(log: seq<Entry>, r: Record, q: nat)
    requires 1 <= q <= |log|
  {
    r.ReadDone? && r.key == log[q - 1].key && r.returned < q
  }

  /** s has applied entry q, and every read of its own that missed it came before t. */
  ghost predicate Has(log: seq<Entry>, s: State, q: nat, t: nat) {
    1 <= q <= |s.log| && q <= |log| && forall i :: 0 <= i < |s.history| && Missed(log, s.history[i], q) ==> s.history[i].time < t
  }

  ghost predicate ReadsPast(s: State, clock: nat) {
    forall i :: 0 <= i < |s.history| && s.history[i].ReadDone? ==> s.history[i].time <= clock
  }

  ghost predicate Fixed(order: seq<NodeId>, mode: Mode, n: NodeId, s: State)
    requires order != []
  {
    && s.self == n && s.leader == order[0] && s.followers == order[1..] && s.mode == mode
    && s.role == (if n == order[0] then Leader else Follower)
  }

  ghost predicate BufferOk(log: seq<Entry>, s: State) {
    forall q :: q in s.buffer ==> s.buffer[q].tag == q && In(log, s.buffer[q])
  }

  ghost predicate NodeOk(order: seq<NodeId>, mode: Mode, log: seq<Entry>, clock: nat, n: NodeId, s: State)
    requires order != []
  {
    && Fixed(order, mode, n, s) && s.log <= log && DataOk(s) && ReadsPast(s, clock) && BufferOk(log, s)
    && (if n == order[0] then s.log == log && s.nextSeq == |log| + 1 else s.pending == map[])
  }

  /** A pending write: whoever is no longer awaited has it. */
  ghost predicate PendingOk(order: seq<NodeId>, nodes: Nodes, log: seq<Entry>, clock: nat, q: nat, p: Pending)
    requires order != []
  {
    && p.entry.tag == q && In(log, p.entry)
    && forall f :: f in order[1..] && f !in p.awaiting ==> f in nodes && Has(log, nodes[f], q, clock)
  }

  ghost predicate AckOk(nodes: Nodes, log: seq<Entry>, slack: nat, r: Record) {
    r.Acked? ==> 1 <= r.tag <= |log| && log[r.tag - 1].key == r.key
                 && forall n {:trigger nodes[n]} :: n in nodes ==> Has(log, nodes[n], r.tag, r.time + slack)
  }

  ghost predicate LeaderOk(order: seq<NodeId>, mode: Mode, nodes: Nodes, log: seq<Entry>, clock: nat, slack: nat, s: State)
    requires order != []
  {
    && (forall q :: q in s.pending ==> PendingOk(order, nodes, log, clock + slack, q, s.pending[q]))
    && (mode == Sync ==> forall i :: 0 <= i < |s.history| ==> AckOk(nodes, log, slack, s.history[i]))
  }

  ghost predicate PacketOk(order: seq<NodeId>, mode: Mode, nodes: Nodes, log: seq<Entry>, clock: nat, p: Packet)
    requires order != []
  {
    p.sentAt <= clock &&
    match p.msg
    case Append(e) => In(log, e)
    case Confirm(q) =>
      p.from in order[1..] && p.from in nodes && order[0] in nodes
      && Has(log, nodes[p.from], q, p.sentAt + 1) && Has(log, nodes[order[0]], q, p.sentAt + 1)
  }

  ghost predicate Inv(order: seq<NodeId>, mode: Mode, c: Cluster)
    requires order != []
  {
    && Distinct(order) && (forall n :: n in c.nodes <==> n in order) && order[0] in c.nodes
    && var log := c.nodes[order[0]].log;
    && Numbered(log)
    && (forall n {:trigger c.nodes[n]} :: n in c.nodes ==> NodeOk(order, mode, log, c.clock, n, c.nodes[n]))
    && LeaderOk(order, mode, c.nodes, log, c.clock, Slack(c.least), c.nodes[order[0]])
    && (forall p :: p in c.net ==> PacketOk(order, mode, c.nodes, log, c.clock, p))
  }

  // ---------- what only grows ----------

  /** New records are past the old ones, and new reads see everything applied before. */
  ghost predicate Grows(s: State, s': State) {
    && s.log <= s'.log && s.history <= s'.history
    && forall i :: |s.history| <= i < |s'.history| && s'.history[i].ReadDone? ==>
         s'.history[i].returned >= Latest(s.log, s'.history[i].key)
  }

  lemma {:induction false} LatestSees(log: seq<Entry>, q: nat)
    requires Numbered(log) && 1 <= q <= |log|
    ensures Latest(log, log[q - 1].key) >= q
  {
    if q < |log| {
      var front := log[..|log| - 1];
      LatestSees(front, q);
      assert front[q - 1] == log[q - 1];
    }
  }

  lemma HasStable(log: seq<Entry>, log': seq<Entry>, s: State, s': State, q: nat, t: nat, t': nat)
    requires Has(log, s, q, t) && log <= log' && Grows(s, s') && t <= t'
    requires Numbered(s.log) && s.log <= log
    ensures Has(log', s', q, t')
  {
    LatestSees(s.log, q);
    assert s.log[q - 1] == log[q - 1] == log'[q - 1];
    assert forall i :: |s.history| <= i < |s'.history| ==> !Missed(log', s'.history[i], q);
    forall i | 0 <= i < |s'.history| && Missed(log', s'.history[i], q) ensures s'.history[i].time < t' {
      assert s.history[i] == s'.history[i];
      assert Missed(log, s.history[i], q);
    }
  }

  lemma InStable(log: seq<Entry>, log': seq<Entry>, e: Entry)
    requires In(log, e) && log <= log'
    ensures In(log', e)
  {
  }

  // ---------- handlers ----------

  lemma {:induction false} DrainGrows(s: State)
    ensures var r := Drain(s).0;
      && s.log <= r.log && r.history == s.history && r.(log := s.log, data := s.data, buffer := s.buffer) == s
    decreases |s.buffer|
  {
    var gap := |s.log| + 1;
    if gap in s.buffer {
      var rest := s.buffer - {gap};
      assert s.buffer.Keys == rest.Keys + {gap};
      DrainGrows(ApplyEntry(s.(buffer := rest), s.buffer[gap]));
    }
  }

  lemma ApplyData(s: State, e: Entry)
    requires DataOk(s)
    ensures DataOk(ApplyEntry(s, e))
  {
    var s' := ApplyEntry(s, e);
    assert s'.log[..|s'.log| - 1] == s.log;
    forall k ensures SeqOf(s', k) == Latest(s'.log, k) { assert SeqOf(s, k) == Latest(s.log, k); }
  }

  /** What draining keeps of a follower. */
  ghost predicate Drains(s: State, log: seq<Entry>) {
    s.log <= log && Numbered(log) && BufferOk(log, s) && DataOk(s)
  }

  lemma DrainOnce(s: State, log: seq<Entry>)
    requires Drains(s, log) && |s.log| + 1 in s.buffer
    ensures Drains(ApplyEntry(s.(buffer := s.buffer - {|s.log| + 1}), s.buffer[|s.log| + 1]), log)
    ensures s.buffer[|s.log| + 1].tag == |s.log| + 1
  {
    var gap := |s.log| + 1;
    var rest := s.(buffer := s.buffer - {gap});
    assert In(log, s.buffer[gap]);
    forall k ensures SeqOf(rest, k) == Latest(rest.log, k) { assert SeqOf(s, k) == Latest(s.log, k); }
    ApplyData(rest, s.buffer[gap]);
    assert s.log + [s.buffer[gap]] <= log;
  }

  /** Draining applies entries of the leader's log, in order, and numbers them as it goes. */
  lemma {:induction false} DrainOk(s: State, log: seq<Entry>)
    requires Drains(s, log)
    ensures Drains(Drain(s).0, log) && forall i :: 0 <= i < |Drain(s).1| ==> 1 <= Drain(s).1[i] <= |Drain(s).0.log|
    decreases |s.buffer|
  {
    var gap := |s.log| + 1;
    if gap in s.buffer {
      var rest := s.buffer - {gap};
      assert s.buffer.Keys == rest.Keys + {gap};
      DrainOnce(s, log);
      DrainOk(ApplyEntry(s.(buffer := rest), s.buffer[gap]), log);
      DrainGrows(ApplyEntry(s.(buffer := rest), s.buffer[gap]));
    }
  }

  lemma {:induction false} SendAllOnly(from: NodeId, to: seq<NodeId>, msg: Msg, now: nat, p: Packet)
    requires p in Packets(from, SendAll(to, msg), now)
    ensures p.from == from && p.to in to && p.msg == msg && p.sentAt == now
  {
    if to != [] {
      var front := SendAll(to[..|to| - 1], msg);
      assert SendAll(to, msg)[..|front|] == front;
      if p in Packets(from, front, now) { SendAllOnly(from, to[..|to| - 1], msg, now, p); }
    }
  }

  lemma SendAllThen(from: NodeId, to: seq<NodeId>, msg: Msg, t: Effect, now: nat)
    requires t.Retransmit?
    ensures Packets(from, SendAll(to, msg) + [t], now) == Packets(from, SendAll(to, msg), now)
  {
    assert (SendAll(to, msg) + [t])[..|SendAll(to, msg)|] == SendAll(to, msg);
  }

  lemma {:induction false} ConfirmsOnly(from: NodeId, to: NodeId, tags: seq<nat>, now: nat, p: Packet)
    requires p in Packets(from, Confirms(to, tags), now)
    ensures p.from == from && p.msg.Confirm? && p.msg.tag in tags && p.sentAt == now
  {
    if tags != [] {
      var front := Confirms(to, tags[..|tags| - 1]);
      assert Confirms(to, tags)[..|front|] == front;
      if p in Packets(from, front, now) { ConfirmsOnly(from, to, tags[..|tags| - 1], now, p); }
    }
  }

  // ---------- one step ----------

  lemma AppendGrows(s: State, e: Entry)
    ensures Grows(s, OnAppend(s, e).0)
  {
    DrainGrows(s.(buffer := s.buffer[e.tag := e]));
  }

  lemma ReactGrows(s: State, a: Action)
    requires DataOk(s)
    ensures Grows(s, React(s, a).0)
  {
    match a {
      case Client(_, cmd, now) => { if cmd.ReadCmd? { assert SeqOf(s, cmd.key) == Latest(s.log, cmd.key); } }
      case Fire(_, tag, _) => {}
      case Deliver(p, now) => { if p.msg.Append? { AppendGrows(s, p.msg.entry); } }
    }
  }

  ghost predicate AllGrow(a: Nodes, b: Nodes) {
    a.Keys == b.Keys && forall n {:trigger a[n]} :: n in a ==> Grows(a[n], b[n])
  }

  /** The leader's log after a step, and everything that was known before. */
  ghost predicate Carries(order: seq<NodeId>, mode: Mode, c: Cluster, c': Cluster)
    requires order != [] && order[0] in c.nodes && order[0] in c'.nodes
  {
    && Inv(order, mode, c) && AllGrow(c.nodes, c'.nodes) && c.clock <= c'.clock && c'.least == c.least
    && c.nodes[order[0]].log <= c'.nodes[order[0]].log && Numbered(c'.nodes[order[0]].log)
  }

  lemma HasCarries(order: seq<NodeId>, mode: Mode, c: Cluster, c': Cluster, n: NodeId, q: nat, t: nat, t': nat)
    requires order != [] && order[0] in c.nodes && order[0] in c'.nodes && Carries(order, mode, c, c')
    requires n in c.nodes && Has(c.nodes[order[0]].log, c.nodes[n], q, t) && t <= t'
    ensures Has(c'.nodes[order[0]].log, c'.nodes[n], q, t')
  {
    var log := c.nodes[order[0]].log;
    assert NodeOk(order, mode, log, c.clock, n, c.nodes[n]);
    assert Grows(c.nodes[n], c'.nodes[n]);
    HasStable(log, c'.nodes[order[0]].log, c.nodes[n], c'.nodes[n], q, t, t');
  }

  lemma PendingCarries(order: seq<NodeId>, mode: Mode, c: Cluster, c': Cluster, q: nat, p: Pending)
    requires order != [] && order[0] in c.nodes && order[0] in c'.nodes && Carries(order, mode, c, c')
    requires PendingOk(order, c.nodes, c.nodes[order[0]].log, c.clock + Slack(c.least), q, p)
    ensures PendingOk(order, c'.nodes, c'.nodes[order[0]].log, c'.clock + Slack(c.least), q, p)
  {
    forall f | f in order[1..] && f !in p.awaiting
      ensures f in c'.nodes && Has(c'.nodes[order[0]].log, c'.nodes[f], q, c'.clock + Slack(c.least))
    {
      HasCarries(order, mode, c, c', f, q, c.clock + Slack(c.least), c'.clock + Slack(c.least));
    }
  }

  lemma AckCarries(order: seq<NodeId>, mode: Mode, c: Cluster, c': Cluster, r: Record)
    requires order != [] && order[0] in c.nodes && order[0] in c'.nodes && Carries(order, mode, c, c')
    requires AckOk(c.nodes, c.nodes[order[0]].log, Slack(c.least), r)
    ensures AckOk(c'.nodes, c'.nodes[order[0]].log, Slack(c.least), r)
  {
    if r.Acked? {
      var t := r.time + Slack(c.least);
      forall n | n in c'.nodes ensures Has(c'.nodes[order[0]].log, c'.nodes[n], r.tag, t) {
        assert n in c.nodes && Has(c.nodes[order[0]].log, c.nodes[n], r.tag, t);
        HasCarries(order, mode, c, c', n, r.tag, t, t);
      }
    }
  }

  lemma PacketCarries(order: seq<NodeId>, mode: Mode, c: Cluster, c': Cluster, p: Packet)
    requires order != [] && order[0] in c.nodes && order[0] in c'.nodes && Carries(order, mode, c, c')
    requires PacketOk(order, mode, c.nodes, c.nodes[order[0]].log, c.clock, p)
    ensures PacketOk(order, mode, c'.nodes, c'.nodes[order[0]].log, c'.clock, p)
  {
    if p.msg.Confirm? {
      HasCarries(order, mode, c, c', p.from, p.msg.tag, p.sentAt + 1, p.sentAt + 1);
      HasCarries(order, mode, c, c', order[0], p.msg.tag, p.sentAt + 1, p.sentAt + 1);
    }
  }

  lemma NodeCarries(order: seq<NodeId>, mode: Mode, log: seq<Entry>, log': seq<Entry>, clock: nat, clock': nat, n: NodeId, s: State)
    requires order != [] && n != order[0] && NodeOk(order, mode, log, clock, n, s) && log <= log' && clock <= clock'
    ensures NodeOk(order, mode, log', clock', n, s)
  {
    forall q | q in s.buffer ensures s.buffer[q].tag == q && In(log', s.buffer[q]) { InStable(log, log', s.buffer[q]); }
  }

  // ---------- the actor ----------

  /** What the actor owes after its step: itself in order, its packets in order, the leader's books in order. */
  ghost predicate Good(order: seq<NodeId>, mode: Mode, c': Cluster, n: NodeId, sent: set<Packet>)
    requires order != [] && order[0] in c'.nodes
  {
    var log := c'.nodes[order[0]].log;
    && n in c'.nodes && NodeOk(order, mode, log, c'.clock, n, c'.nodes[n])
    && (n == order[0] ==> LeaderOk(order, mode, c'.nodes, log, c'.clock, Slack(c'.least), c'.nodes[n]))
    && (forall p :: p in sent ==> PacketOk(order, mode, c'.nodes, log, c'.clock, p))
  }

  /** A node has what it has applied, by the next tick. */
  lemma HasNow(log: seq<Entry>, s: State, q: nat, clock: nat)
    requires 1 <= q <= |s.log| && s.log <= log && ReadsPast(s, clock)
    ensures Has(log, s, q, clock + 1)
  {
  }

  lemma AppendNode(order: seq<NodeId>, mode: Mode, log: seq<Entry>, clock: nat, n: NodeId, s: State, e: Entry, now: nat)
    requires order != [] && n != order[0] && NodeOk(order, mode, log, clock, n, s) && In(log, e) && clock <= now && Numbered(log)
    ensures NodeOk(order, mode, log, now, n, OnAppend(s, e).0)
    ensures forall p :: p in Packets(n, OnAppend(s, e).1, now) ==>
              p.from == n && p.sentAt == now && p.msg.Confirm? && 1 <= p.msg.tag <= |OnAppend(s, e).0.log|
  {
    var s1 := s.(buffer := s.buffer[e.tag := e]);
    forall k ensures SeqOf(s1, k) == Latest(s1.log, k) { assert SeqOf(s, k) == Latest(s.log, k); }
    DrainOk(s1, log);
    DrainGrows(s1);
    var again := if e.tag <= |s.log| then [e.tag] else [];
    forall p | p in Packets(n, OnAppend(s, e).1, now)
      ensures p.from == n && p.sentAt == now && p.msg.Confirm? && 1 <= p.msg.tag <= |OnAppend(s, e).0.log|
    {
      ConfirmsOnly(n, s.leader, again + Drain(s1).1, now, p);
    }
  }

  lemma AppendGood(order: seq<NodeId>, mode: Mode, c: Cluster, p: Packet, now: nat)
    requires order != [] && order[0] in c.nodes && Inv(order, mode, c) && Enabled(c, Deliver(p, now))
    requires p.msg.Append? && p.to != order[0]
    ensures Good(order, mode, Step(c, Deliver(p, now)), p.to, Packets(p.to, React(c.nodes[p.to], Deliver(p, now)).1, now))
  {
    var c' := Step(c, Deliver(p, now));
    var log, n, e := c.nodes[order[0]].log, p.to, p.msg.entry;
    assert NodeOk(order, mode, log, c.clock, n, c.nodes[n]) && PacketOk(order, mode, c.nodes, log, c.clock, p);
    assert NodeOk(order, mode, log, c.clock, order[0], c.nodes[order[0]]);
    AppendNode(order, mode, log, c.clock, n, c.nodes[n], e, now);
    forall q | q in Packets(n, OnAppend(c.nodes[n], e).1, now) ensures PacketOk(order, mode, c'.nodes, log, now, q) {
      HasNow(log, c'.nodes[n], q.msg.tag, now);
      HasNow(log, c.nodes[order[0]], q.msg.tag, now);
    }
  }

  /** Nothing but the clock moved. */
  lemma SameNode(order: seq<NodeId>, mode: Mode, log: seq<Entry>, clock: nat, n: NodeId, s: State, now: nat)
    requires order != [] && NodeOk(order, mode, log, clock, n, s) && clock <= now
    ensures NodeOk(order, mode, log, now, n, s)
  {
  }

  lemma LeaderCarries(order: seq<NodeId>, mode: Mode, c: Cluster, c': Cluster, s: State)
    requires order != [] && order[0] in c.nodes && order[0] in c'.nodes && Carries(order, mode, c, c')
    requires LeaderOk(order, mode, c.nodes, c.nodes[order[0]].log, c.clock, Slack(c.least), s)
    ensures LeaderOk(order, mode, c'.nodes, c'.nodes[order[0]].log, c'.clock, Slack(c.least), s)
  {
    forall q | q in s.pending ensures PendingOk(order, c'.nodes, c'.nodes[order[0]].log, c'.clock + Slack(c.least), q, s.pending[q]) {
      PendingCarries(order, mode, c, c', q, s.pending[q]);
    }
    if mode == Sync {
      forall i | 0 <= i < |s.history| ensures AckOk(c'.nodes, c'.nodes[order[0]].log, Slack(c.least), s.history[i]) {
        AckCarries(order, mode, c, c', s.history[i]);
      }
    }
  }

  lemma LeaderMore(order: seq<NodeId>, mode: Mode, nodes: Nodes, log: seq<Entry>, clock: nat, slack: nat, s: State, s': State, r: Record)
    requires order != [] && LeaderOk(order, mode, nodes, log, clock, slack, s) && s'.history == s.history + [r]
    requires mode == Sync ==> AckOk(nodes, log, slack, r)
    requires forall q :: q in s'.pending ==> q in s.pending && s'.pending[q] == s.pending[q]
    ensures LeaderOk(order, mode, nodes, log, clock, slack, s')
  {
  }

  /** Timers and stray messages leave the node as it was and send at most entries of the log. */
  lemma QuietGood(order: seq<NodeId>, mode: Mode, c: Cluster, c': Cluster, n: NodeId, sent: set<Packet>)
    requires order != [] && order[0] in c.nodes && order[0] in c'.nodes && Carries(order, mode, c, c')
    requires n in c.nodes && n in c'.nodes && c'.nodes[n] == c.nodes[n] && c'.nodes[order[0]].log == c.nodes[order[0]].log
    requires forall p :: p in sent ==> p.sentAt == c'.clock && p.msg.Append? && In(c.nodes[order[0]].log, p.msg.entry)
    ensures Good(order, mode, c', n, sent)
  {
    var log := c.nodes[order[0]].log;
    assert NodeOk(order, mode, log, c.clock, n, c.nodes[n]);
    SameNode(order, mode, log, c.clock, n, c.nodes[n], c'.clock);
    if n == order[0] { LeaderCarries(order, mode, c, c', c.nodes[n]); }
  }

  lemma {:induction false} RemoveIs(s: seq<NodeId>, x: NodeId)
    ensures forall y :: y in Remove(s, x) <==> y in s && y != x
    ensures |Remove(s, x)| <= |s| && (|Remove(s, x)| == |s| <==> x !in s)
  {
    if s != [] {
      RemoveIs(s[1..], x);
      assert s == [s[0]] + s[1..];
      assert x in s[1..] ==> x in s;
    }
  }

  /** Only the pending writes, and an ack in the history, are new. */
  lemma BooksOnly(order: seq<NodeId>, mode: Mode, log: seq<Entry>, clock: nat, n: NodeId, s: State, s': State, now: nat)
    requires order != [] && n == order[0] && NodeOk(order, mode, log, clock, n, s) && clock <= now
    requires s' == s.(pending := s'.pending, history := s'.history) && s.history <= s'.history
    requires forall i :: |s.history| <= i < |s'.history| ==> s'.history[i].Acked?
    ensures NodeOk(order, mode, log, now, n, s')
  {
    forall x ensures SeqOf(s', x) == Latest(s'.log, x) { assert SeqOf(s, x) == Latest(s.log, x); }
    forall i | 0 <= i < |s'.history| && s'.history[i].ReadDone? ensures s'.history[i].time <= now {
      assert s.history[i] == s'.history[i];
    }
  }

  /** One follower fewer is awaited. */
  lemma FewerAwaited(order: seq<NodeId>, mode: Mode, c: Cluster, c': Cluster, p: Packet, now: nat, pend: Pending)
    requires order != [] && order[0] in c.nodes && order[0] in c'.nodes && Carries(order, mode, c, c')
    requires Enabled(c, Deliver(p, now)) && p.msg.Confirm? && c'.clock == now && p in c.net
    requires PendingOk(order, c.nodes, c.nodes[order[0]].log, c.clock + Slack(c.least), p.msg.tag, pend)
    ensures PendingOk(order, c'.nodes, c'.nodes[order[0]].log, now + Slack(c.least), p.msg.tag,
                      pend.(awaiting := Remove(pend.awaiting, p.from)))
    ensures Has(c'.nodes[order[0]].log, c'.nodes[order[0]], p.msg.tag, now + Slack(c.least))
  {
    var q := p.msg.tag;
    RemoveIs(pend.awaiting, p.from);
    assert PacketOk(order, mode, c.nodes, c.nodes[order[0]].log, c.clock, p);
    PendingCarries(order, mode, c, c', q, pend);
    HasCarries(order, mode, c, c', p.from, q, p.sentAt + 1, now + Slack(c.least));
    HasCarries(order, mode, c, c', order[0], q, p.sentAt + 1, now + Slack(c.least));
  }

  /** Nobody is awaited any more: every node has the write. */
  lemma AllHave(order: seq<NodeId>, nodes: Nodes, log: seq<Entry>, now: nat, slack: nat, q: nat, pend: Pending)
    requires order != [] && order[0] in nodes && (forall n :: n in nodes ==> n in order)
    requires PendingOk(order, nodes, log, now + slack, q, pend) && pend.awaiting == []
    requires Has(log, nodes[order[0]], q, now + slack)
    ensures AckOk(nodes, log, slack, Acked(q, pend.entry.key, now))
  {
    forall m | m in nodes ensures Has(log, nodes[m], q, now + slack) {
      if m != order[0] { assert m in order && m in order[1..]; }
    }
  }

  /** A confirmation that the leader was waiting for. */
  lemma ConfirmGood(order: seq<NodeId>, mode: Mode, c: Cluster, c': Cluster, p: Packet, now: nat)
    requires order != [] && order[0] in c.nodes && order[0] in c'.nodes && Carries(order, mode, c, c')
    requires Enabled(c, Deliver(p, now)) && p.msg.Confirm? && p.to == order[0] && c' == Step(c, Deliver(p, now))
    requires p.msg.tag in c.nodes[p.to].pending && p.from in c.nodes[p.to].pending[p.msg.tag].awaiting
    ensures Good(order, mode, c', p.to, {})
  {
    var log, n, q := c.nodes[order[0]].log, order[0], p.msg.tag;
    var s, s' := c.nodes[n], c'.nodes[n];
    var pend := s.pending[q];
    var awaiting := Remove(pend.awaiting, p.from);
    RemoveIs(pend.awaiting, p.from);
    assert NodeOk(order, mode, log, c.clock, n, s);
    assert s' == OnConfirm(s, p.from, q, now);
    BooksOnly(order, mode, log, c.clock, n, s, s', now);
    LeaderCarries(order, mode, c, c', s);
    FewerAwaited(order, mode, c, c', p, now, pend);
    if |awaiting| == 0 {
      AllHave(order, c'.nodes, log, now, Slack(c.least), q, pend.(awaiting := awaiting));
      LeaderMore(order, mode, c'.nodes, log, now, Slack(c.least), s, s', Acked(q, pend.entry.key, now));
    }
  }

  lemma TimerGood(order: seq<NodeId>, mode: Mode, c: Cluster, c': Cluster, n: NodeId, tag: nat, now: nat)
    requires order != [] && order[0] in c.nodes && order[0] in c'.nodes && Carries(order, mode, c, c')
    requires Enabled(c, Fire(n, tag, now)) && c' == Step(c, Fire(n, tag, now)) && (n != order[0] ==> c.nodes[n].pending == map[])
    ensures Good(order, mode, c', n, Packets(n, OnTimer(c.nodes[n], tag).1, now))
  {
    var s := c.nodes[n];
    if tag in s.pending {
      var pend := s.pending[tag];
      assert PendingOk(order, c.nodes, c.nodes[order[0]].log, c.clock + Slack(c.least), tag, pend);
      SendAllThen(n, pend.awaiting, Append(pend.entry), Retransmit(RETRANSMIT_MS, tag), now);
      forall p | p in Packets(n, OnTimer(s, tag).1, now)
        ensures p.sentAt == now && p.msg.Append? && In(c.nodes[order[0]].log, p.msg.entry)
      {
        SendAllOnly(n, pend.awaiting, Append(pend.entry), now, p);
      }
    }
    QuietGood(order, mode, c, c', n, Packets(n, OnTimer(s, tag).1, now));
  }

  lemma ReadGood(order: seq<NodeId>, mode: Mode, c: Cluster, c': Cluster, n: NodeId, k: string, now: nat)
    requires order != [] && order[0] in c.nodes && order[0] in c'.nodes && Carries(order, mode, c, c')
    requires Enabled(c, Client(n, ReadCmd(k), now)) && c' == Step(c, Client(n, ReadCmd(k), now))
    ensures Good(order, mode, c', n, {})
  {
    var log, s, s' := c.nodes[order[0]].log, c.nodes[n], c'.nodes[n];
    assert NodeOk(order, mode, log, c.clock, n, s);
    forall x ensures SeqOf(s', x) == Latest(s'.log, x) { assert SeqOf(s, x) == Latest(s.log, x); }
    if n == order[0] {
      LeaderCarries(order, mode, c, c', s);
      LeaderMore(order, mode, c'.nodes, log, now, Slack(c.least), s, s', ReadDone(s.self, k, SeqOf(s, k), now));
    }
  }

  // ---------- writes at the leader ----------

  lemma LeaderNode(order: seq<NodeId>, mode: Mode, clock: nat, s: State, e: Entry, s': State, now: nat)
    requires order != [] && NodeOk(order, mode, s.log, clock, order[0], s) && Numbered(s.log) && clock <= now
    requires e.tag == s.nextSeq
    requires s' == ApplyEntry(s.(nextSeq := s.nextSeq + 1), e).(pending := s'.pending, history := s'.history)
    requires s.history <= s'.history && forall i :: |s.history| <= i < |s'.history| ==> s'.history[i].Acked?
    ensures NodeOk(order, mode, s'.log, now, order[0], s') && Numbered(s'.log) && In(s'.log, e)
  {
    var t := s.(nextSeq := s.nextSeq + 1);
    forall x ensures SeqOf(t, x) == Latest(t.log, x) { assert SeqOf(s, x) == Latest(s.log, x); }
    ApplyData(t, e);
    forall x ensures SeqOf(s', x) == Latest(s'.log, x) { assert SeqOf(ApplyEntry(t, e), x) == Latest(s'.log, x); }
    forall q | q in s'.buffer ensures s'.buffer[q].tag == q && In(s'.log, s'.buffer[q]) { InStable(s.log, s'.log, s.buffer[q]); }
    forall i | 0 <= i < |s'.history| && s'.history[i].ReadDone? ensures s'.history[i].time <= now {
      assert s.history[i] == s'.history[i];
    }
  }

  lemma WriteSends(order: seq<NodeId>, s: State, k: string, v: string, now: nat)
    requires s.role == Leader
    ensures forall p :: p in Packets(s.self, OnClient(s, WriteCmd(k, v), now).1, now) ==>
              p.sentAt == now && p.msg == Append(Entry(s.nextSeq, k, v))
  {
    var e := Entry(s.nextSeq, k, v);
    SendAllThen(s.self, s.followers, Append(e), Retransmit(RETRANSMIT_MS, e.tag), now);
    forall p | p in Packets(s.self, OnClient(s, WriteCmd(k, v), now).1, now)
      ensures p.sentAt == now && p.msg == Append(e)
    {
      SendAllOnly(s.self, s.followers, Append(e), now, p);
    }
  }

  lemma WriteLeader(order: seq<NodeId>, mode: Mode, c: Cluster, k: string, v: string, now: nat)
    requires order != [] && order[0] in c.nodes && Inv(order, mode, c) && Enabled(c, Client(order[0], WriteCmd(k, v), now))
    ensures var c' := Step(c, Client(order[0], WriteCmd(k, v), now)); var s' := c'.nodes[order[0]];
      && NodeOk(order, mode, s'.log, now, order[0], s') && Numbered(s'.log) && c.nodes[order[0]].log <= s'.log
      && In(s'.log, Entry(c.nodes[order[0]].nextSeq, k, v))
  {
    var s := c.nodes[order[0]];
    assert NodeOk(order, mode, s.log, c.clock, order[0], s);
    var e := Entry(s.nextSeq, k, v);
    LeaderNode(order, mode, c.clock, s, e, OnClient(s, WriteCmd(k, v), now).0, now);
  }

  lemma WriteGood(order: seq<NodeId>, mode: Mode, c: Cluster, c': Cluster, k: string, v: string, now: nat)
    requires order != [] && order[0] in c.nodes && order[0] in c'.nodes && Carries(order, mode, c, c')
    requires Enabled(c, Client(order[0], WriteCmd(k, v), now)) && c' == Step(c, Client(order[0], WriteCmd(k, v), now))
    ensures Good(order, mode, c', order[0], Packets(order[0], OnClient(c.nodes[order[0]], WriteCmd(k, v), now).1, now))
  {
    var n, s, s' := order[0], c.nodes[order[0]], c'.nodes[order[0]];
    assert NodeOk(order, mode, s.log, c.clock, n, s);
    WriteLeader(order, mode, c, k, v, now);
    WriteSends(order, s, k, v, now);
    LeaderCarries(order, mode, c, c', s);
    WriteBooks(order, mode, c'.nodes, s'.log, now, Slack(c.least), s, s', Entry(s.nextSeq, k, v));
  }

  lemma WriteBooks(order: seq<NodeId>, mode: Mode, nodes: Nodes, log: seq<Entry>, now: nat, slack: nat, s: State, s': State, e: Entry)
    requires order != [] && LeaderOk(order, mode, nodes, log, now, slack, s) && In(log, e) && s.followers == order[1..] && s.mode == mode
    requires s.role == Leader && e.tag == s.nextSeq && s' == OnClient(s, WriteCmd(e.key, e.value), now).0
    ensures LeaderOk(order, mode, nodes, log, now, slack, s')
  {
    if mode == Sync {
      assert s'.pending == s.pending[e.tag := Pending(e, s.followers)] && s'.history == s.history;
      assert PendingOk(order, nodes, log, now + slack, e.tag, Pending(e, s.followers));
    }
  }

  // ---------- the step ----------

  lemma LeaderLog(s: State, a: Action)
    requires s.role == Leader && !(a.Client? && a.cmd.WriteCmd?)
    ensures React(s, a).0.log == s.log
  {
  }

  lemma StepCarries(order: seq<NodeId>, mode: Mode, c: Cluster, a: Action)
    requires order != [] && order[0] in c.nodes && Inv(order, mode, c) && Enabled(c, a)
    ensures order[0] in Step(c, a).nodes && Carries(order, mode, c, Step(c, a))
    ensures Step(c, a).nodes[order[0]].log == c.nodes[order[0]].log || (a.Client? && a.cmd.WriteCmd? && a.n == order[0])
  {
    var n, log := Actor(a), c.nodes[order[0]].log;
    assert NodeOk(order, mode, log, c.clock, n, c.nodes[n]);
    ReactGrows(c.nodes[n], a);
    assert NodeOk(order, mode, log, c.clock, order[0], c.nodes[order[0]]);
    if a.Client? && a.cmd.WriteCmd? && a.n == order[0] {
      WriteLeader(order, mode, c, a.cmd.key, a.cmd.value, a.now);
    } else if n == order[0] {
      LeaderLog(c.nodes[n], a);
    }
  }

  lemma MessageGood(order: seq<NodeId>, mode: Mode, c: Cluster, c': Cluster, p: Packet, now: nat)
    requires order != [] && order[0] in c.nodes && order[0] in c'.nodes && Carries(order, mode, c, c')
    requires Enabled(c, Deliver(p, now)) && c' == Step(c, Deliver(p, now)) && c'.nodes[order[0]].log == c.nodes[order[0]].log
    ensures Good(order, mode, c', p.to, Packets(p.to, React(c.nodes[p.to], Deliver(p, now)).1, now))
  {
    var s := c.nodes[p.to];
    assert NodeOk(order, mode, c.nodes[order[0]].log, c.clock, p.to, s);
    if p.msg.Append? && p.to != order[0] {
      AppendGood(order, mode, c, p, now);
    } else if p.msg.Confirm? && p.to == order[0] && p.msg.tag in s.pending && p.from in s.pending[p.msg.tag].awaiting {
      ConfirmGood(order, mode, c, c', p, now);
    } else {
      if p.msg.Confirm? && p.to == order[0] && p.msg.tag in s.pending { RemoveIs(s.pending[p.msg.tag].awaiting, p.from); }
      QuietGood(order, mode, c, c', p.to, {});
    }
  }

  lemma ActorGood(order: seq<NodeId>, mode: Mode, c: Cluster, a: Action)
    requires order != [] && order[0] in c.nodes && Inv(order, mode, c) && Enabled(c, a)
    ensures order[0] in Step(c, a).nodes
    ensures Good(order, mode, Step(c, a), Actor(a), Packets(Actor(a), React(c.nodes[Actor(a)], a).1, a.now))
  {
    StepCarries(order, mode, c, a);
    var c' := Step(c, a);
    assert NodeOk(order, mode, c.nodes[order[0]].log, c.clock, Actor(a), c.nodes[Actor(a)]);
    match a {
      case Deliver(p, now) => { MessageGood(order, mode, c, c', p, now); }
      case Fire(n, tag, now) => { TimerGood(order, mode, c, c', n, tag, now); }
      case Client(n, cmd, now) => {
        match cmd {
          case ReadCmd(k) => { ReadGood(order, mode, c, c', n, k, now); }
          case WriteCmd(k, v) => {
            if n == order[0] { WriteGood(order, mode, c, c', k, v, now); } else { QuietGood(order, mode, c, c', n, {}); }
          }
        }
      }
    }
  }

  lemma StepInv(order: seq<NodeId>, mode: Mode, c: Cluster, a: Action)
    requires order != [] && order[0] in c.nodes && Inv(order, mode, c) && Enabled(c, a)
    ensures order[0] in Step(c, a).nodes && Inv(order, mode, Step(c, a))
  {
    var c' := Step(c, a);
    StepCarries(order, mode, c, a);
    ActorGood(order, mode, c, a);
    var log, log' := c.nodes[order[0]].log, c'.nodes[order[0]].log;
    forall n | n in c'.nodes ensures NodeOk(order, mode, log', c'.clock, n, c'.nodes[n]) {
      if n != Actor(a) {
        assert NodeOk(order, mode, log, c.clock, n, c.nodes[n]);
        if n == order[0] { SameNode(order, mode, log, c.clock, n, c.nodes[n], c'.clock); }
        else { NodeCarries(order, mode, log, log', c.clock, c'.clock, n, c.nodes[n]); }
      }
    }
    if Actor(a) != order[0] { LeaderCarries(order, mode, c, c', c.nodes[order[0]]); }
    forall p | p in c'.net ensures PacketOk(order, mode, c'.nodes, log', c'.clock, p) {
      if p in c.net { PacketCarries(order, mode, c, c', p); }
    }
  }

  lemma StartInv(order: seq<NodeId>, mode: Mode, least: nat)
    requires order != [] && Distinct(order)
    ensures Inv(order, mode, Start(order, mode, least))
  {
  }

  lemma {:induction false} ExecInv(order: seq<NodeId>, mode: Mode, least: nat, acts: seq<Action>)
    requires order != [] && Distinct(order) && Runs(Start(order, mode, least), acts)
    ensures Inv(order, mode, Exec(Start(order, mode, least), acts))
  {
    if acts == [] {
      StartInv(order, mode, least);
    } else {
      ExecInv(order, mode, least, acts[..|acts| - 1]);
      StepInv(order, mode, Exec(Start(order, mode, least), acts[..|acts| - 1]), acts[|acts| - 1]);
    }
  }

  // ---------- the theorems ----------

  /** In either mode every log is a prefix of the leader's, and entry i carries number i + 1; a node's data
      holds the number of its last entry for each key. */
  lemma PrefixLogs(order: seq<NodeId>, mode: Mode, least: nat, acts: seq<Action>, n: NodeId)
    requires order != [] && Distinct(order) && Runs(Start(order, mode, least), acts) && n in order
    ensures var c := Exec(Start(order, mode, least), acts);
      && n in c.nodes && order[0] in c.nodes
      && c.nodes[n].log <= c.nodes[order[0]].log
      && (forall i :: 0 <= i < |c.nodes[n].log| ==> c.nodes[n].log[i].tag == i + 1)
      && (forall k :: SeqOf(c.nodes[n], k) == Latest(c.nodes[n].log, k))
  {
    ExecInv(order, mode, least, acts);
    var c := Exec(Start(order, mode, least), acts);
    assert NodeOk(order, mode, c.nodes[order[0]].log, c.clock, n, c.nodes[n]);
  }

  lemma AckedHas(order: seq<NodeId>, c: Cluster, r: Record, n: NodeId)
    requires order != [] && order[0] in c.nodes && Inv(order, Sync, c) && n in c.nodes
    requires r in c.nodes[order[0]].history && r.Acked?
    ensures var log := c.nodes[order[0]].log;
      && 1 <= r.tag <= |log| && log[r.tag - 1].key == r.key && c.nodes[n].log <= log && Has(log, c.nodes[n], r.tag, r.time + Slack(c.least))
  {
    var log := c.nodes[order[0]].log;
    assert NodeOk(order, Sync, log, c.clock, n, c.nodes[n]);
    var i :| 0 <= i < |c.nodes[order[0]].history| && c.nodes[order[0]].history[i] == r;
    assert AckOk(c.nodes, log, Slack(c.least), r);
    assert Has(log, c.nodes[n], r.tag, r.time + Slack(c.least));
  }

  /** In sync mode, once the leader records an ack every node has applied that very entry. */
  lemma AckedEverywhere(order: seq<NodeId>, least: nat, acts: seq<Action>, r: Record, n: NodeId)
    requires order != [] && Distinct(order) && Runs(Start(order, Sync, least), acts) && n in order
    requires var c := Exec(Start(order, Sync, least), acts); order[0] in c.nodes && r in c.nodes[order[0]].history && r.Acked?
    ensures var c := Exec(Start(order, Sync, least), acts);
      && n in c.nodes && order[0] in c.nodes && 1 <= r.tag <= |c.nodes[n].log|
      && c.nodes[n].log[r.tag - 1].key == r.key && c.nodes[n].log <= c.nodes[order[0]].log
  {
    ExecInv(order, Sync, least, acts);
    AckedHas(order, Exec(Start(order, Sync, least), acts), r, n);
  }

  lemma {:induction false} LeastStays(c: Cluster, acts: seq<Action>)
    requires Runs(c, acts)
    ensures Exec(c, acts).least == c.least
  {
    if acts != [] { LeastStays(c, acts[..|acts| - 1]); }
  }

  /** In sync mode, when messages take at least a tick, no read at any node is ever stale. */
  lemma NoStaleReads(order: seq<NodeId>, least: nat, acts: seq<Action>, n: NodeId, read: Record, ack: Record)
    requires order != [] && Distinct(order) && Runs(Start(order, Sync, least), acts) && least >= 1
    ensures !StalePair(Exec(Start(order, Sync, least), acts).nodes, order[0], n, read, ack)
  {
    ExecInv(order, Sync, least, acts);
    LeastStays(Start(order, Sync, least), acts);
    var c := Exec(Start(order, Sync, least), acts);
    if n in c.nodes && read in c.nodes[n].history && ack in c.nodes[order[0]].history && Stale(read, ack) {
      AckedHas(order, c, ack, n);
      var j :| 0 <= j < |c.nodes[n].history| && c.nodes[n].history[j] == read;
      assert Missed(c.nodes[order[0]].log, c.nodes[n].history[j], ack.tag);
    }
  }

  // ---------- the least latency is needed ----------

  /** No run of a cluster ever has a stale read. */
  ghost predicate NeverStale(order: seq<NodeId>, least: nat)
    requires order != []
  {
    forall acts, n, read, ack :: Runs(Start(order, Sync, least), acts) ==>
      !StalePair(Exec(Start(order, Sync, least), acts).nodes, order[0], n, read, ack)
  }

  lemma ExecSnoc(c: Cluster, acts: seq<Action>, a: Action)
    requires Runs(c, acts) && Enabled(Exec(c, acts), a)
    ensures Runs(c, acts + [a]) && Exec(c, acts + [a]) == Step(Exec(c, acts), a)
  {
    assert (acts + [a])[..|acts|] == acts;
  }

  lemma ReadReacts(x: NodeId, y: NodeId, k: string, s: State)
    requires s == Init(x, [x, y], Sync)
    ensures OnClient(s, ReadCmd(k), 0) == (s.(history := [ReadDone(x, k, 0, 0)]), [])
  {
    assert [] + [ReadDone(x, k, 0, 0)] == [ReadDone(x, k, 0, 0)];
  }

  /** The leader once it has written, and awaits its one follower. */
  ghost predicate Awaits(s: State, x: NodeId, y: NodeId, e: Entry) {
    && s.self == x && s.role == Leader && s.pending == map[1 := Pending(e, [y])]
    && s.history == [ReadDone(x, e.key, 0, 0)]
  }

  lemma WriteReacts(x: NodeId, y: NodeId, s: State, e: Entry)
    requires s == Init(x, [x, y], Sync).(history := [ReadDone(x, e.key, 0, 0)]) && e.tag == 1
    ensures var r := OnClient(s, WriteCmd(e.key, e.value), 0);
      Awaits(r.0, x, y, e) && r.1 == [Send(y, Append(e)), Retransmit(RETRANSMIT_MS, 1)]
  {
    assert [x, y][1..] == [y];
    assert SendAll([y], Append(e)) == SendAll([], Append(e)) + [Send(y, Append(e))];
  }

  lemma StoreReacts(x: NodeId, y: NodeId, s: State, e: Entry)
    requires x != y && s == Init(y, [x, y], Sync) && e.tag == 1
    ensures OnMessage(s, x, Append(e), 0).1 == [Send(x, Confirm(1))]
  {
    var s1 := s.(buffer := s.buffer[1 := e]);
    var s2 := ApplyEntry(s1.(buffer := s1.buffer - {1}), e);
    assert Drain(s2) == (s2, []);
    assert Drain(s1).1 == [1];
    assert [] + [1] == [1];
    assert Confirms(x, [1]) == Confirms(x, []) + [Send(x, Confirm(1))];
  }

  lemma ConfirmReacts(x: NodeId, y: NodeId, s: State, e: Entry)
    requires Awaits(s, x, y, e)
    ensures OnMessage(s, y, Confirm(1), 0).0.history == [ReadDone(x, e.key, 0, 0), Acked(1, e.key, 0)]
  {
    assert Remove([y], y) == [];
  }

  lemma FirstPacket(from: NodeId, to: NodeId, msg: Msg, more: seq<Effect>)
    requires |more| <= 1
    ensures Packet(from, to, msg, 0) in Packets(from, [Send(to, msg)] + more, 0)
  {
    var fx := [Send(to, msg)] + more;
    assert Packets(from, [Send(to, msg)], 0) == Packets(from, [], 0) + {Packet(from, to, msg, 0)};
    if |more| == 1 { assert fx[..1] == [Send(to, msg)]; } else { assert fx == [Send(to, msg)]; }
  }

  /** Where the run stands after its first two steps: the write is on its way. */
  ghost predicate Sent(c: Cluster, x: NodeId, y: NodeId, e: Entry) {
    && c.clock == 0 && c.least == 0 && x in c.nodes && y in c.nodes
    && Awaits(c.nodes[x], x, y, e) && c.nodes[y] == Init(y, [x, y], Sync) && Packet(x, y, Append(e), 0) in c.net
  }

  lemma SendsWrite(x: NodeId, y: NodeId, e: Entry, acts: seq<Action>)
    requires x != y && e.tag == 1 && acts == [] + [Client(x, ReadCmd(e.key), 0)] + [Client(x, WriteCmd(e.key, e.value), 0)]
    ensures Runs(Start([x, y], Sync, 0), acts) && Sent(Exec(Start([x, y], Sync, 0), acts), x, y, e)
  {
    var c0 := Start([x, y], Sync, 0);
    ReadReacts(x, y, e.key, c0.nodes[x]);
    ExecSnoc(c0, [], Client(x, ReadCmd(e.key), 0));
    var c1 := Step(c0, Client(x, ReadCmd(e.key), 0));
    WriteReacts(x, y, c1.nodes[x], e);
    ExecSnoc(c0, [] + [Client(x, ReadCmd(e.key), 0)], Client(x, WriteCmd(e.key, e.value), 0));
    FirstPacket(x, y, Append(e), [Retransmit(RETRANSMIT_MS, 1)]);
    assert [Send(y, Append(e))] + [Retransmit(RETRANSMIT_MS, 1)] == [Send(y, Append(e)), Retransmit(RETRANSMIT_MS, 1)];
  }

  lemma StoresAndConfirms(c: Cluster, x: NodeId, y: NodeId, e: Entry)
    requires x != y && e.tag == 1 && Sent(c, x, y, e)
    ensures var a3, a4 := Deliver(Packet(x, y, Append(e), 0), 0), Deliver(Packet(y, x, Confirm(1), 0), 0);
      && Enabled(c, a3) && Enabled(Step(c, a3), a4)
      && StalePair(Step(Step(c, a3), a4).nodes, x, x, ReadDone(x, e.key, 0, 0), Acked(1, e.key, 0))
  {
    StoreReacts(x, y, c.nodes[y], e);
    FirstPacket(y, x, Confirm(1), []);
    assert [Send(x, Confirm(1))] + [] == [Send(x, Confirm(1))];
    ConfirmReacts(x, y, c.nodes[x], e);
  }

  /** A read and then a write of its key, stored and acknowledged within the same tick: the read counts as stale. */
  lemma SameTickStale(x: NodeId, y: NodeId, e: Entry) returns (acts: seq<Action>)
    requires x != y && e.tag == 1
    ensures Runs(Start([x, y], Sync, 0), acts)
    ensures StalePair(Exec(Start([x, y], Sync, 0), acts).nodes, x, x, ReadDone(x, e.key, 0, 0), Acked(1, e.key, 0))
  {
    var c0 := Start([x, y], Sync, 0);
    var sent := [] + [Client(x, ReadCmd(e.key), 0)] + [Client(x, WriteCmd(e.key, e.value), 0)];
    var a3, a4 := Deliver(Packet(x, y, Append(e), 0), 0), Deliver(Packet(y, x, Confirm(1), 0), 0);
    SendsWrite(x, y, e, sent);
    StoresAndConfirms(Exec(c0, sent), x, y, e);
    ExecSnoc(c0, sent, a3);
    ExecSnoc(c0, sent + [a3], a4);
    acts := sent + [a3] + [a4];
  }

  /** So with a leader and one follower, sync mode is free of stale reads if and only if messages take a tick. */
  lemma LeastLatencyExact(x: NodeId, y: NodeId, least: nat)
    requires x != y
    ensures NeverStale([x, y], least) <==> least >= 1
  {
    if least == 0 {
      var acts := SameTickStale(x, y, Entry(1, "", ""));
      assert [x, y][0] == x;
    } else {
      forall acts, n, read, ack | Runs(Start([x, y], Sync, least), acts)
        ensures !StalePair(Exec(Start([x, y], Sync, least), acts).nodes, [x, y][0], n, read, ack)
      {
        NoStaleReads([x, y], least, acts, n, read, ack);
      }
    }
  }

  // ---------- every write is pending or acked ----------

  ghost predicate AckedIn(h: seq<Record>, q: nat) {
    exists i :: 0 <= i < |h| && h[i].Acked? && h[i].tag == q
  }

  /** Every number the leader has given out is acked or, in sync mode, pending with someone still awaited; not both. */
  ghost predicate Accounted(s: State) {
    && (forall q :: q in s.pending ==> s.mode == Sync && 1 <= q < s.nextSeq && (s.followers != [] ==> s.pending[q].awaiting != []))
    && (forall q: nat {:trigger AckedIn(s.history, q)} :: 1 <= q < s.nextSeq ==> (AckedIn(s.history, q) <==> q !in s.pending))
    && (forall q: nat {:trigger AckedIn(s.history, q)} :: AckedIn(s.history, q) ==> 1 <= q < s.nextSeq)
  }

  lemma AckedMore(h: seq<Record>, r: Record, q: nat)
    ensures AckedIn(h + [r], q) <==> AckedIn(h, q) || (r.Acked? && r.tag == q)
  {
    var more := h + [r];
    if r.Acked? && r.tag == q { assert more[|h|].Acked?; }
    if AckedIn(h, q) {
      var i :| 0 <= i < |h| && h[i].Acked? && h[i].tag == q;
      assert more[i] == h[i];
    }
  }

  lemma WriteAccounts(s: State, k: string, v: string, now: nat)
    requires Accounted(s) && s.role == Leader && s.nextSeq >= 1
    ensures Accounted(OnClient(s, WriteCmd(k, v), now).0)
  {
    var r := OnClient(s, WriteCmd(k, v), now).0;
    forall q: nat
      ensures 1 <= q < r.nextSeq ==> (AckedIn(r.history, q) <==> q !in r.pending)
      ensures AckedIn(r.history, q) ==> 1 <= q < r.nextSeq
    {
      AckedMore(s.history, Acked(s.nextSeq, k, now), q);
      assert AckedIn(s.history, q) ==> 1 <= q < s.nextSeq;
    }
  }

  lemma ReadAccounts(s: State, k: string, now: nat)
    requires Accounted(s)
    ensures Accounted(OnClient(s, ReadCmd(k), now).0)
  {
    var r := OnClient(s, ReadCmd(k), now).0;
    forall q: nat ensures AckedIn(r.history, q) <==> AckedIn(s.history, q) {
      AckedMore(s.history, ReadDone(s.self, k, SeqOf(s, k), now), q);
    }
  }

  lemma ConfirmAccounts(s: State, from: NodeId, tag: nat, now: nat)
    requires Accounted(s)
    ensures Accounted(OnConfirm(s, from, tag, now))
  {
    var r := OnConfirm(s, from, tag, now);
    if tag in s.pending {
      forall q: nat
        ensures 1 <= q < r.nextSeq ==> (AckedIn(r.history, q) <==> q !in r.pending)
        ensures AckedIn(r.history, q) ==> 1 <= q < r.nextSeq
      {
        AckedMore(s.history, Acked(tag, s.pending[tag].entry.key, now), q);
        assert AckedIn(s.history, q) ==> 1 <= q < s.nextSeq;
      }
    }
  }

  lemma ReactAccounts(s: State, a: Action)
    requires Accounted(s) && s.role == Leader && s.nextSeq >= 1
    ensures var r := React(s, a).0; Accounted(r) && r.role == Leader && r.nextSeq >= 1 && r.followers == s.followers && r.mode == s.mode
  {
    match a {
      case Client(_, cmd, now) => {
        match cmd {
          case WriteCmd(k, v) => { WriteAccounts(s, k, v, now); }
          case ReadCmd(k) => { ReadAccounts(s, k, now); }
        }
      }
      case Deliver(p, now) => { if p.msg.Confirm? { ConfirmAccounts(s, p.from, p.msg.tag, now); } }
      case Fire(_, tag, _) => {}
    }
  }

  /** In every reachable state every numbered write of the leader is acked or pending, and not both: an ack is recorded
      when, and only when, the last awaited follower confirms. */
  lemma {:induction false} WritesAccounted(order: seq<NodeId>, mode: Mode, least: nat, acts: seq<Action>)
    requires order != [] && Runs(Start(order, mode, least), acts)
    ensures var c := Exec(Start(order, mode, least), acts);
      order[0] in c.nodes && Accounted(c.nodes[order[0]]) && c.nodes[order[0]].role == Leader && c.nodes[order[0]].nextSeq >= 1
  {
    if acts != [] {
      var front, a := acts[..|acts| - 1], acts[|acts| - 1];
      WritesAccounted(order, mode, least, front);
      ReactAccounts(Exec(Start(order, mode, least), front).nodes[order[0]], a);
    }
  }
}
