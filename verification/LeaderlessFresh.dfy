/** Overlapping quorums make reads fresh, and keep acked writes. */
module LeaderlessFresh {
  import opened Leaderless
  import opened LeaderlessQuorum

  // ---------- what a read knows since it was invoked ----------

  /** Replies to operation o of x carry versions at least those the replicas held when it was invoked. */
  ghost predicate RepliesSince(was: Nodes, k: string, replies: seq<Reply>) {
    forall i :: 0 <= i < |replies| ==> replies[i].ts >= Ver(was, replies[i].from, k)
  }

  ghost predicate PacketSince(was: Nodes, x: NodeId, o: OpId, k: string, p: Packet) {
    && (p.msg.Fetch? && p.from == x && p.msg.getOp == o ==> p.msg.key == k)
    && (p.msg.FetchReply? && p.to == x && p.msg.getOp == o ==> p.msg.ts >= Ver(was, p.from, k))
  }

  ghost predicate ReadSince(was: Nodes, s: State, o: OpId, k: string) {
    && o < s.nextOp
    && (o in s.pending ==>
         s.pending[o].ReadOp? && s.pending[o].key == k && RepliesSince(was, k, s.pending[o].replies))
  }

  ghost predicate Since(was: Nodes, c: Cluster, x: NodeId, o: OpId, k: string) {
    && AllGrow(was, c.nodes) && x in c.nodes && ReadSince(was, c.nodes[x], o, k)
    && forall p :: p in c.net ==> PacketSince(was, x, o, k, p)
  }

  lemma GrowsTrans(a: State, b: State, c: State)
    requires Grows(a, b) && Grows(b, c)
    ensures Grows(a, c)
  {
    forall k ensures VersionOf(a.data, k) <= VersionOf(c.data, k) {
      assert VersionOf(a.data, k) <= VersionOf(b.data, k) <= VersionOf(c.data, k);
    }
    assert OpsKept(a, c);
  }

  lemma AllGrowTrans(a: Nodes, b: Nodes, c: Nodes)
    requires AllGrow(a, b) && AllGrow(b, c)
    ensures AllGrow(a, c)
  {
    forall n | n in a ensures Grows(a[n], c[n]) { GrowsTrans(a[n], b[n], c[n]); }
  }

  // ---------- who sends fetches and replies ----------

  /** Among the packets of a reaction, fetches come from a read command, replies from a fetch. */
  ghost predicate Sends(s: State, a: Action, q: Packet) {
    && (q.msg.Fetch? ==> a.Client? && a.cmd.ReadCmd? && q.msg.getOp == s.nextOp && q.msg.key == a.cmd.key)
    && (q.msg.FetchReply? ==>
         a.Deliver? && a.p.msg.Fetch? && q.to == a.p.from && q.msg.getOp == a.p.msg.getOp
         && q.msg.ts == VersionOf(s.data, a.p.msg.key))
  }

  lemma {:induction false} HandoffPackets(from: NodeId, hints: seq<Hint>, q: Packet)
    requires q in Packets(from, Handoffs(hints))
    ensures q.msg.Store?
  {
    if hints != [] {
      var front := Handoffs(hints[..|hints| - 1]);
      assert Handoffs(hints)[..|front|] == front;
      if q in Packets(from, front) { HandoffPackets(from, hints[..|hints| - 1], q); }
    }
  }

  lemma {:induction false} RepairOnly(from: NodeId, replies: seq<Reply>, key: string, newest: Reply, q: Packet)
    requires newest.value.Some? && q in Packets(from, Repairs(replies, key, newest))
    ensures q.msg.Store? && q.from == from
  {
    if replies != [] {
      var older := Repairs(replies[..|replies| - 1], key, newest);
      if replies[|replies| - 1].ts < newest.ts {
        assert Repairs(replies, key, newest)[..|older|] == older;
      } else {
        assert Repairs(replies, key, newest) == older;
      }
      if q in Packets(from, older) { RepairOnly(from, replies[..|replies| - 1], key, newest, q); }
    }
  }

  lemma ClientSends(s: State, n: NodeId, cmd: Cmd, now: nat, q: Packet)
    requires q in Packets(n, OnClient(s, cmd, now).1)
    ensures Sends(s, Client(n, cmd, now), q) && q.from == n
  {
    var t := SetTimer(OP_TIMEOUT_MS, OpTimeout(s.nextOp));
    match cmd {
      case WriteCmd(k, v) => { SendAllPackets(n, s.home, Store(Some(s.nextOp), k, v, now + 1, None), t, q); }
      case ReadCmd(k) => { SendAllPackets(n, s.home, Fetch(s.nextOp, k), t, q); }
    }
  }

  lemma MessageSends(s: State, p: Packet, now: nat, q: Packet)
    requires q in Packets(p.to, OnMessage(s, p.from, p.msg, now).1) && !p.msg.StoreHint?
    ensures Sends(s, Deliver(p, now), q) && q.from == p.to
  {
    var fx := OnMessage(s, p.from, p.msg, now).1;
    match p.msg {
      case Store(_, _, _, _, _) => { OnePacket(p.to, p.from, fx[0].msg); }
      case Fetch(_, _) => { OnePacket(p.to, p.from, fx[0].msg); }
      case FetchReply(o, _, _, _) => {
        var op := s.pending[o];
        var replies := op.replies + [Reply(p.from, p.msg.ts, p.msg.found)];
        RepairOnly(p.to, replies, op.key, Newest(replies), q);
      }
    }
  }

  lemma TimerQuiet(s: State, n: NodeId, t: Timer, now: nat)
    requires !s.sloppy && s.hintBuffer == []
    ensures Packets(n, OnTimer(s, t, now).1) == {}
  {
  }

  lemma ReactSends(f: Config, c: Cluster, a: Action)
    requires Inv(f, c) && Enabled(c, a)
    ensures forall q :: q in Packets(Actor(a), React(c.nodes[Actor(a)], a).1) ==>
              Sends(c.nodes[Actor(a)], a, q) && q.from == Actor(a)
  {
    var s := c.nodes[Actor(a)];
    assert Fixed(f, Actor(a), s);
    match a {
      case Client(n, cmd, now) => {
        forall q | q in Packets(n, OnClient(s, cmd, now).1) ensures Sends(s, a, q) && q.from == n {
          ClientSends(s, n, cmd, now, q);
        }
      }
      case Fire(n, t, now) => { TimerQuiet(s, n, t, now); }
      case Deliver(p, now) => {
        assert PacketOk(c.nodes, Home(f), p);
        forall q | q in Packets(p.to, OnMessage(s, p.from, p.msg, now).1) ensures Sends(s, a, q) && q.from == p.to {
          MessageSends(s, p, now, q);
        }
      }
    }
  }

  // ---------- preservation ----------

  lemma InvokeSince(f: Config, c: Cluster, x: NodeId, k: string, now: nat)
    requires Inv(f, c) && x in c.nodes
    ensures Since(c.nodes, Step(c, Client(x, ReadCmd(k), now)), x, c.nodes[x].nextOp, k)
  {
    var a := Client(x, ReadCmd(k), now);
    var c', s := Step(c, a), c.nodes[x];
    StepGrows(c, a);
    ReactSends(f, c, a);
    forall p | p in c'.net ensures PacketSince(c.nodes, x, s.nextOp, k, p) {
      if p in c.net { assert PacketOk(c.nodes, Home(f), p); }
    }
  }

  lemma ReplySince(was: Nodes, s: State, x: NodeId, o: OpId, k: string, p: Packet, now: nat)
    requires ReadSince(was, s, o, k) && PacketSince(was, x, o, k, p) && p.to == x && p.msg.FetchReply?
    ensures ReadSince(was, OnFetchReply(s, p.from, p.msg, now).0, o, k)
  {
  }

  lemma AckSince(was: Nodes, s: State, o: OpId, k: string, from: NodeId, m: Msg, now: nat)
    requires ReadSince(was, s, o, k) && m.StoreAck?
    ensures ReadSince(was, OnStoreAck(s, from, m, now), o, k)
  {
  }

  lemma TimerSince(was: Nodes, s: State, o: OpId, k: string, t: Timer, now: nat)
    requires ReadSince(was, s, o, k)
    ensures ReadSince(was, OnTimer(s, t, now).0, o, k)
  {
  }

  lemma ActorSince(was: Nodes, c: Cluster, x: NodeId, o: OpId, k: string, a: Action)
    requires Since(was, c, x, o, k) && Enabled(c, a) && Actor(a) == x
    ensures ReadSince(was, React(c.nodes[x], a).0, o, k)
  {
    var s := c.nodes[x];
    match a {
      case Client(_, cmd, now) => {}
      case Fire(_, t, now) => { TimerSince(was, s, o, k, t, now); }
      case Deliver(p, now) => {
        match p.msg {
          case FetchReply(_, _, _, _) => { ReplySince(was, s, x, o, k, p, now); }
          case StoreAck(_, _, _, _) => { AckSince(was, s, o, k, p.from, p.msg, now); }
          case _ => {}
        }
      }
    }
  }

  lemma SentSince(f: Config, was: Nodes, c: Cluster, x: NodeId, o: OpId, k: string, a: Action, q: Packet)
    requires Inv(f, c) && Since(was, c, x, o, k) && Enabled(c, a)
    requires q in Packets(Actor(a), React(c.nodes[Actor(a)], a).1)
    ensures PacketSince(was, x, o, k, q)
  {
    ReactSends(f, c, a);
    if q.msg.FetchReply? && q.to == x && q.msg.getOp == o {
      assert PacketSince(was, x, o, k, a.p);
      VerGrows(was, c.nodes, Actor(a), k);
    }
  }

  lemma StepSince(f: Config, was: Nodes, c: Cluster, x: NodeId, o: OpId, k: string, a: Action)
    requires Inv(f, c) && Since(was, c, x, o, k) && Enabled(c, a)
    ensures Since(was, Step(c, a), x, o, k)
  {
    var c' := Step(c, a);
    ActionSane(f, c, a);
    StepGrows(c, a);
    AllGrowTrans(was, c.nodes, c'.nodes);
    if Actor(a) == x { ActorSince(was, c, x, o, k, a); }
    forall p | p in c'.net ensures PacketSince(was, x, o, k, p) {
      if p !in c.net { SentSince(f, was, c, x, o, k, a, p); }
    }
  }

  lemma {:induction false} ExecSince(f: Config, c0: Cluster, x: NodeId, k: string, acts: seq<Action>)
    requires Inv(f, c0) && Runs(c0, acts) && acts != [] && acts[0].Client? && acts[0].n == x && acts[0].cmd == ReadCmd(k)
    requires x in c0.nodes
    ensures Since(c0.nodes, Exec(c0, acts), x, c0.nodes[x].nextOp, k) && Inv(f, Exec(c0, acts))
    decreases |acts|
  {
    var front, last := acts[..|acts| - 1], acts[|acts| - 1];
    ExecInv(f, c0, acts);
    ExecInv(f, c0, front);
    if front == [] {
      assert Exec(c0, front) == c0 && last == acts[0];
      InvokeSince(f, c0, x, k, last.now);
    } else {
      ExecSince(f, c0, x, k, front);
      StepSince(f, c0.nodes, Exec(c0, front), x, c0.nodes[x].nextOp, k, last);
    }
  }

  // ---------- quorums overlap ----------

  function Senders(replies: seq<Reply>): (s: seq<NodeId>)
    ensures |s| == |replies| && forall i :: 0 <= i < |s| ==> s[i] == replies[i].from
  {
    if replies == [] then [] else Senders(replies[..|replies| - 1]) + [replies[|replies| - 1].from]
  }

  lemma Common(a: set<NodeId>, b: set<NodeId>, home: set<NodeId>) returns (n: NodeId)
    requires a <= home && b <= home && |a| + |b| > |home|
    ensures n in a && n in b
  {
    SubsetSize(a + b, home);
    assert |a| + |b| == |a + b| + |a * b|;
    assert a * b != {};
    n :| n in a * b;
  }

  /** r repliers and w holders among three homes have one in common when w + r > 3. */
  lemma Overlap(f: Config, nodes: Nodes, replies: seq<Reply>, k: string, ts: int) returns (i: nat)
    requires ConfigOk(f) && f.w + f.r > 3 && |replies| >= f.r
    requires Distinct(Senders(replies)) && forall j :: 0 <= j < |replies| ==> replies[j].from in Home(f)
    requires |Holders(nodes, Home(f), k, ts)| >= f.w
    ensures i < |replies| && Ver(nodes, replies[i].from, k) >= ts
  {
    var a, b, home := Members(Senders(replies)), Holders(nodes, Home(f), k, ts), Members(Home(f));
    DistinctSize(Senders(replies));
    DistinctSize(Home(f));
    assert |a| >= f.r && a <= home && b <= home;
    var n := Common(a, b, home);
    i :| 0 <= i < |Senders(replies)| && Senders(replies)[i] == n;
  }

  /** An acked version of a key, in some history of the cluster. */
  ghost predicate WasAcked(nodes: Nodes, k: string, ts: int) {
    exists n, i :: n in nodes && 0 <= i < |nodes[n].history| && nodes[n].history[i].Acked?
                && nodes[n].history[i].key == k && nodes[n].history[i].ts == ts
  }

  lemma AckedHolders(f: Config, c: Cluster, k: string, ts: int)
    requires Inv(f, c) && WasAcked(c.nodes, k, ts)
    ensures |Holders(c.nodes, Home(f), k, ts)| >= f.w
  {
    var n, i :| n in c.nodes && 0 <= i < |c.nodes[n].history| && c.nodes[n].history[i].Acked?
             && c.nodes[n].history[i].key == k && c.nodes[n].history[i].ts == ts;
    assert AcksHeld(c.nodes, f, c.nodes[n]);
  }

  /** What a read with enough replies returns. */
  lemma NewestFresh(f: Config, was: Nodes, replies: seq<Reply>, k: string, ts: int)
    requires ConfigOk(f) && f.w + f.r > 3 && |Holders(was, Home(f), k, ts)| >= f.w
    requires |replies| >= f.r && RepliesSince(was, k, replies) && OpOk(was, Home(f), ReadOp(k, replies))
    ensures Newest(replies).ts >= ts
  {
    var i := Overlap(f, was, replies, k, ts);
    NewestIn(replies);
  }

  /** The record a reply makes when it completes a read. */
  lemma CompletesWith(s: State, p: Packet, now: nat)
    requires p.msg.FetchReply? && |OnFetchReply(s, p.from, p.msg, now).0.history| > |s.history|
    ensures p.msg.getOp in s.pending && s.pending[p.msg.getOp].ReadOp?
    ensures var op := s.pending[p.msg.getOp];
      var replies := op.replies + [Reply(p.from, p.msg.ts, p.msg.found)];
      && !Replied(op.replies, p.from) && |replies| >= s.r
      && OnFetchReply(s, p.from, p.msg, now).0.history[|s.history|] == ReadDone(s.self, op.key, Newest(replies).ts, now)
  {
  }

  lemma CompletedRead(f: Config, was: Nodes, s: State, p: Packet, k: string, ts: int, now: nat)
    requires ConfigOk(f) && f.w + f.r > 3 && s.r == f.r && |Holders(was, Home(f), k, ts)| >= f.w
    requires p.msg.FetchReply? && ReadSince(was, s, p.msg.getOp, k) && p.from in Home(f)
    requires p.msg.ts >= Ver(was, p.from, k) && (p.msg.found.Some? ==> p.msg.ts >= 0)
    requires forall q :: q in s.pending && s.pending[q].ReadOp? ==> OpOk(was, Home(f), s.pending[q])
    requires |OnFetchReply(s, p.from, p.msg, now).0.history| > |s.history|
    ensures var r := OnFetchReply(s, p.from, p.msg, now).0.history[|s.history|];
      r.ReadDone? && r.node == s.self && r.key == k && r.returnedTs >= ts
  {
    CompletesWith(s, p, now);
    var op := s.pending[p.msg.getOp];
    assert OpOk(was, Home(f), op);
    NewestFresh(f, was, op.replies + [Reply(p.from, p.msg.ts, p.msg.found)], k, ts);
  }

  /** The delivery of p completes read o of x: its history grows. */
  ghost predicate Completes(c: Cluster, x: NodeId, o: OpId, p: Packet, now: nat) {
    && p in c.net && p.to == x && x in c.nodes && p.msg.FetchReply? && p.msg.getOp == o
    && |c.nodes[x].history| < |Step(c, Deliver(p, now)).nodes[x].history|
  }

  /** The record it makes. */
  ghost function Returned(c: Cluster, x: NodeId, o: OpId, p: Packet, now: nat): Record
    requires Completes(c, x, o, p, now)
  {
    Step(c, Deliver(p, now)).nodes[x].history[|c.nodes[x].history|]
  }

  /** The completing step, once the state before it is known to remember the invocation. */
  lemma FreshStep(f: Config, was: Nodes, c: Cluster, x: NodeId, o: OpId, k: string, p: Packet, now: nat, ts: int)
    requires Inv(f, c) && Since(was, c, x, o, k) && f.w + f.r > 3 && |Holders(was, Home(f), k, ts)| >= f.w
    requires Completes(c, x, o, p, now)
    ensures var r := Returned(c, x, o, p, now); r.ReadDone? && r.node == x && r.key == k && r.returnedTs >= ts
  {
    var s := c.nodes[x];
    assert PacketOk(c.nodes, Home(f), p) && PacketSince(was, x, o, k, p);
    assert Fixed(f, x, s) && OpsOk(c.nodes, Home(f), s);
    forall q | q in s.pending && s.pending[q].ReadOp? ensures OpOk(was, Home(f), s.pending[q]) {
      assert OpOk(c.nodes, Home(f), s.pending[q]);
    }
    CompletedRead(f, was, s, p, k, ts, now);
  }

  /** x invokes a read of k in c0, and acts are what happens from then on. */
  ghost predicate Invokes(c0: Cluster, acts: seq<Action>, x: NodeId, k: string) {
    && x in c0.nodes && Runs(c0, acts)
    && acts != [] && acts[0].Client? && acts[0].n == x && acts[0].cmd == ReadCmd(k)
  }

  lemma FreshRead(f: Config, c0: Cluster, acts: seq<Action>, x: NodeId, k: string, p: Packet, now: nat, ts: int)
    requires Inv(f, c0) && f.w + f.r > 3 && WasAcked(c0.nodes, k, ts) && Invokes(c0, acts, x, k)
    requires Completes(Exec(c0, acts), x, c0.nodes[x].nextOp, p, now)
    ensures var r := Returned(Exec(c0, acts), x, c0.nodes[x].nextOp, p, now);
      r.ReadDone? && r.node == x && r.key == k && r.returnedTs >= ts
  {
    ExecSince(f, c0, x, k, acts);
    AckedHolders(f, c0, k, ts);
    FreshStep(f, c0.nodes, Exec(c0, acts), x, c0.nodes[x].nextOp, k, p, now, ts);
  }

  /** Strict quorums with w + r > 3 read fresh: for a read invoked by x in a reachable state, whatever happens
      before the reply that completes it, the version it returns is at least every version of its key that
      had been acked, anywhere, when it was invoked. */
  lemma QuorumFreshness(f: Config, past: seq<Action>, acts: seq<Action>, x: NodeId, k: string, p: Packet, now: nat, ts: int)
    requires ConfigOk(f) && f.w + f.r > 3 && Runs(Start(f), past)
    requires var c0 := Exec(Start(f), past);
      && WasAcked(c0.nodes, k, ts) && Invokes(c0, acts, x, k)
      && Completes(Exec(c0, acts), x, c0.nodes[x].nextOp, p, now)
    ensures var c0 := Exec(Start(f), past);
      var r := Returned(Exec(c0, acts), x, c0.nodes[x].nextOp, p, now);
      r.ReadDone? && r.node == x && r.key == k && r.returnedTs >= ts
  {
    StartInv(f);
    ExecInv(f, Start(f), past);
    FreshRead(f, Exec(Start(f), past), acts, x, k, p, now, ts);
  }

  // ---------- durability ----------

  lemma {:induction false} ExecGrows(f: Config, c: Cluster, acts: seq<Action>)
    requires Inv(f, c) && Runs(c, acts)
    ensures AllGrow(c.nodes, Exec(c, acts).nodes)
    decreases |acts|
  {
    if acts == [] {
    } else {
      var front, last := acts[..|acts| - 1], acts[|acts| - 1];
      ExecGrows(f, c, front);
      ExecInv(f, c, front);
      ActionSane(f, Exec(c, front), last);
      StepGrows(Exec(c, front), last);
      AllGrowTrans(c.nodes, Exec(c, front).nodes, Exec(c, acts).nodes);
    }
  }

  /** An acked write stays, at its version or a later one, on at least w home replicas, forever. */
  lemma AckedStays(f: Config, past: seq<Action>, acts: seq<Action>, k: string, ts: int)
    requires ConfigOk(f) && Runs(Start(f), past) && Runs(Exec(Start(f), past), acts)
    requires WasAcked(Exec(Start(f), past).nodes, k, ts)
    ensures |Holders(Exec(Exec(Start(f), past), acts).nodes, Home(f), k, ts)| >= f.w
  {
    StartInv(f);
    ExecInv(f, Start(f), past);
    AckedHolders(f, Exec(Start(f), past), k, ts);
    ExecGrows(f, Exec(Start(f), past), acts);
    HoldersGrow(Exec(Start(f), past).nodes, Exec(Exec(Start(f), past), acts).nodes, Home(f), k, ts);
  }

  lemma OneLeft(h: set<NodeId>, dead: set<NodeId>) returns (n: NodeId)
    requires |dead| < |h|
    ensures n in h && n !in dead
  {
    SubsetSize(h * dead, dead);
    assert h == (h * dead) + (h - dead);
    assert h - dead != {};
    n :| n in h - dead;
  }

  lemma HeldIsKept(f: Config, c: Cluster, dead: set<NodeId>, k: string, ts: int)
    requires Inv(f, c) && WasAcked(c.nodes, k, ts) && |dead| < f.w
    ensures Alive(c.nodes, dead, k, ts)
  {
    AckedHolders(f, c, k, ts);
    var n := OneLeft(Holders(c.nodes, Home(f), k, ts), dead);
    assert Keeps(c.nodes[n], k, ts);
  }

  /** With fewer than w nodes down, the lost-write detector has nothing to report. */
  lemma NothingLost(f: Config, acts: seq<Action>, dead: set<NodeId>, id: NodeId, r: Record)
    requires ConfigOk(f) && Runs(Start(f), acts) && |dead| < f.w
    ensures !Loses(Exec(Start(f), acts).nodes, dead, id, r)
  {
    var c := Exec(Start(f), acts);
    StartInv(f);
    ExecInv(f, Start(f), acts);
    if id in c.nodes && r in c.nodes[id].history && r.Acked? {
      var i :| 0 <= i < |c.nodes[id].history| && c.nodes[id].history[i] == r;
      assert WasAcked(c.nodes, r.key, r.ts);
      HeldIsKept(f, c, dead, r.key, r.ts);
    }
  }
}
