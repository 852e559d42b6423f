/** Nothing is ever stored, answered or repaired but what some client wrote: over whole runs, strict or sloppy, every
    value at a version is the value of a write command of that version. */
module LeaderlessValues {
  import opened Leaderless
  import opened LeaderlessQuorum

  /** A client wrote the value to the key, at the version. */
  datatype Claim = Claim(key: string, value: string, ts: int)

  function ClaimOf(a: Action): set<Claim> {
    if a.Client? && a.cmd.WriteCmd? then {Claim(a.cmd.key, a.cmd.value, a.now + 1)} else {}
  }

  function Claims(acts: seq<Action>): set<Claim> {
    if acts == [] then {} else Claims(acts[..|acts| - 1]) + ClaimOf(acts[|acts| - 1])
  }

  /** One of the commands wrote the value to the key one tick before the version. */
  predicate Wrote(acts: seq<Action>, k: string, v: string, ts: int) {
    exists i :: 0 <= i < |acts| && acts[i].Client? && acts[i].cmd == WriteCmd(k, v) && acts[i].now == ts - 1
  }

  lemma {:induction false} ClaimsAre(acts: seq<Action>, k: string, v: string, ts: int)
    ensures Claim(k, v, ts) in Claims(acts) <==> Wrote(acts, k, v, ts)
  {
    if acts != [] {
      var n := |acts| - 1;
      ClaimsAre(acts[..n], k, v, ts);
      if Wrote(acts[..n], k, v, ts) {
        var i :| 0 <= i < n && acts[..n][i].Client? && acts[..n][i].cmd == WriteCmd(k, v) && acts[..n][i].now == ts - 1;
        assert acts[i] == acts[..n][i];
      }
      if Wrote(acts, k, v, ts) {
        var i :| 0 <= i < |acts| && acts[i].Client? && acts[i].cmd == WriteCmd(k, v) && acts[i].now == ts - 1;
        if i < n { assert acts[..n][i] == acts[i]; }
      }
    }
  }

  // ---------- what is true of a state ----------

  /** What a replica answers: a written value with its version, or nothing. */
  predicate AnswerTrue(w: set<Claim>, k: string, ts: int, found: Option<string>) {
    if found.Some? then Claim(k, found.value, ts) in w else ts == -1
  }

  ghost predicate OpTrue(w: set<Claim>, op: Pending) {
    match op
    case WriteOp(key, value, ts, _, _) => Claim(key, value, ts) in w
    case ReadOp(key, replies) => forall i :: 0 <= i < |replies| ==> AnswerTrue(w, key, replies[i].ts, replies[i].value)
  }

  ghost predicate NodeTrue(w: set<Claim>, s: State) {
    && (forall k :: k in s.data ==> Claim(k, s.data[k].value, s.data[k].ts) in w)
    && (forall h :: h in s.hintBuffer ==> Claim(h.key, h.value, h.ts) in w)
    && (forall o :: o in s.pending ==> o < s.nextOp && OpTrue(w, s.pending[o]))
  }

  /** An operation id of a read of this key, as far as its coordinator still knows. */
  predicate ReadIs(nodes: Nodes, c: NodeId, o: OpId, k: string) {
    c in nodes && o < nodes[c].nextOp && (o in nodes[c].pending ==> nodes[c].pending[o].ReadOp? && nodes[c].pending[o].key == k)
  }

  predicate MsgTrue(w: set<Claim>, nodes: Nodes, from: NodeId, to: NodeId, m: Msg) {
    match m
    case Store(_, k, v, ts, _) => Claim(k, v, ts) in w
    case StoreHint(_, k, v, ts, _) => Claim(k, v, ts) in w
    case Fetch(o, k) => ReadIs(nodes, from, o, k)
    case FetchReply(o, k, ts, found) => ReadIs(nodes, to, o, k) && AnswerTrue(w, k, ts, found)
    case StoreAck(_, _, _, _) => true
  }

  ghost predicate Truth(w: set<Claim>, c: Cluster) {
    && (forall n {:trigger c.nodes[n]} :: n in c.nodes ==> NodeTrue(w, c.nodes[n]))
    && (forall p :: p in c.net ==> MsgTrue(w, c.nodes, p.from, p.to, p.msg))
  }

  // ---------- what a step sends ----------

  ghost predicate FxTrue(w: set<Claim>, nodes: Nodes, from: NodeId, fx: seq<Effect>) {
    forall i :: 0 <= i < |fx| && fx[i].Send? ==> MsgTrue(w, nodes, from, fx[i].to, fx[i].msg)
  }

  lemma {:induction false} InPackets(from: NodeId, fx: seq<Effect>, p: Packet)
    requires p in Packets(from, fx)
    ensures p.from == from && exists i :: 0 <= i < |fx| && fx[i] == Send(p.to, p.msg)
  {
    if fx != [] {
      var n := |fx| - 1;
      if p in Packets(from, fx[..n]) {
        InPackets(from, fx[..n], p);
        var i :| 0 <= i < n && fx[..n][i] == Send(p.to, p.msg);
        assert fx[i] == fx[..n][i];
      } else {
        assert fx[n] == Send(p.to, p.msg);
      }
    }
  }

  lemma FxJoin(w: set<Claim>, nodes: Nodes, from: NodeId, a: seq<Effect>, b: seq<Effect>)
    requires FxTrue(w, nodes, from, a) && FxTrue(w, nodes, from, b)
    ensures FxTrue(w, nodes, from, a + b)
  {
  }

  lemma {:induction false} SendAllTrue(w: set<Claim>, nodes: Nodes, from: NodeId, to: seq<NodeId>, m: Msg)
    requires forall x :: MsgTrue(w, nodes, from, x, m)
    ensures FxTrue(w, nodes, from, SendAll(to, m))
  {
    if to != [] {
      SendAllTrue(w, nodes, from, to[..|to| - 1], m);
      FxJoin(w, nodes, from, SendAll(to[..|to| - 1], m), [Send(to[|to| - 1], m)]);
    }
  }

  lemma {:induction false} RepairsTrue(w: set<Claim>, nodes: Nodes, from: NodeId, replies: seq<Reply>, k: string, newest: Reply)
    requires newest.value.Some? && Claim(k, newest.value.value, newest.ts) in w
    ensures FxTrue(w, nodes, from, Repairs(replies, k, newest))
  {
    if replies != [] {
      RepairsTrue(w, nodes, from, replies[..|replies| - 1], k, newest);
      FxJoin(w, nodes, from, Repairs(replies[..|replies| - 1], k, newest), Repair(replies[|replies| - 1], k, newest));
    }
  }

  lemma {:induction false} HandoffsTrue(w: set<Claim>, nodes: Nodes, from: NodeId, hints: seq<Hint>)
    requires forall h :: h in hints ==> Claim(h.key, h.value, h.ts) in w
    ensures FxTrue(w, nodes, from, Handoffs(hints))
  {
    if hints != [] {
      HandoffsTrue(w, nodes, from, hints[..|hints| - 1]);
      FxJoin(w, nodes, from, Handoffs(hints[..|hints| - 1]), [HandoffOf(hints[|hints| - 1])]);
    }
  }

  lemma {:induction false} HintsTrue(w: set<Claim>, nodes: Nodes, from: NodeId, missing: seq<NodeId>, fallbacks: seq<NodeId>, o: OpId, op: Pending)
    requires op.WriteOp? && OpTrue(w, op)
    ensures FxTrue(w, nodes, from, Hints(missing, fallbacks, o, op))
    decreases |missing|
  {
    if missing != [] && fallbacks != [] {
      HintsTrue(w, nodes, from, missing[1..], fallbacks[1..], o, op);
      FxJoin(w, nodes, from, [Send(fallbacks[0], StoreHint(o, op.key, op.value, op.ts, missing[0]))],
             Hints(missing[1..], fallbacks[1..], o, op));
    }
  }

  // ---------- stability ----------

  /** More writes make nothing untrue. */
  lemma NodeMore(w: set<Claim>, v: set<Claim>, s: State)
    requires NodeTrue(w, s) && w <= v
    ensures NodeTrue(v, s)
  {
    forall o | o in s.pending ensures OpTrue(v, s.pending[o]) { assert OpTrue(w, s.pending[o]); }
  }

  lemma MsgMore(w: set<Claim>, v: set<Claim>, a: Nodes, b: Nodes, p: Packet)
    requires MsgTrue(w, a, p.from, p.to, p.msg) && w <= v
    requires forall n :: n in a ==> n in b && OpsKept(a[n], b[n])
    ensures MsgTrue(v, b, p.from, p.to, p.msg)
  {
  }

  lemma OpsStay(s: State, a: Action)
    ensures OpsKept(s, React(s, a).0)
  {
    match a {
      case Deliver(p, now) => {
        if p.msg.StoreAck? { AckGrows(s, p.from, p.msg, now); }
        if p.msg.FetchReply? { ReplyGrows(s, p.from, p.msg, now); }
      }
      case Client(_, cmd, now) => {}
      case Fire(_, timer, now) => {}
    }
  }

  // ---------- handlers ----------

  lemma StoreTrue(w: set<Claim>, s: State, k: string, v: string, ts: int)
    requires NodeTrue(w, s) && Claim(k, v, ts) in w
    ensures NodeTrue(w, ApplyLww(s, k, v, ts))
  {
  }

  lemma {:induction false} PutHintTrue(w: set<Claim>, hints: seq<Hint>, h: Hint)
    requires Claim(h.key, h.value, h.ts) in w && forall g :: g in hints ==> Claim(g.key, g.value, g.ts) in w
    ensures forall g :: g in PutHint(hints, h) ==> Claim(g.key, g.value, g.ts) in w
  {
    if hints != [] {
      assert hints == [hints[0]] + hints[1..];
      PutHintTrue(w, hints[1..], h);
    }
  }

  lemma {:induction false} DropHintTrue(w: set<Claim>, hints: seq<Hint>, k: HintKey)
    requires forall g :: g in hints ==> Claim(g.key, g.value, g.ts) in w
    ensures forall g :: g in DropHint(hints, k) ==> Claim(g.key, g.value, g.ts) in w
  {
    if hints != [] {
      assert hints == [hints[0]] + hints[1..];
      DropHintTrue(w, hints[1..], k);
    }
  }

  lemma AckTrue(w: set<Claim>, s: State, from: NodeId, m: Msg, now: nat)
    requires m.StoreAck? && NodeTrue(w, s)
    ensures NodeTrue(w, OnStoreAck(s, from, m, now))
  {
    if m.handoffOf.Some? { DropHintTrue(w, s.hintBuffer, m.handoffOf.value); }
  }

  lemma FetchTrue(w: set<Claim>, s: State, k: string)
    requires NodeTrue(w, s)
    ensures AnswerTrue(w, k, VersionOf(s.data, k), if k in s.data then Some(s.data[k].value) else None)
  {
  }

  lemma ReplyTrue(w: set<Claim>, nodes: Nodes, s: State, from: NodeId, m: Msg, now: nat)
    requires m.FetchReply? && NodeTrue(w, s) && AnswerTrue(w, m.key, m.ts, m.found)
    requires m.getOp in s.pending ==> s.pending[m.getOp].ReadOp? && s.pending[m.getOp].key == m.key
    ensures NodeTrue(w, OnFetchReply(s, from, m, now).0) && FxTrue(w, nodes, s.self, OnFetchReply(s, from, m, now).1)
  {
    if m.getOp in s.pending && !Replied(s.pending[m.getOp].replies, from) {
      var op := s.pending[m.getOp];
      var replies := op.replies + [Reply(from, m.ts, m.found)];
      assert OpTrue(w, op);
      assert OpTrue(w, op.(replies := replies));
      if |replies| >= s.r {
        var newest := Newest(replies);
        NewestIn(replies);
        if newest.value.Some? { RepairsTrue(w, nodes, s.self, replies, op.key, newest); }
      }
    }
  }

  lemma MessageTrue(w: set<Claim>, nodes: Nodes, s: State, p: Packet, now: nat)
    requires NodeTrue(w, s) && MsgTrue(w, nodes, p.from, p.to, p.msg) && p.to in nodes && nodes[p.to] == s && s.self == p.to
    ensures NodeTrue(w, OnMessage(s, p.from, p.msg, now).0)
    ensures FxTrue(w, nodes, p.to, OnMessage(s, p.from, p.msg, now).1)
  {
    match p.msg {
      case Store(_, k, v, ts, _) => { StoreTrue(w, s, k, v, ts); }
      case StoreHint(_, k, v, ts, target) => { PutHintTrue(w, s.hintBuffer, Hint(k, v, ts, target)); }
      case StoreAck(_, _, _, _) => { AckTrue(w, s, p.from, p.msg, now); }
      case Fetch(_, k) => { FetchTrue(w, s, k); }
      case FetchReply(_, _, _, _) => { ReplyTrue(w, nodes, s, p.from, p.msg, now); }
    }
  }

  lemma ClientTrue(w: set<Claim>, nodes: Nodes, s: State, n: NodeId, cmd: Cmd, now: nat)
    requires NodeTrue(w, s) && (cmd.WriteCmd? ==> Claim(cmd.key, cmd.value, now + 1) in w)
    requires n in nodes && nodes[n] == OnClient(s, cmd, now).0
    ensures NodeTrue(w, OnClient(s, cmd, now).0) && FxTrue(w, nodes, n, OnClient(s, cmd, now).1)
  {
    match cmd {
      case WriteCmd(k, v) => { SendAllTrue(w, nodes, n, s.home, Store(Some(s.nextOp), k, v, now + 1, None)); }
      case ReadCmd(k) => { SendAllTrue(w, nodes, n, s.home, Fetch(s.nextOp, k)); }
    }
  }

  lemma TimerTrue(w: set<Claim>, nodes: Nodes, s: State, n: NodeId, t: Timer, now: nat)
    requires NodeTrue(w, s)
    ensures NodeTrue(w, OnTimer(s, t, now).0) && FxTrue(w, nodes, n, OnTimer(s, t, now).1)
  {
    match t {
      case Handoff => { HandoffsTrue(w, nodes, n, s.hintBuffer); }
      case OpTimeout(o) => {
        if o in s.pending && s.pending[o].WriteOp? {
          assert OpTrue(w, s.pending[o]);
          HintsTrue(w, nodes, n, Missing(s.home, s.pending[o].acks), s.fallbacks, o, s.pending[o]);
        }
      }
    }
  }

  // ---------- runs ----------

  ghost predicate Named(c: Cluster) {
    forall n {:trigger c.nodes[n]} :: n in c.nodes ==> c.nodes[n].self == n
  }

  lemma SelfStays(s: State, a: Action)
    ensures React(s, a).0.self == s.self
  {
  }

  lemma ActorTrue(w: set<Claim>, c: Cluster, a: Action)
    requires Truth(w, c) && Named(c) && Enabled(c, a)
    ensures var v, c' := w + ClaimOf(a), Step(c, a);
      NodeTrue(v, c'.nodes[Actor(a)]) && FxTrue(v, c'.nodes, Actor(a), React(c.nodes[Actor(a)], a).1)
  {
    var v, n, c' := w + ClaimOf(a), Actor(a), Step(c, a);
    var s := c.nodes[n];
    NodeMore(w, v, s);
    match a {
      case Deliver(p, now) => {
        MsgMore(w, v, c.nodes, c.nodes, p);
        MessageTrue(v, c.nodes, s, p, now);
        OpsStay(s, a);
        FxStays(v, c.nodes, c'.nodes, n, React(s, a).1);
      }
      case Client(_, cmd, now) => { ClientTrue(v, c'.nodes, s, n, cmd, now); }
      case Fire(_, timer, now) => { TimerTrue(v, c'.nodes, s, n, timer, now); }
    }
  }

  lemma FxStays(w: set<Claim>, a: Nodes, b: Nodes, from: NodeId, fx: seq<Effect>)
    requires FxTrue(w, a, from, fx) && forall n :: n in a ==> n in b && OpsKept(a[n], b[n])
    ensures FxTrue(w, b, from, fx)
  {
    forall i | 0 <= i < |fx| && fx[i].Send? ensures MsgTrue(w, b, from, fx[i].to, fx[i].msg) {
      MsgMore(w, w, a, b, Packet(from, fx[i].to, fx[i].msg));
    }
  }

  lemma StepTrue(w: set<Claim>, c: Cluster, a: Action)
    requires Truth(w, c) && Named(c) && Enabled(c, a)
    ensures Truth(w + ClaimOf(a), Step(c, a)) && Named(Step(c, a))
  {
    var v, c' := w + ClaimOf(a), Step(c, a);
    ActorTrue(w, c, a);
    SelfStays(c.nodes[Actor(a)], a);
    OpsStay(c.nodes[Actor(a)], a);
    forall n | n in c'.nodes ensures NodeTrue(v, c'.nodes[n]) {
      if n != Actor(a) { NodeMore(w, v, c.nodes[n]); }
    }
    forall p | p in c'.net ensures MsgTrue(v, c'.nodes, p.from, p.to, p.msg) {
      if p in c.net {
        MsgMore(w, v, c.nodes, c'.nodes, p);
      } else {
        InPackets(Actor(a), React(c.nodes[Actor(a)], a).1, p);
      }
    }
  }

  /** Nodes that hold nothing yet, in either mode, and an empty network. */
  ghost predicate Blank(c: Cluster) {
    && c.net == {} && Named(c)
    && forall n {:trigger c.nodes[n]} :: n in c.nodes ==>
         c.nodes[n].data == map[] && c.nodes[n].hintBuffer == [] && c.nodes[n].pending == map[]
  }

  lemma {:induction false} ExecTrue(c: Cluster, acts: seq<Action>)
    requires Blank(c) && Runs(c, acts)
    ensures Truth(Claims(acts), Exec(c, acts)) && Named(Exec(c, acts))
  {
    if acts != [] {
      ExecTrue(c, acts[..|acts| - 1]);
      StepTrue(Claims(acts[..|acts| - 1]), Exec(c, acts[..|acts| - 1]), acts[|acts| - 1]);
    }
  }

  lemma StartBlank(f: Config)
    ensures Blank(Start(f))
  {
  }

  /** Every value a node holds for a key, as data or as a hint, was written to that key by a client one tick before
      the version it holds it at; and so is every answer it has gathered for a read. */
  lemma HeldWasWritten(c: Cluster, acts: seq<Action>, n: NodeId, k: string)
    requires Blank(c) && Runs(c, acts) && n in Exec(c, acts).nodes
    ensures var s := Exec(c, acts).nodes[n];
      && (k in s.data ==> Wrote(acts, k, s.data[k].value, s.data[k].ts))
      && (forall h :: h in s.hintBuffer && h.key == k ==> Wrote(acts, k, h.value, h.ts))
      && (forall o :: o in s.pending && s.pending[o].WriteOp? && s.pending[o].key == k ==>
            Wrote(acts, k, s.pending[o].value, s.pending[o].ts))
      && (forall o, r :: o in s.pending && s.pending[o].ReadOp? && s.pending[o].key == k && r in s.pending[o].replies ==>
            if r.value.Some? then Wrote(acts, k, r.value.value, r.ts) else r.ts == -1)
  {
    ExecTrue(c, acts);
    var s, w := Exec(c, acts).nodes[n], Claims(acts);
    assert NodeTrue(w, s);
    if k in s.data { ClaimsAre(acts, k, s.data[k].value, s.data[k].ts); }
    forall h | h in s.hintBuffer && h.key == k ensures Wrote(acts, k, h.value, h.ts) { ClaimsAre(acts, k, h.value, h.ts); }
    forall o | o in s.pending && s.pending[o].WriteOp? && s.pending[o].key == k
      ensures Wrote(acts, k, s.pending[o].value, s.pending[o].ts)
    {
      assert OpTrue(w, s.pending[o]);
      ClaimsAre(acts, k, s.pending[o].value, s.pending[o].ts);
    }
    forall o, r | o in s.pending && s.pending[o].ReadOp? && s.pending[o].key == k && r in s.pending[o].replies
      ensures if r.value.Some? then Wrote(acts, k, r.value.value, r.ts) else r.ts == -1
    {
      assert OpTrue(w, s.pending[o]);
      if r.value.Some? { ClaimsAre(acts, k, r.value.value, r.ts); }
    }
  }

  /** The value that a message carries, if any, was written. */
  ghost predicate WroteMsg(acts: seq<Action>, m: Msg) {
    match m
    case Store(_, k, v, ts, _) => Wrote(acts, k, v, ts)
    case StoreHint(_, k, v, ts, _) => Wrote(acts, k, v, ts)
    case FetchReply(_, k, ts, found) => if found.Some? then Wrote(acts, k, found.value, ts) else ts == -1
    case Fetch(_, _) => true
    case StoreAck(_, _, _, _) => true
  }

  /** Every value in flight was written: what is to be stored or hinted, and what answers a read. */
  lemma SentWasWritten(c: Cluster, acts: seq<Action>, p: Packet)
    requires Blank(c) && Runs(c, acts) && p in Exec(c, acts).net
    ensures WroteMsg(acts, p.msg)
  {
    ExecTrue(c, acts);
    assert MsgTrue(Claims(acts), Exec(c, acts).nodes, p.from, p.to, p.msg);
    match p.msg {
      case Store(_, k, v, ts, _) => { ClaimsAre(acts, k, v, ts); }
      case StoreHint(_, k, v, ts, _) => { ClaimsAre(acts, k, v, ts); }
      case FetchReply(_, k, ts, found) => { if found.Some? { ClaimsAre(acts, k, found.value, ts); } }
      case Fetch(_, _) => {}
      case StoreAck(_, _, _, _) => {}
    }
  }

  // ---------- when operations end ----------

  /** An operation ends with the ack or the reply that completes its quorum, so a pending one is short of it. */
  ghost predicate Short(s: State) {
    forall o :: o in s.pending ==>
      if s.pending[o].WriteOp? then |s.pending[o].acks| < s.w else |s.pending[o].replies| < s.r
  }

  lemma ReactShort(s: State, a: Action)
    requires Short(s) && s.w >= 1 && s.r >= 1
    ensures var q := React(s, a).0; Short(q) && q.w == s.w && q.r == s.r
  {
    match a {
      case Deliver(p, now) => {
        match p.msg {
          case StoreAck(_, _, _, _) => { AckShort(s, p.from, p.msg, now); }
          case FetchReply(_, _, _, _) => { ReplyShort(s, p.from, p.msg, now); }
          case _ => {}
        }
      }
      case Client(_, cmd, now) => {}
      case Fire(_, timer, now) => {}
    }
  }

  lemma AckShort(s: State, from: NodeId, m: Msg, now: nat)
    requires m.StoreAck? && Short(s)
    ensures var q := OnStoreAck(s, from, m, now); Short(q) && q.w == s.w && q.r == s.r
  {
  }

  lemma ReplyShort(s: State, from: NodeId, m: Msg, now: nat)
    requires m.FetchReply? && Short(s)
    ensures var q := OnFetchReply(s, from, m, now).0; Short(q) && q.w == s.w && q.r == s.r
  {
  }

  /** In every reachable state a pending write has fewer than w acks, and a pending read fewer than r replies. */
  lemma {:induction false} PendingShort(c: Cluster, acts: seq<Action>, n: NodeId)
    requires Blank(c) && Runs(c, acts) && n in c.nodes && c.nodes[n].w >= 1 && c.nodes[n].r >= 1
    ensures n in Exec(c, acts).nodes && Short(Exec(c, acts).nodes[n])
    ensures Exec(c, acts).nodes[n].w == c.nodes[n].w && Exec(c, acts).nodes[n].r == c.nodes[n].r
  {
    if acts != [] {
      PendingShort(c, acts[..|acts| - 1], n);
      ReactShort(Exec(c, acts[..|acts| - 1]).nodes[n], acts[|acts| - 1]);
    }
  }

  /** A completed read repairs exactly the repliers that answered an older version, with the newest value. */
  lemma {:induction false} RepairsExact(replies: seq<Reply>, k: string, newest: Reply, e: Effect)
    requires newest.value.Some?
    ensures e in Repairs(replies, k, newest) <==>
      exists i :: 0 <= i < |replies| && replies[i].ts < newest.ts
        && e == Send(replies[i].from, Store(None, k, newest.value.value, newest.ts, None))
  {
    if replies != [] {
      var n := |replies| - 1;
      RepairsExact(replies[..n], k, newest, e);
      assert forall i :: 0 <= i < n ==> replies[..n][i] == replies[i];
    }
  }
}
