/** Quorum replication without a leader: any node coordinates, the home replicas keep the newest version. */
module Leaderless {
  datatype Option<+T> = None | Some(value: T)

  type NodeId = nat
  type OpId = nat

  const OP_TIMEOUT_MS: nat := 200
  const HANDOFF_RETRY_MS: nat := 100

  datatype Cell = Cell(value: string, ts: int)
  datatype Reply = Reply(from: NodeId, ts: int, value: Option<string>)
  datatype Pending =
    | WriteOp(key: string, value: string, ts: int, acks: seq<NodeId>, hinted: bool)
    | ReadOp(key: string, replies: seq<Reply>)
  datatype Hint = Hint(key: string, value: string, ts: int, target: NodeId)

  /** A hint is known by its target and key. */
  datatype HintKey = HintKey(target: NodeId, key: string)

  datatype Record =
    | Acked(key: string, ts: int, time: nat)
    | FailedWrite(key: string, time: nat)
    | ReadDone(node: NodeId, key: string, returnedTs: int, time: nat)
    | ReadRepair(key: string, to: NodeId, time: nat)
    | FailedRead(node: NodeId, key: string, time: nat)

  datatype State = State(
    self: NodeId, home: seq<NodeId>, fallbacks: seq<NodeId>, w: nat, r: nat, sloppy: bool,
    data: map<string, Cell>, hintBuffer: seq<Hint>, pending: map<OpId, Pending>, nextOp: OpId, history: seq<Record>)

  datatype Msg =
    | Store(opId: Option<OpId>, key: string, value: string, ts: int, handoffOf: Option<HintKey>)
    | StoreAck(opId: Option<OpId>, key: string, ts: int, handoffOf: Option<HintKey>)
    | StoreHint(hintOp: OpId, key: string, value: string, ts: int, target: NodeId)
    | Fetch(getOp: OpId, key: string)
    | FetchReply(getOp: OpId, key: string, ts: int, found: Option<string>)

  datatype Cmd = WriteCmd(key: string, value: string) | ReadCmd(key: string)
  datatype Timer = OpTimeout(opId: OpId) | Handoff
  datatype Effect = Send(to: NodeId, msg: Msg) | SetTimer(delay: nat, timer: Timer)

  function Init(self: NodeId, nodes: seq<NodeId>, w: nat, r: nat, sloppy: bool): State {
    var n := if |nodes| < 3 then |nodes| else 3;
    State(self, nodes[..n], nodes[n..], w, r, sloppy, map[], [], map[], 1, [])
  }

  /** The version a replica holds; -1 when it holds none. */
  function VersionOf(data: map<string, Cell>, key: string): int { if key in data then data[key].ts else -1 }

  function ApplyLww(s: State, key: string, value: string, ts: int): State {
    if key in s.data && s.data[key].ts >= ts then s else s.(data := s.data[key := Cell(value, ts)])
  }

  function CompleteOp(s: State, opId: OpId): State { s.(pending := s.pending - {opId}) }

  function Log(s: State, r: Record): State { s.(history := s.history + [r]) }

  function SendAll(to: seq<NodeId>, msg: Msg): seq<Effect> {
    if to == [] then [] else SendAll(to[..|to| - 1], msg) + [Send(to[|to| - 1], msg)]
  }

  function OnClient(s: State, c: Cmd, now: nat): (State, seq<Effect>) {
    var opId := s.nextOp;
    var timeout := [SetTimer(OP_TIMEOUT_MS, OpTimeout(opId))];
    match c
    case WriteCmd(key, value) =>
      (s.(nextOp := opId + 1, pending := s.pending[opId := WriteOp(key, value, now + 1, [], false)]),
       SendAll(s.home, Store(Some(opId), key, value, now + 1, None)) + timeout)
    case ReadCmd(key) =>
      (s.(nextOp := opId + 1, pending := s.pending[opId := ReadOp(key, [])]),
       SendAll(s.home, Fetch(opId, key)) + timeout)
  }

  // ---------- hints ----------

  function HintAt(hints: seq<Hint>, k: HintKey): Option<Hint> {
    if hints == [] then None
    else if hints[0].target == k.target && hints[0].key == k.key then Some(hints[0]) else HintAt(hints[1..], k)
  }

  function PutHint(hints: seq<Hint>, h: Hint): seq<Hint> {
    if hints == [] then [h]
    else if hints[0].target == h.target && hints[0].key == h.key then [h] + hints[1..]
    else [hints[0]] + PutHint(hints[1..], h)
  }

  function DropHint(hints: seq<Hint>, k: HintKey): seq<Hint> {
    if hints == [] then []
    else if hints[0].target == k.target && hints[0].key == k.key then DropHint(hints[1..], k)
    else [hints[0]] + DropHint(hints[1..], k)
  }

  function HandoffOf(h: Hint): Effect {
    Send(h.target, Store(None, h.key, h.value, h.ts, Some(HintKey(h.target, h.key))))
  }

  function Handoffs(hints: seq<Hint>): seq<Effect> {
    if hints == [] then []
    else Handoffs(hints[..|hints| - 1]) + [HandoffOf(hints[|hints| - 1])]
  }

  // ---------- messages ----------

  function OnStore(s: State, from: NodeId, m: Msg): (State, seq<Effect>)
    requires m.Store?
  {
    (ApplyLww(s, m.key, m.value, m.ts), [Send(from, StoreAck(m.opId, m.key, m.ts, m.handoffOf))])
  }

  function OnStoreHint(s: State, from: NodeId, m: Msg): (State, seq<Effect>)
    requires m.StoreHint?
  {
    var cur := HintAt(s.hintBuffer, HintKey(m.target, m.key));
    var next := if cur.Some? && cur.value.ts >= m.ts then s
                else s.(hintBuffer := PutHint(s.hintBuffer, Hint(m.key, m.value, m.ts, m.target)));
    (next, [Send(from, StoreAck(Some(m.hintOp), m.key, m.ts, None))]
           + if s.hintBuffer == [] then [SetTimer(HANDOFF_RETRY_MS, Handoff)] else [])
  }

  function OnStoreAck(s: State, from: NodeId, m: Msg, now: nat): State
    requires m.StoreAck?
  {
    if m.handoffOf.Some? then
      if HintAt(s.hintBuffer, m.handoffOf.value).None? then s
      else s.(hintBuffer := DropHint(s.hintBuffer, m.handoffOf.value))
    else if m.opId.None? || m.opId.value !in s.pending || !s.pending[m.opId.value].WriteOp? then s
    else
      var op := s.pending[m.opId.value];
      if from in op.acks then s
      else if |op.acks| + 1 < s.w then s.(pending := s.pending[m.opId.value := op.(acks := op.acks + [from])])
      else Log(CompleteOp(s, m.opId.value), Acked(op.key, op.ts, now))
  }

  function OnFetch(s: State, from: NodeId, m: Msg): (State, seq<Effect>)
    requires m.Fetch?
  {
    var found := if m.key in s.data then Some(s.data[m.key].value) else None;
    (s, [Send(from, FetchReply(m.getOp, m.key, VersionOf(s.data, m.key), found))])
  }

  predicate Replied(replies: seq<Reply>, from: NodeId) {
    exists i :: 0 <= i < |replies| && replies[i].from == from
  }

  /** The first reply of the highest version. */
  function Newest(replies: seq<Reply>): Reply
    requires replies != []
  {
    if |replies| == 1 then replies[0]
    else
      var a, b := Newest(replies[..|replies| - 1]), replies[|replies| - 1];
      if b.ts > a.ts then b else a
  }

  function Repair(rep: Reply, key: string, newest: Reply): seq<Effect>
    requires newest.value.Some?
  {
    if rep.ts < newest.ts then [Send(rep.from, Store(None, key, newest.value.value, newest.ts, None))] else []
  }

  function Repairs(replies: seq<Reply>, key: string, newest: Reply): seq<Effect>
    requires newest.value.Some?
  {
    if replies == [] then []
    else Repairs(replies[..|replies| - 1], key, newest) + Repair(replies[|replies| - 1], key, newest)
  }

  function RepairNote(rep: Reply, key: string, newest: Reply, now: nat): seq<Record> {
    if rep.ts < newest.ts then [ReadRepair(key, rep.from, now)] else []
  }

  function RepairLog(replies: seq<Reply>, key: string, newest: Reply, now: nat): seq<Record> {
    if replies == [] then []
    else RepairLog(replies[..|replies| - 1], key, newest, now) + RepairNote(replies[|replies| - 1], key, newest, now)
  }

  function OnFetchReply(s: State, from: NodeId, m: Msg, now: nat): (State, seq<Effect>)
    requires m.FetchReply?
  {
    if m.getOp !in s.pending || !s.pending[m.getOp].ReadOp? || Replied(s.pending[m.getOp].replies, from) then (s, [])
    else
      var op := s.pending[m.getOp];
      var replies := op.replies + [Reply(from, m.ts, m.found)];
      if |replies| < s.r then (s.(pending := s.pending[m.getOp := op.(replies := replies)]), [])
      else
        var newest := Newest(replies);
        var done := Log(CompleteOp(s, m.getOp), ReadDone(s.self, op.key, newest.ts, now));
        if newest.value.None? then (done, [])
        else (done.(history := done.history + RepairLog(replies, op.key, newest, now)), Repairs(replies, op.key, newest))
  }

  function OnMessage(s: State, from: NodeId, m: Msg, now: nat): (State, seq<Effect>) {
    match m
    case Store(_, _, _, _, _) => OnStore(s, from, m)
    case StoreHint(_, _, _, _, _) => OnStoreHint(s, from, m)
    case StoreAck(_, _, _, _) => (OnStoreAck(s, from, m, now), [])
    case Fetch(_, _) => OnFetch(s, from, m)
    case FetchReply(_, _, _, _) => OnFetchReply(s, from, m, now)
  }

  // ---------- timers ----------

  /** The home replicas that have not acked, one fallback each as far as they go. */
  function Missing(home: seq<NodeId>, acks: seq<NodeId>): seq<NodeId> {
    if home == [] then []
    else Missing(home[..|home| - 1], acks) + if home[|home| - 1] in acks then [] else [home[|home| - 1]]
  }

  function Hints(missing: seq<NodeId>, fallbacks: seq<NodeId>, opId: OpId, op: Pending): seq<Effect>
    requires op.WriteOp?
  {
    if missing == [] || fallbacks == [] then []
    else [Send(fallbacks[0], StoreHint(opId, op.key, op.value, op.ts, missing[0]))] + Hints(missing[1..], fallbacks[1..], opId, op)
  }

  function OnTimer(s: State, t: Timer, now: nat): (State, seq<Effect>) {
    match t
    case Handoff =>
      if s.hintBuffer == [] then (s, [])
      else (s, Handoffs(s.hintBuffer) + [SetTimer(HANDOFF_RETRY_MS, Handoff)])
    case OpTimeout(opId) =>
      if opId !in s.pending then (s, [])
      else
        var op := s.pending[opId];
        if op.ReadOp? then (Log(CompleteOp(s, opId), FailedRead(s.self, op.key, now)), [])
        else if !s.sloppy || op.hinted then (Log(CompleteOp(s, opId), FailedWrite(op.key, now)), [])
        else (s.(pending := s.pending[opId := op.(hinted := true)]),
              Hints(Missing(s.home, op.acks), s.fallbacks, opId, op) + [SetTimer(OP_TIMEOUT_MS, OpTimeout(opId))])
  }

  // ---------- loops ----------

  method FinishRead(s: State, opId: OpId, from: NodeId, m: Msg, now: nat) returns (s': State, fx: seq<Effect>)
    requires m.FetchReply? && m.getOp == opId && opId in s.pending && s.pending[opId].ReadOp?
    requires !Replied(s.pending[opId].replies, from) && |s.pending[opId].replies| + 1 >= s.r
    ensures (s', fx) == OnFetchReply(s, from, m, now)
  {
    var op := s.pending[opId];
    var replies := op.replies + [Reply(from, m.ts, m.found)];
    var newest := replies[0];
    assert replies[..1] == [replies[0]];
    for i := 1 to |replies|
      invariant newest == Newest(replies[..i])
    {
      assert replies[..i + 1][..i] == replies[..i];
      if replies[i].ts > newest.ts { newest := replies[i]; }
    }
    assert replies[..|replies|] == replies;
    s' := Log(CompleteOp(s, opId), ReadDone(s.self, op.key, newest.ts, now));
    fx := [];
    if newest.value.Some? {
      ghost var base := s';
      assert replies[..0] == [];
      for i := 0 to |replies|
        invariant fx == Repairs(replies[..i], op.key, newest)
        invariant s' == base.(history := base.history + RepairLog(replies[..i], op.key, newest, now))
      {
        assert replies[..i + 1][..i] == replies[..i];
        if replies[i].ts < newest.ts {
          fx := fx + [Send(replies[i].from, Store(None, op.key, newest.value.value, newest.ts, None))];
          s' := Log(s', ReadRepair(op.key, replies[i].from, now));
        }
      }
    }
  }

  /** Some live node holds the version, as data or as a hint. */
  predicate Alive(states: map<NodeId, State>, dead: set<NodeId>, key: string, ts: int) {
    exists id :: id in states && id !in dead && Keeps(states[id], key, ts)
  }

  predicate Keeps(t: State, key: string, ts: int) {
    VersionOf(t.data, key) >= ts || exists i :: 0 <= i < |t.hintBuffer| && t.hintBuffer[i].key == key && t.hintBuffer[i].ts >= ts
  }

  predicate Lost(states: map<NodeId, State>, dead: set<NodeId>, r: Record) {
    r.Acked? && !Alive(states, dead, r.key, r.ts)
  }

  predicate Loses(states: map<NodeId, State>, dead: set<NodeId>, id: NodeId, r: Record) {
    id in states && r in states[id].history && Lost(states, dead, r)
  }

  method FindAlive(order: seq<NodeId>, states: map<NodeId, State>, dead: set<NodeId>, key: string, ts: int)
    returns (alive: bool)
    requires forall id :: id in order <==> id in states
    ensures alive == Alive(states, dead, key, ts)
  {
    alive := false;
    for i := 0 to |order|
      invariant alive == exists j :: 0 <= j < i && order[j] !in dead && Keeps(states[order[j]], key, ts)
    {
      if order[i] !in dead {
        var t := states[order[i]];
        if VersionOf(t.data, key) >= ts { alive := true; }
        ghost var before := alive;
        for h := 0 to |t.hintBuffer|
          invariant alive == (before || exists j :: 0 <= j < h && t.hintBuffer[j].key == key && t.hintBuffer[j].ts >= ts)
        {
          if t.hintBuffer[h].key == key && t.hintBuffer[h].ts >= ts { alive := true; }
        }
      }
    }
  }

  /** The first acked write that no live node holds, with its coordinator, if there is one. */
  method DetectLostAckedWrite(order: seq<NodeId>, states: map<NodeId, State>, dead: set<NodeId>)
    returns (lost: Option<(Record, NodeId)>)
    requires forall id :: id in order <==> id in states
    ensures lost.None? <==> forall id, r :: !Loses(states, dead, id, r)
    ensures lost.Some? ==> Loses(states, dead, lost.value.1, lost.value.0)
  {
    for i := 0 to |order|
      invariant forall j, r :: 0 <= j < i ==> !Loses(states, dead, order[j], r)
    {
      var history := states[order[i]].history;
      for j := 0 to |history|
        invariant forall k :: 0 <= k < j ==> !Lost(states, dead, history[k])
      {
        var h := history[j];
        if h.Acked? {
          var alive := FindAlive(order, states, dead, h.key, h.ts);
          if !alive {
            assert Loses(states, dead, order[i], h);
            return Some((h, order[i]));
          }
        }
      }
    }
    return None;
  }
}
