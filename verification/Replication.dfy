/** One leader and its followers: the leader numbers writes, followers apply them strictly in order. */
module Replication {
  datatype Option<+T> = None | Some(value: T)

  type NodeId = nat

  const RETRANSMIT_MS: nat := 60

  datatype Mode = Async | Sync
  datatype Role = Leader | Follower
  datatype Entry = Entry(tag: nat, key: string, value: string)
  datatype Cell = Cell(value: string, tag: nat)
  datatype Record =
    | Acked(tag: nat, key: string, time: nat)
    | ReadDone(node: NodeId, key: string, returned: nat, time: nat)
  datatype Pending = Pending(entry: Entry, awaiting: seq<NodeId>)

  datatype State = State(
    self: NodeId, role: Role, leader: NodeId, followers: seq<NodeId>, mode: Mode,
    log: seq<Entry>, data: map<string, Cell>, nextSeq: nat,
    pending: map<nat, Pending>, buffer: map<nat, Entry>, history: seq<Record>)

  datatype Msg = Append(entry: Entry) | Confirm(tag: nat)
  datatype Cmd = WriteCmd(key: string, value: string) | ReadCmd(key: string)
  datatype Effect = Send(to: NodeId, msg: Msg) | Retransmit(delay: nat, tag: nat)

  function Init(self: NodeId, nodes: seq<NodeId>, mode: Mode): State
    requires nodes != []
  {
    State(self, if self == nodes[0] then Leader else Follower, nodes[0], nodes[1..], mode, [], map[], 1, map[], map[], [])
  }

  function ApplyEntry(s: State, e: Entry): State {
    s.(log := s.log + [e], data := s.data[e.key := Cell(e.value, e.tag)])
  }

  function SendAll(to: seq<NodeId>, msg: Msg): seq<Effect> {
    if to == [] then [] else SendAll(to[..|to| - 1], msg) + [Send(to[|to| - 1], msg)]
  }

  function Log(s: State, r: Record): State { s.(history := s.history + [r]) }

  /** The sequence number of the value a node holds for a key; 0 when it holds none. */
  function SeqOf(s: State, key: string): nat { if key in s.data then s.data[key].tag else 0 }

  function OnClient(s: State, c: Cmd, now: nat): (State, seq<Effect>) {
    match c
    case ReadCmd(key) => (Log(s, ReadDone(s.self, key, SeqOf(s, key), now)), [])
    case WriteCmd(key, value) =>
      if s.role != Leader then (s, [])
      else
        var e := Entry(s.nextSeq, key, value);
        var next := ApplyEntry(s.(nextSeq := s.nextSeq + 1), e);
        if s.mode == Async then (Log(next, Acked(e.tag, key, now)), SendAll(s.followers, Append(e)))
        else (next.(pending := next.pending[e.tag := Pending(e, s.followers)]),
              SendAll(s.followers, Append(e)) + [Retransmit(RETRANSMIT_MS, e.tag)])
  }

  /** Applying buffered entries for as long as the next one is there; also the numbers applied. */
  function Drain(s: State): (State, seq<nat>)
    decreases |s.buffer|
  {
    var gap := |s.log| + 1;
    if gap !in s.buffer then (s, [])
    else
      var rest := s.buffer - {gap};
      assert s.buffer.Keys == rest.Keys + {gap};
      var r := Drain(ApplyEntry(s.(buffer := rest), s.buffer[gap]));
      (r.0, [s.buffer[gap].tag] + r.1)
  }

  function Confirms(to: NodeId, tags: seq<nat>): seq<Effect> {
    if tags == [] then [] else Confirms(to, tags[..|tags| - 1]) + [Send(to, Confirm(tags[|tags| - 1]))]
  }

  function OnAppend(s: State, e: Entry): (State, seq<Effect>) {
    var again := if e.tag <= |s.log| then [e.tag] else [];
    var r := Drain(s.(buffer := s.buffer[e.tag := e]));
    (r.0, if s.mode == Sync then Confirms(s.leader, again + r.1) else [])
  }

  function Remove(s: seq<NodeId>, x: NodeId): seq<NodeId> {
    if s == [] then [] else (if s[0] == x then [] else [s[0]]) + Remove(s[1..], x)
  }

  function OnConfirm(s: State, from: NodeId, tag: nat, now: nat): State {
    if tag !in s.pending then s
    else
      var pend := s.pending[tag];
      var awaiting := Remove(pend.awaiting, from);
      if |awaiting| == |pend.awaiting| then s
      else if |awaiting| > 0 then s.(pending := s.pending[tag := pend.(awaiting := awaiting)])
      else Log(s.(pending := s.pending - {tag}), Acked(tag, pend.entry.key, now))
  }

  function OnMessage(s: State, from: NodeId, m: Msg, now: nat): (State, seq<Effect>) {
    match m
    case Append(e) => if s.role == Follower then OnAppend(s, e) else (s, [])
    case Confirm(tag) => if s.role == Leader then (OnConfirm(s, from, tag, now), []) else (s, [])
  }

  function OnTimer(s: State, tag: nat): (State, seq<Effect>) {
    if tag !in s.pending then (s, [])
    else (s, SendAll(s.pending[tag].awaiting, Append(s.pending[tag].entry)) + [Retransmit(RETRANSMIT_MS, tag)])
  }

  // ---------- loops ----------

  /** What is left to drain after some entries. */
  ghost predicate Drained(goal: (State, seq<nat>), s: State, tags: seq<nat>) {
    goal.0 == Drain(s).0 && goal.1 == tags + Drain(s).1
  }

  lemma DrainedStep(goal: (State, seq<nat>), s: State, tags: seq<nat>)
    requires Drained(goal, s, tags) && |s.log| + 1 in s.buffer
    ensures |s.buffer - {|s.log| + 1}| < |s.buffer|
    ensures var e := s.buffer[|s.log| + 1]; Drained(goal, ApplyEntry(s.(buffer := s.buffer - {|s.log| + 1}), e), tags + [e.tag])
  {
    var rest, e := s.buffer - {|s.log| + 1}, s.buffer[|s.log| + 1];
    assert s.buffer.Keys == rest.Keys + {|s.log| + 1};
    var left := Drain(ApplyEntry(s.(buffer := rest), e)).1;
    assert tags + ([e.tag] + left) == (tags + [e.tag]) + left;
  }

  lemma DrainedEnds(goal: (State, seq<nat>), s: State, tags: seq<nat>)
    requires |s.log| + 1 !in s.buffer
    ensures Drained(goal, s, tags) <==> goal == (s, tags)
  {
    assert tags + [] == tags;
  }

  method DrainBuffer(s: State) returns (s': State, tags: seq<nat>)
    ensures (s', tags) == Drain(s)
  {
    s', tags := s, [];
    ghost var goal := Drain(s);
    assert [] + goal.1 == goal.1;
    while |s'.log| + 1 in s'.buffer
      invariant Drained(goal, s', tags)
      decreases |s'.buffer|
    {
      DrainedStep(goal, s', tags);
      var gap := |s'.log| + 1;
      var e := s'.buffer[gap];
      s' := ApplyEntry(s'.(buffer := s'.buffer - {gap}), e);
      tags := tags + [e.tag];
    }
    DrainedEnds(goal, s', tags);
  }

  /** A read missed a write that had been acked by then. */
  predicate Stale(read: Record, ack: Record) {
    read.ReadDone? && ack.Acked? && ack.key == read.key && ack.tag > read.returned && ack.time <= read.time
  }

  predicate StalePair(states: map<NodeId, State>, leader: NodeId, n: NodeId, read: Record, ack: Record) {
    && n in states && leader in states && read in states[n].history && ack in states[leader].history && Stale(read, ack)
  }

  method DetectStaleRead(order: seq<NodeId>, states: map<NodeId, State>, leader: NodeId)
    returns (stale: Option<(Record, Record)>)
    requires leader in states && forall n :: n in order <==> n in states
    ensures stale.None? <==> forall n, read, ack :: !StalePair(states, leader, n, read, ack)
    ensures stale.Some? ==> exists n :: StalePair(states, leader, n, stale.value.0, stale.value.1)
  {
    var acks := states[leader].history;
    for i := 0 to |order|
      invariant forall j, read, ack :: 0 <= j < i ==> !StalePair(states, leader, order[j], read, ack)
    {
      var history := states[order[i]].history;
      for j := 0 to |history|
        invariant forall k, ack :: 0 <= k < j && ack in acks ==> !Stale(history[k], ack)
      {
        for a := 0 to |acks|
          invariant forall b :: 0 <= b < a ==> !Stale(history[j], acks[b])
        {
          if Stale(history[j], acks[a]) {
            assert StalePair(states, leader, order[i], history[j], acks[a]);
            return Some((history[j], acks[a]));
          }
        }
      }
    }
    return None;
  }
}
