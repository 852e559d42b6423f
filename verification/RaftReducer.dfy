/** The per-node Raft reducer: node state, messages, timers, and what one event does to a node. */
module RaftReducer {

  datatype Option<+T> = None | Some(value: T)

  datatype NodeId = N1 | N2 | N3 | N4 | N5

  const RAFT_NODES: seq<NodeId> := [N1, N2, N3, N4, N5]
  const MAJORITY: nat := 3

  datatype Role = Follower | Candidate | Leader

  /** The identity of a client operation: the node it was invoked on and that node's running number. */
  datatype OpId = OpId(node: NodeId, n: nat)

  datatype Entry = Entry(term: nat, value: int, tag: OpId)

  datatype Msg =
    | ReqVote(term: nat, lastLogIndex: nat, lastLogTerm: nat)
    | Vote(term: nat, granted: bool)
    | Append(term: nat, prevIndex: nat, prevTerm: nat, entries: seq<Entry>, leaderCommit: nat)
    | AppendResp(term: nat, ok: bool, matchIndex: nat)

  datatype Command = Write(value: int) | Read

  datatype Timer =
    | ElectionTimer(nonce: nat)
    | HeartbeatTimer(nonce: nat)
    | ClientTimer(op: Command)

  datatype Event =
    | Init
    | Message(from: NodeId, msg: Msg)
    | Fire(timer: Timer)
    | External(op: Command)

  datatype Effect = Send(to: NodeId, msg: Msg) | Arm(timer: Timer)

  datatype Verdict = Pending | Ok | Lost | Redirect

  /** A client row. `index` is where a write landed; the row's own id doubles as its entry's tag. */
  datatype Row = Row(id: OpId, isWrite: bool, value: Option<int>, invokedAt: int, respondedAt: Option<int>,
                     outcome: Verdict, index: Option<nat>)

  datatype Node = Node(
    id: NodeId,
    role: Role,
    term: nat,
    votedFor: Option<NodeId>,
    log: seq<Entry>,
    commitIndex: nat,
    lastApplied: nat,
    kv: int,
    next: map<NodeId, nat>,
    matched: map<NodeId, nat>,
    votes: seq<NodeId>,
    electionNonce: nat,
    heartbeatNonce: nat,
    history: seq<Row>,
    historyN: nat,
    electionsWon: nat)

  datatype Outcome = Outcome(node: Node, fx: seq<Effect>)

  function InitNode(id: NodeId): Node {
    Node(id, Follower, 0, None, [], 0, 0, 0, map[], map[], [], 0, 0, [], 0, 0)
  }

  // ---------- small readers ----------

  function Without(ns: seq<NodeId>, self: NodeId): (r: seq<NodeId>)
    ensures forall n :: n in r <==> n in ns && n != self
  {
    if ns == [] then []
    else if ns[0] == self then Without(ns[1..], self)
    else [ns[0]] + Without(ns[1..], self)
  }

  function Peers(self: NodeId): (r: seq<NodeId>)
    ensures forall n :: n in r <==> n != self
  {
    Without(RAFT_NODES, self)
  }

  function LastTerm(log: seq<Entry>): nat {
    if log == [] then 0 else log[|log| - 1].term
  }

  /** Section 5.4.1: the log ending in (term, length) is at least as up-to-date as `log`. */
  predicate UpToDate(lastTerm: nat, length: nat, log: seq<Entry>) {
    lastTerm > LastTerm(log) || (lastTerm == LastTerm(log) && length >= |log|)
  }

  function NextFor(s: Node, to: NodeId): nat {
    if to in s.next then s.next[to] else |s.log| + 1
  }

  function MatchFor(s: Node, p: NodeId): nat {
    if p in s.matched then s.matched[p] else 0
  }

  // ---------- when the reducer does not throw ----------

  /** What every handler leaves behind: a leader's bookkeeping points inside its log, and
      everything committed has been applied. Outside this the code indexes past the log's end. */
  ghost predicate Valid(s: Node) {
    && s.commitIndex <= s.lastApplied
    && (s.role == Leader ==>
          && (forall p :: p in s.next ==> 1 <= s.next[p] <= |s.log| + 1)
          && (forall p :: p in s.matched ==> s.matched[p] <= |s.log|))
  }

  /** No acknowledgement claims more than the leader's own log holds. */
  ghost predicate Plausible(s: Node, ev: Event) {
    ev.Message? && ev.msg.AppendResp? && ev.msg.ok && s.role == Leader && ev.msg.term == s.term ==>
      ev.msg.matchIndex <= |s.log|
  }

  ghost predicate Sendable(s: Node, to: NodeId) {
    1 <= NextFor(s, to) <= |s.log| + 1
  }

  // ---------- timers and broadcasts ----------

  function ArmElection(s: Node): Outcome {
    Outcome(s.(electionNonce := s.electionNonce + 1), [Arm(ElectionTimer(s.electionNonce + 1))])
  }

  function ArmHeartbeat(s: Node): Outcome {
    Outcome(s.(heartbeatNonce := s.heartbeatNonce + 1), [Arm(HeartbeatTimer(s.heartbeatNonce + 1))])
  }

  function AdoptTerm(s: Node, term: nat): Outcome {
    ArmElection(s.(term := term, role := Follower, votedFor := None, votes := []))
  }

  /** The whole suffix of the log from `next[to]` on. */
  function AppendFor(s: Node, to: NodeId): Msg
    requires Sendable(s, to)
  {
    var prev := NextFor(s, to) - 1;
    Append(s.term, prev, LastTerm(s.log[..prev]), s.log[prev..], s.commitIndex)
  }

  function SendAppends(s: Node, ps: seq<NodeId>): (fx: seq<Effect>)
    requires forall p :: p in ps ==> Sendable(s, p)
    ensures forall e :: e in fx ==> e.Send? && e.to in ps && e.msg == AppendFor(s, e.to)
  {
    if ps == [] then [] else [Send(ps[0], AppendFor(s, ps[0]))] + SendAppends(s, ps[1..])
  }

  function SendAll(ps: seq<NodeId>, m: Msg): (fx: seq<Effect>)
    ensures forall e :: e in fx ==> e.Send? && e.to in ps && e.msg == m
  {
    if ps == [] then [] else [Send(ps[0], m)] + SendAll(ps[1..], m)
  }

  // ---------- applying and settling ----------

  /** Applying everything committed leaves the register at the last committed entry's value. */
  function Apply(s: Node): Node
    requires s.commitIndex <= |s.log| || s.commitIndex <= s.lastApplied
  {
    if s.lastApplied < s.commitIndex
    then s.(lastApplied := s.commitIndex, kv := s.log[s.commitIndex - 1].value)
    else s
  }

  /** A pending write is settled once its slot is decided, and lost when its entry is gone. */
  function SettleRow(row: Row, log: seq<Entry>, commitIndex: nat, now: int): Row {
    if !row.isWrite || row.outcome != Pending || row.index.None? then row
    else
      var i := row.index.value;
      var present := 1 <= i <= |log|;
      if present && log[i - 1].tag == row.id then
        if commitIndex >= i then row.(outcome := Ok, respondedAt := Some(now)) else row
      else if commitIndex >= i || !present then row.(outcome := Lost, respondedAt := Some(now))
      else row
  }

  function SettleRows(rows: seq<Row>, log: seq<Entry>, commitIndex: nat, now: int): (r: seq<Row>)
    ensures |r| == |rows|
    ensures forall i :: 0 <= i < |rows| ==> r[i] == SettleRow(rows[i], log, commitIndex, now)
  {
    seq(|rows|, i requires 0 <= i < |rows| => SettleRow(rows[i], log, commitIndex, now))
  }

  function ApplyAndSettle(s: Node, now: int): Node
    requires s.commitIndex <= |s.log| || s.commitIndex <= s.lastApplied
  {
    var a := Apply(s);
    a.(history := SettleRows(a.history, a.log, a.commitIndex, now))
  }

  // ---------- leadership ----------

  function Uniform(ps: seq<NodeId>, n: nat): (m: map<NodeId, nat>)
    ensures forall p :: p in m <==> p in ps
    ensures forall p :: p in m ==> m[p] == n
  {
    if ps == [] then map[] else Uniform(ps[..|ps| - 1], n)[ps[|ps| - 1] := n]
  }

  function LeadingOver(s: Node, ps: seq<NodeId>): Node {
    s.(role := Leader,
       electionsWon := s.electionsWon + 1,
       next := Uniform(ps, |s.log| + 1),
       matched := Uniform(ps, 0))
  }

  function Leading(s: Node): Node {
    LeadingOver(s, Peers(s.id))
  }

  function BecomeLeader(s: Node): Outcome {
    var l := Leading(s);
    var h := ArmHeartbeat(l);
    Outcome(h.node, SendAppends(l, Peers(l.id)) + h.fx)
  }

  // ---------- timers ----------

  function StartElection(s: Node): Outcome {
    var c := ArmElection(s.(role := Candidate, term := s.term + 1, votedFor := Some(s.id), votes := [s.id]));
    Outcome(c.node, c.fx + SendAll(Peers(s.id), ReqVote(s.term + 1, |s.log|, LastTerm(s.log))))
  }

  function Heartbeat(s: Node): Outcome
    requires Valid(s) && s.role == Leader
  {
    var h := ArmHeartbeat(s);
    Outcome(h.node, SendAppends(s, Peers(s.id)) + h.fx)
  }

  function OnTimer(s: Node, t: Timer, now: int): Outcome
    requires Valid(s)
  {
    match t
    case ClientTimer(op) => OnClient(s, op, now)
    case ElectionTimer(nonce) =>
      if nonce != s.electionNonce || s.role == Leader then Outcome(s, []) else StartElection(s)
    case HeartbeatTimer(nonce) =>
      if nonce != s.heartbeatNonce || s.role != Leader then Outcome(s, []) else Heartbeat(s)
  }

  // ---------- messages ----------

  function OnReqVote(s: Node, p: Msg, from: NodeId): Outcome
    requires p.ReqVote?
  {
    if p.term == s.term && (s.votedFor == None || s.votedFor == Some(from))
       && UpToDate(p.lastLogTerm, p.lastLogIndex, s.log)
    then
      var g := ArmElection(s.(votedFor := Some(from)));
      Outcome(g.node, g.fx + [Send(from, Vote(s.term, true))])
    else Outcome(s, [Send(from, Vote(s.term, false))])
  }

  function OnVote(s: Node, p: Msg, from: NodeId): Outcome
    requires p.Vote?
  {
    if s.role == Candidate && p.term == s.term && p.granted && from !in s.votes then
      var v := s.(votes := s.votes + [from]);
      if |v.votes| >= MAJORITY then BecomeLeader(v) else Outcome(v, [])
    else Outcome(s, [])
  }

  predicate PrevOk(log: seq<Entry>, prevIndex: nat, prevTerm: nat) {
    prevIndex == 0 || (|log| >= prevIndex && log[prevIndex - 1].term == prevTerm)
  }

  /** How many of `entries`, from the i-th on, the log already holds at their place (by term). */
  function Matching(log: seq<Entry>, prevIndex: nat, entries: seq<Entry>, i: nat): (k: nat)
    requires i <= |entries|
    ensures i <= k <= |entries|
    ensures i < k ==> prevIndex + k <= |log|
    ensures forall j :: i <= j < k ==> prevIndex + j < |log| && log[prevIndex + j].term == entries[j].term
    ensures k < |entries| ==> prevIndex + k >= |log| || log[prevIndex + k].term != entries[k].term
    decreases |entries| - i
  {
    if i < |entries| && |log| > prevIndex + i && log[prevIndex + i].term == entries[i].term
    then Matching(log, prevIndex, entries, i + 1)
    else i
  }

  /** Section 5.3: keep what matches, truncate only at the first conflict. */
  function MergeLog(log: seq<Entry>, prevIndex: nat, entries: seq<Entry>): seq<Entry>
    requires prevIndex <= |log|
  {
    var k := Matching(log, prevIndex, entries, 0);
    if k < |entries| then log[..prevIndex + k] + entries[k..] else log
  }

  function Min(a: nat, b: nat): nat { if a < b then a else b }

  /** Take over the entries and whatever of them the leader has committed. */
  function Accepting(s: Node, p: Msg, now: int): Node
    requires p.Append? && Valid(s) && p.prevIndex <= |s.log|
  {
    var log := MergeLog(s.log, p.prevIndex, p.entries);
    var commitIndex := if p.leaderCommit > s.commitIndex then Min(p.leaderCommit, |log|) else s.commitIndex;
    ApplyAndSettle(s.(log := log, commitIndex := commitIndex), now)
  }

  function OnAppend(s: Node, p: Msg, from: NodeId, now: int): Outcome
    requires p.Append? && Valid(s)
  {
    if p.term < s.term then Outcome(s, [Send(from, AppendResp(s.term, false, 0))])
    else
      var a := ArmElection(s.(role := Follower));
      if !PrevOk(s.log, p.prevIndex, p.prevTerm)
      then Outcome(a.node, a.fx + [Send(from, AppendResp(s.term, false, 0))])
      else
        Outcome(Accepting(a.node, p, now),
                a.fx + [Send(from, AppendResp(s.term, true, p.prevIndex + |p.entries|))])
  }

  /** The nodes other than the leader known to hold its log up to idx. */
  function Holders(s: Node, idx: nat): set<NodeId> {
    set p | p in Peers(s.id) && MatchFor(s, p) >= idx
  }

  /** Section 5.4.2: a slot may be counted committed when it carries the current term and a majority holds it. */
  predicate Countable(s: Node, idx: nat) {
    1 <= idx <= |s.log| && s.log[idx - 1].term == s.term && 1 + |Holders(s, idx)| >= MAJORITY
  }

  function CountableSlots(s: Node): set<nat> {
    set idx: nat | idx <= |s.log| && Countable(s, idx)
  }

  /** The highest of the slots in (floor, k], else floor. */
  function Highest(slots: set<nat>, floor: nat, k: nat): (r: nat)
    requires floor <= k
    ensures floor <= r <= k
    ensures r == floor || r in slots
    ensures forall i :: r < i <= k ==> i !in slots
    decreases k
  {
    if k == floor then floor else if k in slots then k else Highest(slots, floor, k - 1)
  }

  function AdvanceCommit(s: Node): (r: nat)
    ensures r == s.commitIndex || (r > s.commitIndex && r in CountableSlots(s))
    ensures forall i :: r < i <= |s.log| ==> i !in CountableSlots(s)
  {
    if s.commitIndex <= |s.log| then Highest(CountableSlots(s), s.commitIndex, |s.log|) else s.commitIndex
  }

  function Max(a: nat, b: nat): nat { if a < b then b else a }

  function Acked(s: Node, from: NodeId, matchIndex: nat): Node {
    var m := Max(MatchFor(s, from), matchIndex);
    s.(matched := s.matched[from := m], next := s.next[from := m + 1])
  }

  function Rejected(s: Node, from: NodeId): Node {
    s.(next := s.next[from := if NextFor(s, from) <= 2 then 1 else NextFor(s, from) - 1])
  }

  function OnAppendResp(s: Node, p: Msg, from: NodeId, now: int): Outcome
    requires p.AppendResp? && Valid(s) && Plausible(s, Message(from, p))
  {
    if s.role != Leader || p.term != s.term then Outcome(s, [])
    else if p.ok then
      var a := Acked(s, from, p.matchIndex);
      Outcome(ApplyAndSettle(a.(commitIndex := AdvanceCommit(a)), now), [])
    else
      var r := Rejected(s, from);
      Outcome(r, [Send(from, AppendFor(r, from))])
  }

  function OnMessage(s: Node, p: Msg, from: NodeId, now: int): Outcome
    requires Valid(s) && Plausible(s, Message(from, p))
  {
    match p
    case ReqVote(_, _, _) => OnReqVote(s, p, from)
    case Vote(_, _) => OnVote(s, p, from)
    case Append(_, _, _, _, _) => OnAppend(s, p, from, now)
    case AppendResp(_, _, _) => OnAppendResp(s, p, from, now)
  }

  /** A higher term is adopted before the message is looked at. */
  function Deliver(s: Node, p: Msg, from: NodeId, now: int): Outcome
    requires Valid(s) && Plausible(s, Message(from, p))
  {
    if p.term > s.term then
      var a := AdoptTerm(s, p.term);
      var o := OnMessage(a.node, p, from, now);
      Outcome(o.node, a.fx + o.fx)
    else OnMessage(s, p, from, now)
  }

  // ---------- clients ----------

  function Appended(s: Node, value: int, now: int): Node {
    var id := OpId(s.id, s.historyN + 1);
    s.(historyN := s.historyN + 1,
       log := s.log + [Entry(s.term, value, id)],
       history := s.history + [Row(id, true, Some(value), now, None, Pending, Some(|s.log| + 1))])
  }

  function OnClient(s: Node, op: Command, now: int): Outcome
    requires Valid(s)
  {
    var id := OpId(s.id, s.historyN + 1);
    match op
    case Write(value) =>
      if s.role != Leader
      then Outcome(s.(historyN := s.historyN + 1,
                      history := s.history + [Row(id, true, Some(value), now, Some(now), Redirect, None)]), [])
      else
        var w := Appended(s, value, now);
        Outcome(w, SendAppends(w, Peers(w.id)))
    case Read =>
      var row := if s.role != Leader then Row(id, false, None, now, Some(now), Redirect, None)
                 else Row(id, false, Some(s.kv), now, Some(now), Ok, None);
      Outcome(s.(historyN := s.historyN + 1, history := s.history + [row]), [])
  }

  function Reduce(s: Node, ev: Event, now: int): Outcome
    requires Valid(s) && Plausible(s, ev)
  {
    match ev
    case Init => ArmElection(s)
    case Message(from, msg) => Deliver(s, msg, from, now)
    case Fire(timer) => OnTimer(s, timer, now)
    case External(op) => Outcome(s, [Arm(ClientTimer(op))])
  }

  lemma AppendKeepsValid(s: Node, p: Msg, from: NodeId, now: int)
    requires p.Append? && Valid(s)
    ensures Valid(OnAppend(s, p, from, now).node)
  {
  }

  lemma RespKeepsValid(s: Node, p: Msg, from: NodeId, now: int)
    requires p.AppendResp? && Valid(s) && Plausible(s, Message(from, p))
    ensures Valid(OnAppendResp(s, p, from, now).node)
  {
    if s.role == Leader && p.term == s.term && p.ok {
      var a := Acked(s, from, p.matchIndex);
      assert Valid(a);
      assert Valid(ApplyAndSettle(a.(commitIndex := AdvanceCommit(a)), now));
    }
  }

  lemma VoteKeepsValid(s: Node, p: Msg, from: NodeId)
    requires p.Vote? && Valid(s)
    ensures Valid(OnVote(s, p, from).node)
  {
  }

  lemma MessageKeepsValid(s: Node, p: Msg, from: NodeId, now: int)
    requires Valid(s) && Plausible(s, Message(from, p))
    ensures Valid(OnMessage(s, p, from, now).node)
  {
    match p
    case ReqVote(_, _, _) =>
    case Vote(_, _) => VoteKeepsValid(s, p, from);
    case Append(_, _, _, _, _) => AppendKeepsValid(s, p, from, now);
    case AppendResp(_, _, _) => RespKeepsValid(s, p, from, now);
  }

  /** One event leaves the bookkeeping usable by the next: the reducer never indexes past its log. */
  lemma ReduceKeepsValid(s: Node, ev: Event, now: int)
    requires Valid(s) && Plausible(s, ev)
    ensures Valid(Reduce(s, ev, now).node)
  {
    match ev
    case Init =>
    case External(_) =>
    case Fire(_) =>
    case Message(from, p) =>
      if p.term > s.term {
        MessageKeepsValid(AdoptTerm(s, p.term).node, p, from, now);
      } else {
        MessageKeepsValid(s, p, from, now);
      }
  }
}
