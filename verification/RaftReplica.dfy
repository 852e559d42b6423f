/** The replica as the repository writes it: one object whose handlers assign its fields in place.
    Each method is the reducer of RaftReducer on the object's view, so the safety theorems are about it. */
module RaftReplica {
  import opened RaftReducer

  class Replica {
    const id: NodeId
    var role: Role
    var term: nat
    var votedFor: Option<NodeId>
    var log: seq<Entry>
    var commitIndex: nat
    var lastApplied: nat
    var kv: int
    var next: map<NodeId, nat>
    var matched: map<NodeId, nat>
    var votes: seq<NodeId>
    var electionNonce: nat
    var heartbeatNonce: nat
    var history: seq<Row>
    var historyN: nat
    var electionsWon: nat

    ghost function View(): Node
      reads this
    {
      Node(id, role, term, votedFor, log, commitIndex, lastApplied, kv, next, matched, votes,
           electionNonce, heartbeatNonce, history, historyN, electionsWon)
    }

    constructor (id: NodeId)
      ensures View() == InitNode(id)
    {
      this.id := id;
      role, term, votedFor, log := Follower, 0, None, [];
      commitIndex, lastApplied, kv := 0, 0, 0;
      next, matched, votes := map[], map[], [];
      electionNonce, heartbeatNonce, history, historyN, electionsWon := 0, 0, [], 0, 0;
    }

    method ArmElection() returns (fx: seq<Effect>)
      modifies this`electionNonce
      ensures Outcome(View(), fx) == RaftReducer.ArmElection(old(View()))
    {
      electionNonce := electionNonce + 1;
      fx := [Arm(ElectionTimer(electionNonce))];
    }

    method ArmHeartbeat() returns (fx: seq<Effect>)
      modifies this`heartbeatNonce
      ensures Outcome(View(), fx) == RaftReducer.ArmHeartbeat(old(View()))
    {
      heartbeatNonce := heartbeatNonce + 1;
      fx := [Arm(HeartbeatTimer(heartbeatNonce))];
    }

    method AdoptTerm(t: nat) returns (fx: seq<Effect>)
      modifies this
      ensures Outcome(View(), fx) == RaftReducer.AdoptTerm(old(View()), t)
    {
      term := t;
      role := Follower;
      votedFor := None;
      votes := [];
      fx := ArmElection();
    }

    method AppendFor(to: NodeId) returns (m: Msg)
      requires Sendable(View(), to)
      ensures m == RaftReducer.AppendFor(View(), to)
    {
      var nextIndex := if to in next then next[to] else |log| + 1;
      var prevIndex := nextIndex - 1;
      var prevTerm := if prevIndex > 0 then log[prevIndex - 1].term else 0;
      m := Append(term, prevIndex, prevTerm, log[prevIndex..], commitIndex);
    }

    method BroadcastAppends() returns (fx: seq<Effect>)
      requires forall p :: p in Peers(id) ==> Sendable(View(), p)
      ensures fx == SendAppends(View(), Peers(id))
    {
      var ps := Peers(id);
      fx := [];
      var i := |ps|;
      while i > 0
        invariant 0 <= i <= |ps|
        invariant fx == SendAppends(View(), ps[i..])
      {
        i := i - 1;
        var m := AppendFor(ps[i]);
        assert ps[i..][0] == ps[i] && ps[i..][1..] == ps[i + 1..];
        fx := [Send(ps[i], m)] + fx;
      }
    }

    /** Apply committed entries one by one, then settle the rows in place. */
    method ApplyAndSettle(now: int)
      requires commitIndex <= |log| || commitIndex <= lastApplied
      modifies this`lastApplied, this`kv, this`history
      ensures View() == RaftReducer.ApplyAndSettle(old(View()), now)
    {
      while lastApplied < commitIndex
        invariant old(lastApplied) <= lastApplied && history == old(history)
        invariant lastApplied == old(lastApplied) || lastApplied <= commitIndex <= |log|
        invariant kv == if lastApplied == old(lastApplied) then old(kv) else log[lastApplied - 1].value
      {
        lastApplied := lastApplied + 1;
        kv := log[lastApplied - 1].value;
      }
      ghost var a := View();
      assert a == Apply(old(View()));
      var i := 0;
      while i < |history|
        invariant 0 <= i <= |history| == |old(history)|
        invariant View() == a.(history := history)
        invariant forall j :: 0 <= j < i ==> history[j] == SettleRow(old(history)[j], log, commitIndex, now)
        invariant forall j :: i <= j < |history| ==> history[j] == old(history)[j]
      {
        var row := history[i];
        if row.isWrite && row.outcome == Pending && row.index.Some? {
          var k := row.index.value;
          if 1 <= k <= |log| && log[k - 1].tag == row.id {
            if commitIndex >= k {
              history := history[i := row.(outcome := Ok, respondedAt := Some(now))];
            }
          } else if commitIndex >= k || !(1 <= k <= |log|) {
            history := history[i := row.(outcome := Lost, respondedAt := Some(now))];
          }
        }
        i := i + 1;
      }
      assert history == SettleRows(old(history), log, commitIndex, now);
    }

    method BecomeLeader() returns (fx: seq<Effect>)
      modifies this
      ensures Outcome(View(), fx) == RaftReducer.BecomeLeader(old(View()))
    {
      Lead(Peers(id));
      LeadingReaches(old(View()), View());
      fx := AssertAuthority();
    }

    method Lead(ps: seq<NodeId>)
      modifies this`role, this`electionsWon, this`next, this`matched
      ensures View() == LeadingOver(old(View()), ps)
    {
      role := Leader;
      electionsWon := electionsWon + 1;
      ResetPeers(ps);
    }

    /** Appends to every peer, and the next heartbeat. */
    method AssertAuthority() returns (fx: seq<Effect>)
      requires forall p :: p in Peers(id) ==> Sendable(View(), p)
      modifies this`heartbeatNonce
      ensures Outcome(View(), fx) == Outcome(RaftReducer.ArmHeartbeat(old(View())).node,
                                             SendAppends(old(View()), Peers(id)) + RaftReducer.ArmHeartbeat(old(View())).fx)
    {
      var sends := BroadcastAppends();
      var beat := ArmHeartbeat();
      fx := sends + beat;
    }

    /** A new leader presumes every peer is up to date and has acknowledged nothing. */
    method ResetPeers(ps: seq<NodeId>)
      modifies this`next, this`matched
      ensures next == Uniform(ps, |log| + 1) && matched == Uniform(ps, 0)
    {
      next := map[];
      matched := map[];
      for i := 0 to |ps|
        invariant next == Uniform(ps[..i], |log| + 1) && matched == Uniform(ps[..i], 0)
      {
        assert ps[..i + 1][..i] == ps[..i];
        next := next[ps[i] := |log| + 1];
        matched := matched[ps[i] := 0];
      }
      assert ps[..|ps|] == ps;
    }

    method OnTimer(t: Timer, now: int) returns (fx: seq<Effect>)
      requires Valid(View())
      modifies this
      ensures Outcome(View(), fx) == RaftReducer.OnTimer(old(View()), t, now)
    {
      match t
      case ClientTimer(op) =>
        fx := OnClient(op, now);
      case ElectionTimer(nonce) =>
        if nonce != electionNonce || role == Leader { return []; }
        fx := StartElection();
      case HeartbeatTimer(nonce) =>
        if nonce != heartbeatNonce || role != Leader { return []; }
        fx := AssertAuthority();
    }

    method StartElection() returns (fx: seq<Effect>)
      modifies this
      ensures Outcome(View(), fx) == RaftReducer.StartElection(old(View()))
    {
      role := Candidate;
      term := term + 1;
      votedFor := Some(id);
      votes := [id];
      var armed := ArmElection();
      var request := ReqVote(term, |log|, LastTerm(log));
      var ps := Peers(id);
      var sends: seq<Effect> := [];
      var i := |ps|;
      while i > 0
        invariant 0 <= i <= |ps|
        invariant sends == SendAll(ps[i..], request)
      {
        i := i - 1;
        assert ps[i..][0] == ps[i] && ps[i..][1..] == ps[i + 1..];
        sends := [Send(ps[i], request)] + sends;
      }
      fx := armed + sends;
    }

    method OnReqVote(p: Msg, from: NodeId) returns (fx: seq<Effect>)
      requires p.ReqVote?
      modifies this`votedFor, this`electionNonce
      ensures Outcome(View(), fx) == RaftReducer.OnReqVote(old(View()), p, from)
    {
      var granted := false;
      fx := [];
      if p.term == term && (votedFor == None || votedFor == Some(from)) {
        if UpToDate(p.lastLogTerm, p.lastLogIndex, log) {
          granted := true;
          votedFor := Some(from);
          fx := ArmElection();
        }
      }
      fx := fx + [Send(from, Vote(term, granted))];
    }

    method OnVote(p: Msg, from: NodeId) returns (fx: seq<Effect>)
      requires p.Vote?
      modifies this
      ensures Outcome(View(), fx) == RaftReducer.OnVote(old(View()), p, from)
    {
      fx := [];
      if role == Candidate && p.term == term && p.granted && from !in votes {
        votes := votes + [from];
        if |votes| >= MAJORITY {
          fx := BecomeLeader();
        }
      }
    }

    /** Skip what the log already holds; cut it only at the first conflict. */
    method Merge(prevIndex: nat, entries: seq<Entry>)
      requires prevIndex <= |log|
      modifies this`log
      ensures log == MergeLog(old(log), prevIndex, entries)
    {
      var i := 0;
      while i < |entries| && |log| > prevIndex + i && log[prevIndex + i].term == entries[i].term
        invariant 0 <= i <= |entries|
        invariant i > 0 ==> prevIndex + i <= |log|
        invariant Matching(log, prevIndex, entries, 0) == Matching(log, prevIndex, entries, i)
      {
        i := i + 1;
      }
      if i < |entries| {
        log := log[..prevIndex + i] + entries[i..];
      }
    }

    method OnAppend(p: Msg, from: NodeId, now: int) returns (fx: seq<Effect>)
      requires p.Append? && Valid(View())
      modifies this
      ensures Outcome(View(), fx) == RaftReducer.OnAppend(old(View()), p, from, now)
    {
      if p.term < term {
        return [Send(from, AppendResp(term, false, 0))];
      }
      role := Follower;
      fx := ArmElection();
      if !PrevOk(log, p.prevIndex, p.prevTerm) {
        fx := fx + [Send(from, AppendResp(term, false, 0))];
        return;
      }
      Accept(p, now);
      fx := fx + [Send(from, AppendResp(term, true, p.prevIndex + |p.entries|))];
    }

    /** Take over the entries and whatever of them the leader has committed. */
    method Accept(p: Msg, now: int)
      requires p.Append? && Valid(View()) && p.prevIndex <= |log|
      modifies this`log, this`commitIndex, this`lastApplied, this`kv, this`history
      ensures View() == Accepting(old(View()), p, now)
    {
      Merge(p.prevIndex, p.entries);
      if p.leaderCommit > commitIndex {
        commitIndex := Min(p.leaderCommit, |log|);
      }
      ApplyAndSettle(now);
    }

    /** The leader and the peers known to hold slot idx. */
    method Replicas(idx: nat) returns (n: nat)
      ensures n == 1 + |Holders(View(), idx)|
    {
      var ps := Peers(id);
      PeersDistinct(id);
      n := 1;
      ghost var seen: set<NodeId> := {};
      for i := 0 to |ps|
        invariant n == 1 + |seen|
        invariant forall p :: p in seen <==> p in ps[..i] && MatchFor(View(), p) >= idx
      {
        if (if ps[i] in matched then matched[ps[i]] else 0) >= idx {
          n := n + 1;
          seen := seen + {ps[i]};
        }
      }
      assert seen == Holders(View(), idx);
    }

    /** Whether slot idx is countable; raising the commit index along the way does not change that. */
    method Counts(idx: nat, ghost s: Node) returns (b: bool)
      requires 1 <= idx <= |log| && View() == s.(commitIndex := commitIndex)
      ensures b <==> idx in CountableSlots(s)
    {
      b := false;
      if log[idx - 1].term == term {
        var replicas := Replicas(idx);
        b := replicas >= MAJORITY;
      }
      SameCountable(s, commitIndex, idx);
    }

    method AdvanceCommit()
      modifies this`commitIndex
      ensures View() == old(View()).(commitIndex := RaftReducer.AdvanceCommit(old(View())))
    {
      if commitIndex <= |log| {
        ScanSlots(View());
      }
    }

    /** Count replicas slot by slot; only a slot of the current term moves the commit index. */
    method ScanSlots(ghost s: Node)
      requires s == View() && commitIndex <= |log|
      modifies this`commitIndex
      ensures commitIndex == Highest(CountableSlots(s), s.commitIndex, |log|)
    {
      var idx := commitIndex + 1;
      while idx <= |log|
        invariant s.commitIndex < idx <= |log| + 1
        invariant View() == s.(commitIndex := commitIndex)
        invariant commitIndex == Highest(CountableSlots(s), s.commitIndex, idx - 1)
      {
        TrySlot(idx, s, s.commitIndex, CountableSlots(s));
        idx := idx + 1;
      }
    }

    method TrySlot(idx: nat, ghost s: Node, ghost floor: nat, ghost slots: set<nat>)
      requires floor < idx <= |log| && View() == s.(commitIndex := commitIndex)
      requires slots == CountableSlots(s) && commitIndex == Highest(slots, floor, idx - 1)
      modifies this`commitIndex
      ensures commitIndex == Highest(slots, floor, idx)
    {
      var counts := Counts(idx, s);
      if counts { commitIndex := idx; }
    }

    method OnAppendResp(p: Msg, from: NodeId, now: int) returns (fx: seq<Effect>)
      requires p.AppendResp? && Valid(View()) && Plausible(View(), Message(from, p))
      modifies this
      ensures Outcome(View(), fx) == RaftReducer.OnAppendResp(old(View()), p, from, now)
    {
      fx := [];
      if role != Leader || p.term != term { return; }
      if p.ok {
        RecordAck(from, p.matchIndex);
        AdvanceCommit();
        ApplyAndSettle(now);
      } else {
        fx := BackUp(from);
      }
    }

    method RecordAck(from: NodeId, matchIndex: nat)
      modifies this`next, this`matched
      ensures View() == Acked(old(View()), from, matchIndex)
    {
      var m := Max(if from in matched then matched[from] else 0, matchIndex);
      matched := matched[from := m];
      next := next[from := m + 1];
    }

    /** A refused append: step this peer's next index back by one and send the longer suffix. */
    method BackUp(from: NodeId) returns (fx: seq<Effect>)
      requires Sendable(Rejected(View(), from), from)
      modifies this`next
      ensures Outcome(View(), fx) == Outcome(Rejected(old(View()), from), [Send(from, RaftReducer.AppendFor(Rejected(old(View()), from), from))])
    {
      var n := if from in next then next[from] else |log| + 1;
      next := next[from := if n <= 2 then 1 else n - 1];
      var m := AppendFor(from);
      fx := [Send(from, m)];
    }

    method OnMessage(p: Msg, from: NodeId, now: int) returns (fx: seq<Effect>)
      requires Valid(View()) && Plausible(View(), Message(from, p))
      modifies this
      ensures Outcome(View(), fx) == Deliver(old(View()), p, from, now)
    {
      fx := [];
      if p.term > term {
        fx := AdoptTerm(p.term);
      }
      ghost var adopted := View();
      var out: seq<Effect>;
      match p {
        case ReqVote(_, _, _) => out := OnReqVote(p, from);
        case Vote(_, _) => out := OnVote(p, from);
        case Append(_, _, _, _, _) => out := OnAppend(p, from, now);
        case AppendResp(_, _, _) => out := OnAppendResp(p, from, now);
      }
      assert Outcome(View(), out) == RaftReducer.OnMessage(adopted, p, from, now);
      assert fx == [] ==> fx + out == out;
      fx := fx + out;
    }

    method Note(row: Row)
      modifies this`history
      ensures View() == old(View()).(history := old(history) + [row])
    {
      history := history + [row];
    }

    /** The leader's half of a client write: into the log and out to the peers. */
    method Propose(value: int, now: int) returns (fx: seq<Effect>)
      requires Valid(View()) && role == Leader
      modifies this`log, this`history, this`historyN
      ensures Outcome(View(), fx) == RaftReducer.OnClient(old(View()), Write(value), now)
    {
      historyN := historyN + 1;
      var opId := OpId(id, historyN);
      log := log + [Entry(term, value, opId)];
      Note(Row(opId, true, Some(value), now, None, Pending, Some(|log|)));
      ghost var w := View();
      assert w == Appended(old(View()), value, now);
      fx := BroadcastAppends();
    }

    method OnClient(op: Command, now: int) returns (fx: seq<Effect>)
      requires Valid(View())
      modifies this
      ensures Outcome(View(), fx) == RaftReducer.OnClient(old(View()), op, now)
    {
      fx := [];
      match op
      case Write(value) =>
        if role == Leader {
          fx := Propose(value, now);
        } else {
          historyN := historyN + 1;
          Note(Row(OpId(id, historyN), true, Some(value), now, Some(now), Redirect, None));
        }
      case Read =>
        historyN := historyN + 1;
        var redirect := role != Leader;
        Note(Row(OpId(id, historyN), false, if redirect then None else Some(kv), now, Some(now),
                 if redirect then Redirect else Ok, None));
    }

    /** One event. The object stays usable: the reducer's validity is kept. */
    method Reduce(ev: Event, now: int) returns (fx: seq<Effect>)
      requires Valid(View()) && Plausible(View(), ev)
      modifies this
      ensures Outcome(View(), fx) == RaftReducer.Reduce(old(View()), ev, now)
      ensures Valid(View())
    {
      ReduceKeepsValid(View(), ev, now);
      match ev
      case Init => fx := ArmElection();
      case Message(from, msg) => fx := OnMessage(msg, from, now);
      case Fire(timer) => fx := OnTimer(timer, now);
      case External(op) => fx := [Arm(ClientTimer(op))];
    }
  }

  lemma LeadingReaches(s: Node, l: Node)
    requires l == Leading(s)
    ensures l.id == s.id && forall p :: p in Peers(l.id) ==> Sendable(l, p)
    ensures BecomeLeader(s) == Outcome(ArmHeartbeat(l).node, SendAppends(l, Peers(l.id)) + ArmHeartbeat(l).fx)
  {
  }

  lemma SameCountable(s: Node, commitIndex: nat, idx: nat)
    ensures Countable(s.(commitIndex := commitIndex), idx) <==> idx in CountableSlots(s)
  {
    var c := s.(commitIndex := commitIndex);
    assert forall p :: MatchFor(c, p) == MatchFor(s, p);
    assert Holders(c, idx) == Holders(s, idx);
  }

  lemma PeersDistinct(self: NodeId)
    ensures forall i, j :: 0 <= i < j < |Peers(self)| ==> Peers(self)[i] != Peers(self)[j]
  {
    WithoutDistinct(RAFT_NODES, self);
  }

  lemma WithoutDistinct(ns: seq<NodeId>, self: NodeId)
    requires forall i, j :: 0 <= i < j < |ns| ==> ns[i] != ns[j]
    ensures forall i, j :: 0 <= i < j < |Without(ns, self)| ==> Without(ns, self)[i] != Without(ns, self)[j]
  {
    if ns != [] {
      WithoutDistinct(ns[1..], self);
      assert ns[0] !in ns[1..];
    }
  }
}
