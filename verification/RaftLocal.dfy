/** The part of the Raft invariant about one node and one message, and its preservation by every handler. */
module RaftLocal {
  import opened RaftReducer
  import opened RaftHistory
  import opened RaftGrowth

  datatype Packet = Packet(src: NodeId, dst: NodeId, msg: Msg)

  /** The vote record of a node is its ballots: at most one per term, none beyond its own term. */
  ghost predicate VoteOk(h: History, n: Node) {
    && (forall t :: (n.id, t) in h.ballots ==> t <= n.term)
    && (n.votedFor == if (n.id, n.term) in h.ballots then Some(h.ballots[(n.id, n.term)].cand) else None)
  }

  ghost predicate DistinctVotes(votes: seq<NodeId>) {
    forall i, j :: 0 <= i < j < |votes| ==> votes[i] != votes[j]
  }

  ghost predicate CandidateOk(h: History, n: Node) {
    n.role == Candidate ==>
      && (n.id, n.term) in h.ballots
      && h.ballots[(n.id, n.term)] == Ballot(n.id, n.log)
      && n.id in n.votes
      && DistinctVotes(n.votes)
      && (forall v :: v in n.votes ==> (v, n.term) in h.ballots && h.ballots[(v, n.term)].cand == n.id)
      && (n.term in h.reigns ==> h.reigns[n.term].leader != n.id)
  }

  ghost predicate LeaderOk(h: History, n: Node) {
    n.role == Leader ==>
      && n.term in h.reigns
      && h.reigns[n.term].leader == n.id
      && h.reigns[n.term].log == n.log
      && (forall p :: p in n.matched && n.matched[p] > 0 ==> Ack(p, n.term, n.matched[p]) in h.acks)
  }

  /** The register is the value of the last committed entry. */
  ghost predicate KvOk(n: Node) {
    && n.lastApplied == n.commitIndex <= |n.log|
    && n.kv == if n.commitIndex == 0 then 0 else n.log[n.commitIndex - 1].value
  }

  /** Where a node's log, commit index and term stand in the history. */
  ghost predicate Placed(h: History, n: Node) {
    && InFamily(h, n.log, n.term)
    && CommittedPrefix(h, n.log, n.commitIndex, n.term)
    && KvOk(n)
    && (forall t :: t in h.reigns && h.reigns[t].leader == n.id ==> t <= n.term)
    && (forall a :: a in h.acks && a.node == n.id ==> a.term <= n.term)
    && Keeps(h, n.id, n.log, n.term + 1, n.term)
  }

  ghost predicate NodeOk(h: History, n: Node) {
    && Placed(h, n)
    && VoteOk(h, n)
    && CandidateOk(h, n)
    && LeaderOk(h, n)
    && Valid(n)
  }

  /** What a message in the network vouches for. An append ships its leader's whole suffix of the time. */
  ghost predicate MsgOk(h: History, p: Packet) {
    p.src != p.dst &&
    match p.msg
    case ReqVote(t, length, last) =>
      (p.src, t) in h.ballots && h.ballots[(p.src, t)].cand == p.src
      && length == |h.ballots[(p.src, t)].log| && last == LastTerm(h.ballots[(p.src, t)].log)
    case Vote(t, granted) =>
      granted ==> (p.src, t) in h.ballots && h.ballots[(p.src, t)].cand == p.dst
    case Append(t, prev, prevTerm, entries, commit) =>
      && t in h.reigns && h.reigns[t].leader == p.src
      && prev + |entries| <= |h.reigns[t].log|
      && entries == h.reigns[t].log[prev..prev + |entries|]
      && (prev > 0 ==> prevTerm == h.reigns[t].log[prev - 1].term)
      && commit <= prev + |entries|
      && CommittedPrefix(h, h.reigns[t].log, commit, t)
    case AppendResp(t, ok, m) =>
      ok ==> Ack(p.src, t, m) in h.acks
  }

  ghost predicate EffectOk(h: History, id: NodeId, e: Effect) {
    e.Send? ==> MsgOk(h, Packet(id, e.to, e.msg))
  }

  ghost predicate FxOk(h: History, id: NodeId, fx: seq<Effect>) {
    forall e :: e in fx ==> EffectOk(h, id, e)
  }

  /** A reign changes only by becoming the acting node's log. */
  ghost predicate ReignsFrom(h: History, h2: History, log: seq<Entry>) {
    forall t :: t in h2.reigns && !(t in h.reigns && h2.reigns[t].log == h.reigns[t].log) ==> h2.reigns[t].log == log
  }

  /** Everything one handler owes: it turned node s and history h into o.node and h2. */
  ghost predicate StepOk(h: History, s: Node, o: Outcome, h2: History) {
    && Extends(h, h2, s.id)
    && ReignsFrom(h, h2, o.node.log)
    && HistoryOk(h2)
    && o.node.id == s.id
    && NodeOk(h2, o.node)
    && FxOk(h2, s.id, o.fx)
  }

  // ---------- other nodes and old messages are undisturbed ----------

  lemma OthersKeep(h: History, h2: History, id: NodeId, n: Node)
    requires HistoryOk(h) && Extends(h, h2, id) && NodeOk(h, n) && n.id != id
    ensures NodeOk(h2, n)
  {
    FamilyGrows(h, h2, id, n.log, n.term);
    PrefixGrows(h, h2, id, n.log, n.commitIndex, n.term);
    KeepsGrows(h, h2, id, n.id, n.log, n.term + 1, n.term);
    forall t | t in h2.reigns && h2.reigns[t].leader == n.id ensures t <= n.term {
      assert t in h.reigns && ReignGrows(h.reigns[t], h2.reigns[t], id);
    }
    forall t | (n.id, t) in h2.ballots ensures t <= n.term {
      assert (n.id, t) in h.ballots;
    }
    if n.role == Candidate {
      assert n.term in h2.reigns ==> h2.reigns[n.term].leader != n.id;
    }
    if n.role == Leader {
      assert ReignGrows(h.reigns[n.term], h2.reigns[n.term], id);
    }
  }

  lemma MessageKeeps(h: History, h2: History, id: NodeId, p: Packet)
    requires Extends(h, h2, id) && MsgOk(h, p)
    ensures MsgOk(h2, p)
  {
    match p.msg
    case ReqVote(_, _, _) =>
    case Vote(_, _) =>
    case AppendResp(_, _, _) =>
    case Append(t, prev, prevTerm, entries, commit) =>
      var r, r2 := h.reigns[t].log, h2.reigns[t].log;
      assert ReignGrows(h.reigns[t], h2.reigns[t], id);
      assert r[prev..prev + |entries|] == r2[prev..prev + |entries|];
      PrefixGrows(h, h2, id, r, commit, t);
      PrefixOfSame(h2, r, r2, commit, t);
  }

  /** A committed prefix is a fact about its entries only. */
  lemma PrefixOfSame(h: History, a: seq<Entry>, b: seq<Entry>, k: nat, top: nat)
    requires CommittedPrefix(h, a, k, top) && Agree(a, b, k)
    ensures CommittedPrefix(h, b, k, top)
  {
    if k > 0 {
      var t: nat, idx: nat :| t <= top && CommittedAt(h, a, k, t, idx);
      assert CommittedAt(h, b, k, t, idx);
    }
  }

  /** A higher ceiling changes nothing for a log, a committed prefix, or what was kept. */
  lemma CeilingRises(h: History, s: Node, term: nat)
    requires NodeOk(h, s) && term >= s.term
    ensures InFamily(h, s.log, term)
    ensures CommittedPrefix(h, s.log, s.commitIndex, term)
    ensures Keeps(h, s.id, s.log, term + 1, term)
  {
    forall a, k: nat | a in h.acks && a.node == s.id && k <= a.index
      ensures Holds(h, s.log, a.term, k, term)
    {
      assert Holds(h, s.log, a.term, k, s.term);
    }
  }

  /** With no new acknowledgement, the acting node's own log is as well placed as before. */
  lemma SelfGrows(h: History, h2: History, s: Node)
    requires HistoryOk(h) && Extends(h, h2, s.id) && Placed(h, s) && h2.acks == h.acks
    requires forall t :: t in h2.reigns && t !in h.reigns ==> t <= s.term
    ensures Placed(h2, s)
  {
    forall t | t in h2.reigns && h2.reigns[t].leader == s.id ensures t <= s.term {
      if t in h.reigns { assert ReignGrows(h.reigns[t], h2.reigns[t], s.id); }
    }
    FamilyGrows(h, h2, s.id, s.log, s.term);
    PrefixGrows(h, h2, s.id, s.log, s.commitIndex, s.term);
    KeepsGrows(h, h2, s.id, s.id, s.log, s.term + 1, s.term);
  }

  /** Nonces, rows and counters carry no safety. */
  ghost predicate SameCore(a: Node, b: Node) {
    && a.id == b.id && a.role == b.role && a.term == b.term && a.votedFor == b.votedFor && a.log == b.log
    && a.commitIndex == b.commitIndex && a.lastApplied == b.lastApplied && a.kv == b.kv
    && a.next == b.next && a.matched == b.matched && a.votes == b.votes
  }

  lemma PlacedSame(h: History, a: Node, b: Node)
    requires Placed(h, a)
    requires a.id == b.id && a.term == b.term && a.log == b.log
    requires a.commitIndex == b.commitIndex && a.lastApplied == b.lastApplied && a.kv == b.kv
    ensures Placed(h, b)
  {
  }

  lemma CoreOk(h: History, a: Node, b: Node)
    requires NodeOk(h, a) && SameCore(a, b)
    ensures NodeOk(h, b)
  {
  }

  // ---------- terms and elections ----------

  lemma AdoptOk(h: History, s: Node, term: nat)
    requires HistoryOk(h) && NodeOk(h, s) && term > s.term
    ensures StepOk(h, s, AdoptTerm(s, term), h)
  {
    CeilingRises(h, s, term);
    ExtendsRefl(h, s.id);
  }

  /** Nothing yet belongs to a term just adopted. */
  lemma AdoptedIsFresh(h: History, s: Node, term: nat)
    requires NodeOk(h, s) && term > s.term
    ensures var a := AdoptTerm(s, term).node;
            && a.id == s.id && a.term == term && a.votedFor == None && a.role == Follower
            && (forall i :: 0 <= i < |a.log| ==> a.log[i].term < a.term)
            && (forall t :: t in h.reigns && h.reigns[t].leader == a.id ==> t < a.term)
  {
  }

  /** Casting a first ballot in the current term. */
  ghost function Cast(h: History, s: Node, cand: NodeId): History {
    if (s.id, s.term) in h.ballots then h
    else h.(ballots := h.ballots[(s.id, s.term) := Ballot(cand, s.log)])
  }

  lemma CastOk(h: History, s: Node, cand: NodeId)
    requires HistoryOk(h) && NodeOk(h, s)
    requires s.votedFor == None || s.votedFor == Some(cand)
    requires cand != s.id ==>
               && (cand, s.term) in h.ballots && h.ballots[(cand, s.term)].cand == cand
               && UpToDate(LastTerm(h.ballots[(cand, s.term)].log), |h.ballots[(cand, s.term)].log|, s.log)
    requires cand == s.id ==> forall i :: 0 <= i < |s.log| ==> s.log[i].term < s.term
    ensures var h2 := Cast(h, s, cand);
            Extends(h, h2, s.id) && HistoryOk(h2) && (s.id, s.term) in h2.ballots && h2.ballots[(s.id, s.term)].cand == cand
  {
    var h2 := Cast(h, s, cand);
    if h2 != h {
      KeepsGrows(h, h2, s.id, s.id, s.log, s.term + 1, s.term);
      FamilyGrows(h, h2, s.id, s.log, s.term);
      assert BallotOk(h2, s.id, s.term);
      HistoryGrows(h, h2, s.id);
    }
  }

  /** The node a step leaves need only match, in what carries safety, one known to be in order. */
  lemma Conclude(h: History, s: Node, core: Node, o: Outcome, h2: History)
    requires Extends(h, h2, s.id) && HistoryOk(h2) && ReignsFrom(h, h2, core.log)
    requires NodeOk(h2, core) && SameCore(core, o.node) && core.id == s.id
    requires FxOk(h2, s.id, o.fx)
    ensures StepOk(h, s, o, h2)
  {
    CoreOk(h2, core, o.node);
  }

  lemma RequestsOk(h: History, c: Node)
    requires (c.id, c.term) in h.ballots && h.ballots[(c.id, c.term)] == Ballot(c.id, c.log)
    ensures FxOk(h, c.id, SendAll(Peers(c.id), ReqVote(c.term, |c.log|, LastTerm(c.log))))
  {
  }

  /** Standing for the term already adopted. */
  ghost function Stand(s: Node): Outcome {
    Outcome(s.(role := Candidate, votedFor := Some(s.id), votes := [s.id]),
            SendAll(Peers(s.id), ReqVote(s.term, |s.log|, LastTerm(s.log))))
  }

  lemma StandNodeOk(h: History, s: Node)
    requires Placed(h, s) && VoteOk(h, s)
    requires (s.id, s.term) in h.ballots && h.ballots[(s.id, s.term)] == Ballot(s.id, s.log)
    requires forall t :: t in h.reigns && h.reigns[t].leader == s.id ==> t < s.term
    ensures NodeOk(h, Stand(s).node)
  {
    var c := Stand(s).node;
    PlacedSame(h, s, c);
    assert VoteOk(h, c);
    assert CandidateOk(h, c);
  }

  lemma StandOk(h: History, s: Node)
    requires HistoryOk(h) && NodeOk(h, s) && s.votedFor == None && s.role == Follower
    requires forall i :: 0 <= i < |s.log| ==> s.log[i].term < s.term
    requires forall t :: t in h.reigns && h.reigns[t].leader == s.id ==> t < s.term
    ensures StepOk(h, s, Stand(s), Cast(h, s, s.id))
  {
    CastOk(h, s, s.id);
    var h2 := Cast(h, s, s.id);
    SelfGrows(h, h2, s);
    var v := s.(votedFor := Some(s.id));
    PlacedSame(h2, s, v);
    StandNodeOk(h2, v);
    RequestsOk(h2, s);
    assert Stand(v) == Stand(s);
  }

  /** A step that leaves the history alone and hands over to a second one on the same node. */
  lemma Chain(h: History, s: Node, o: Outcome, p: Outcome, h2: History)
    requires StepOk(h, s, o, h) && StepOk(h, o.node, p, h2)
    ensures StepOk(h, s, Outcome(p.node, o.fx + p.fx), h2)
  {
    forall e | e in o.fx ensures EffectOk(h2, s.id, e) {
      if e.Send? {
        assert EffectOk(h, s.id, e);
        MessageKeeps(h, h2, s.id, Packet(s.id, e.to, e.msg));
      }
    }
  }

  lemma AdoptThenStand(h: History, s: Node, a: Outcome)
    requires HistoryOk(h) && StepOk(h, s, a, h)
    requires a.node.id == s.id && a.node.votedFor == None && a.node.role == Follower
    requires forall i :: 0 <= i < |a.node.log| ==> a.node.log[i].term < a.node.term
    requires forall t :: t in h.reigns && h.reigns[t].leader == s.id ==> t < a.node.term
    ensures StepOk(h, s, Outcome(Stand(a.node).node, a.fx + Stand(a.node).fx), Cast(h, a.node, s.id))
  {
    StandOk(h, a.node);
    Chain(h, s, a, Stand(a.node), Cast(h, a.node, s.id));
  }

  lemma ElectionOk(h: History, s: Node)
    requires HistoryOk(h) && NodeOk(h, s)
    ensures StepOk(h, s, StartElection(s), Cast(h, AdoptTerm(s, s.term + 1).node, s.id))
  {
    var a := AdoptTerm(s, s.term + 1);
    AdoptOk(h, s, s.term + 1);
    AdoptedIsFresh(h, s, s.term + 1);
    AdoptThenStand(h, s, a);
    StandsAfterAdopting(s);
  }

  lemma StandsAfterAdopting(s: Node)
    ensures var a := AdoptTerm(s, s.term + 1);
            StartElection(s) == Outcome(Stand(a.node).node, a.fx + Stand(a.node).fx)
  {
  }

  lemma GrantOk(h: History, s: Node, from: NodeId)
    requires HistoryOk(h) && NodeOk(h, s)
    requires s.votedFor == None || s.votedFor == Some(from)
    requires from != s.id && (from, s.term) in h.ballots && h.ballots[(from, s.term)].cand == from
    requires UpToDate(LastTerm(h.ballots[(from, s.term)].log), |h.ballots[(from, s.term)].log|, s.log)
    ensures var h2 := Cast(h, s, from);
            Extends(h, h2, s.id) && HistoryOk(h2) && NodeOk(h2, s.(votedFor := Some(from)))
            && (s.id, s.term) in h2.ballots && h2.ballots[(s.id, s.term)].cand == from
  {
    CastOk(h, s, from);
    var h2 := Cast(h, s, from);
    SelfGrows(h, h2, s);
    var v := s.(votedFor := Some(from));
    assert VoteOk(h2, v);
    assert CandidateOk(h2, v);
    assert LeaderOk(h2, v);
  }

  lemma ReqVoteOk(h: History, s: Node, p: Msg, from: NodeId) returns (h2: History)
    requires HistoryOk(h) && NodeOk(h, s)
    requires p.ReqVote? && MsgOk(h, Packet(from, s.id, p))
    ensures StepOk(h, s, OnReqVote(s, p, from), h2)
  {
    var o := OnReqVote(s, p, from);
    if p.term == s.term && (s.votedFor == None || s.votedFor == Some(from)) && UpToDate(p.lastLogTerm, p.lastLogIndex, s.log) {
      h2 := Cast(h, s, from);
      GrantOk(h, s, from);
      Conclude(h, s, s.(votedFor := Some(from)), o, h2);
    } else {
      h2 := h;
    }
  }

  // ---------- winning ----------

  lemma SetOfVotes(votes: seq<NodeId>) returns (q: set<NodeId>)
    requires DistinctVotes(votes)
    ensures |q| == |votes| && forall v :: v in q <==> v in votes
  {
    q := {};
    for i := 0 to |votes|
      invariant |q| == i && forall v :: v in q <==> v in votes[..i]
    {
      q := q + {votes[i]};
    }
  }

  ghost function Crown(h: History, s: Node, electors: set<NodeId>): History {
    h.(reigns := h.reigns[s.term := Reign(s.id, electors, s.log, s.log)])
  }

  /** A candidate with a majority of ballots opens a new reign: no earlier leader of the term exists. */
  lemma CrownOk(h: History, s: Node, electors: set<NodeId>)
    requires HistoryOk(h) && NodeOk(h, s) && s.role == Candidate
    requires |electors| >= MAJORITY && forall v :: v in electors <==> v in s.votes
    ensures s.term !in h.reigns
    ensures Extends(h, Crown(h, s, electors), s.id) && HistoryOk(Crown(h, s, electors))
  {
    if s.term in h.reigns { OneLeader(h, s.term, s.id, electors); }
    var h2 := Crown(h, s, electors);
    assert BallotOk(h, s.id, s.term);
    FamilyGrows(h, h2, s.id, s.log, s.term);
    forall v | v in electors
      ensures (v, s.term) in h2.ballots && h2.ballots[(v, s.term)].cand == s.id
      ensures Keeps(h2, v, h2.ballots[(v, s.term)].log, s.term, s.term - 1)
    {
      var b := h.ballots[(v, s.term)].log;
      assert BallotOk(h, v, s.term);
      forall a, k: nat {:trigger Holds(h2, b, a.term, k, s.term - 1)} | a in h.acks && a.node == v && a.term < s.term && k <= a.index
        ensures Holds(h2, b, a.term, k, s.term - 1)
      {
        assert Holds(h, b, a.term, k, s.term) && AckOk(h, a);
        assert Holds(h, b, a.term, k, s.term - 1);
        HoldsGrows(h, h2, s.id, b, a.term, k, s.term - 1);
      }
    }
    assert ReignOk(h2, s.term);
    HistoryGrows(h, h2, s.id);
  }

  /** What a leader sends is always the rest of its own log. */
  lemma AppendsOk(h: History, s: Node, ps: seq<NodeId>)
    requires HistoryOk(h) && NodeOk(h, s) && s.role == Leader
    requires forall p :: p in ps ==> Sendable(s, p) && p != s.id
    ensures FxOk(h, s.id, SendAppends(s, ps))
  {
    forall e | e in SendAppends(s, ps) ensures EffectOk(h, s.id, e) {
      AppendForOk(h, s, e.to);
    }
  }

  lemma AppendForOk(h: History, s: Node, to: NodeId)
    requires HistoryOk(h) && NodeOk(h, s) && s.role == Leader && Sendable(s, to) && to != s.id
    ensures MsgOk(h, Packet(s.id, to, AppendFor(s, to)))
  {
    var prev := NextFor(s, to) - 1;
    assert s.log[prev..] == s.log[prev..prev + |s.log[prev..]|];
  }

  lemma VoteCountOk(h: History, s: Node, p: Msg, from: NodeId) returns (h2: History)
    requires HistoryOk(h) && NodeOk(h, s)
    requires p.Vote? && MsgOk(h, Packet(from, s.id, p))
    ensures StepOk(h, s, OnVote(s, p, from), h2)
  {
    h2 := h;
    if s.role == Candidate && p.term == s.term && p.granted && from !in s.votes {
      var v := s.(votes := s.votes + [from]);
      assert NodeOk(h, v);
      if |v.votes| >= MAJORITY {
        var electors := SetOfVotes(v.votes);
        CrownOk(h, v, electors);
        h2 := Crown(h, v, electors);
        LeadingOk(h, v, electors, h2);
      }
    }
  }

  lemma LeadingNodeOk(h: History, s: Node, electors: set<NodeId>)
    requires Placed(h, s) && VoteOk(h, s)
    requires s.term in h.reigns && h.reigns[s.term] == Reign(s.id, electors, s.log, s.log)
    ensures NodeOk(h, Leading(s))
  {
    var l := Leading(s);
    assert Placed(h, l);
    assert VoteOk(h, l);
    assert LeaderOk(h, l);
    assert Valid(l) by { assert forall p :: p in l.next ==> l.next[p] == |l.log| + 1; }
  }

  lemma LeadingOk(h: History, s: Node, electors: set<NodeId>, h2: History)
    requires HistoryOk(h) && HistoryOk(h2) && NodeOk(h, s) && Extends(h, h2, s.id)
    requires h2 == Crown(h, s, electors)
    ensures StepOk(h, s, BecomeLeader(s), h2)
  {
    SelfGrows(h, h2, s);
    LeadingNodeOk(h2, s, electors);
    var l := Leading(s);
    AppendsOk(h2, l, Peers(l.id));
    Conclude(h, s, l, BecomeLeader(s), h2);
  }
}
