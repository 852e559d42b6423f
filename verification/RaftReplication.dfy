/** Log replication: merging, acknowledging, committing and client writes keep the Raft invariant. */
module RaftReplication {
  import opened RaftReducer
  import opened RaftHistory
  import opened RaftGrowth
  import opened RaftLocal

  // ---------- merging a suffix ----------

  /** `merged` took over the first m entries of r, cutting `log` only at a real conflict or its end. */
  ghost predicate Merged(log: seq<Entry>, r: seq<Entry>, merged: seq<Entry>, m: nat) {
    && Agree(merged, r, m)
    && (merged == log || (|merged| == m && exists c: nat :: CutAt(log, r, m, c)))
  }

  ghost predicate CutAt(log: seq<Entry>, r: seq<Entry>, m: nat, c: nat) {
    c < m <= |r| && Agree(log, r, c) && (c == |log| || log[c].term != r[c].term)
  }

  /** The entries found matching, term by term, are the leader's own. */
  lemma MatchingAgrees(h: History, log: seq<Entry>, t: nat, prev: nat, prevTerm: nat, entries: seq<Entry>)
    requires HistoryOk(h) && t in h.reigns && InFamily(h, log, t)
    requires prev + |entries| <= |h.reigns[t].log| && entries == h.reigns[t].log[prev..prev + |entries|]
    requires prev > 0 ==> prevTerm == h.reigns[t].log[prev - 1].term
    requires PrevOk(log, prev, prevTerm)
    ensures Agree(log, h.reigns[t].log, prev + Matching(log, prev, entries, 0))
  {
    var r := h.reigns[t].log;
    assert ReignOk(h, t);
    var k := Matching(log, prev, entries, 0);
    if k > 0 {
      assert log[prev + (k - 1)].term == entries[k - 1].term;
      LogsMatch(h, log, t, r, t, prev + k - 1);
    } else if prev > 0 {
      LogsMatch(h, log, t, r, t, prev - 1);
    }
  }

  lemma MergeIsMerged(log: seq<Entry>, r: seq<Entry>, prev: nat, entries: seq<Entry>)
    requires prev + |entries| <= |r| && entries == r[prev..prev + |entries|]
    requires prev <= |log| && Agree(log, r, prev + Matching(log, prev, entries, 0))
    ensures Merged(log, r, MergeLog(log, prev, entries), prev + |entries|)
  {
    var k := Matching(log, prev, entries, 0);
    var m := prev + |entries|;
    if k < |entries| {
      assert entries[k] == r[prev + k];
      assert CutAt(log, r, m, prev + k);
      assert MergeLog(log, prev, entries) == r[..m];
    }
  }

  /** A merge loses agreement with x only if the merged-in log r disagrees with x as well. */
  lemma MergeKeeps(log: seq<Entry>, r: seq<Entry>, merged: seq<Entry>, m: nat, x: seq<Entry>, k: nat)
    requires Merged(log, r, merged, m) && Agree(log, x, k)
    ensures Agree(merged, x, k) || !Agree(r, x, k)
  {
    if merged != log {
      var c: nat :| CutAt(log, r, m, c);
      if c < k {
        assert log[c] == x[c];
      }
    }
  }

  lemma MergedInFamily(h: History, log: seq<Entry>, t: nat, merged: seq<Entry>, m: nat)
    requires HistoryOk(h) && t in h.reigns && InFamily(h, log, t)
    requires Merged(log, h.reigns[t].log, merged, m)
    ensures InFamily(h, merged, t)
  {
    var r := h.reigns[t].log;
    assert ReignOk(h, t);
    if merged != log {
      forall i | 0 <= i < |merged|
        ensures merged[i].term <= t && merged[i].term in h.reigns
        ensures Agree(merged, h.reigns[merged[i].term].log, i + 1)
      {
        assert merged[i] == r[i];
        assert Agree(r, h.reigns[r[i].term].log, i + 1);
      }
    }
  }

  lemma MergedKeeps(h: History, node: NodeId, log: seq<Entry>, t: nat, merged: seq<Entry>, m: nat)
    requires HistoryOk(h) && t in h.reigns
    requires Merged(log, h.reigns[t].log, merged, m)
    requires Keeps(h, node, log, t + 1, t)
    ensures Keeps(h, node, merged, t + 1, t)
  {
    var r := h.reigns[t];
    assert ReignOk(h, t);
    forall a, k: nat | a in h.acks && a.node == node && a.term < t + 1 && k <= a.index
      ensures Holds(h, merged, a.term, k, t)
    {
      assert AckOk(h, a) && Holds(h, log, a.term, k, t);
      var x := h.reigns[a.term].log;
      if Agree(log, x, k) {
        MergeKeeps(log, r.log, merged, m, x, k);
        if !Agree(merged, x, k) {
          assert a.term < t && !Agree(r.start, x, k);
        }
      }
    }
  }

  lemma MergedCommits(h: History, log: seq<Entry>, commitIndex: nat, t: nat, merged: seq<Entry>, m: nat, leaderCommit: nat)
    requires HistoryOk(h) && t in h.reigns && leaderCommit <= m
    requires Merged(log, h.reigns[t].log, merged, m)
    requires CommittedPrefix(h, log, commitIndex, t) && CommittedPrefix(h, h.reigns[t].log, leaderCommit, t)
    ensures Agree(log, merged, commitIndex)
    ensures CommittedPrefix(h, merged, Max(commitIndex, leaderCommit), t)
  {
    var r := h.reigns[t].log;
    ReignHolds(h, log, commitIndex, t, t);
    MergeKeeps(log, r, merged, m, r, commitIndex);
    PrefixOfSame(h, log, merged, commitIndex, t);
    PrefixOfSame(h, r, merged, leaderCommit, t);
  }

  // ---------- acknowledging ----------

  ghost function Acknowledge(h: History, s: Node, m: nat): History {
    h.(acks := h.acks + {Ack(s.id, s.term, m)})
  }

  lemma AcknowledgeOk(h: History, s: Node, m: nat)
    requires HistoryOk(h) && VoteOk(h, s)
    requires s.term in h.reigns && m <= |h.reigns[s.term].log|
    ensures Extends(h, Acknowledge(h, s, m), s.id) && HistoryOk(Acknowledge(h, s, m))
  {
    var h2 := Acknowledge(h, s, m);
    HistoryGrows(h, h2, s.id);
  }

  /** A log that holds what it acknowledges now, and what it acknowledged before, is placed. */
  lemma AcknowledgedPlaced(h: History, s: Node, m: nat)
    requires HistoryOk(h) && Placed(h, s) && VoteOk(h, s)
    requires s.term in h.reigns && Agree(s.log, h.reigns[s.term].log, m)
    ensures Placed(Acknowledge(h, s, m), s)
  {
    var h2 := Acknowledge(h, s, m);
    AcknowledgeOk(h, s, m);
    FamilyGrows(h, h2, s.id, s.log, s.term);
    PrefixGrows(h, h2, s.id, s.log, s.commitIndex, s.term);
    forall a, k: nat | a in h2.acks && a.node == s.id && a.term < s.term + 1 && k <= a.index
      ensures Holds(h2, s.log, a.term, k, s.term)
    {
      if a in h.acks {
        assert AckOk(h, a);
        HoldsGrows(h, h2, s.id, s.log, a.term, k, s.term);
      }
    }
  }

  // ---------- append ----------

  /** The follower after taking over a suffix, before rows are settled. */
  ghost function Accepted(s: Node, log: seq<Entry>, commitIndex: nat): Node
    requires commitIndex <= |log|
  {
    Apply(s.(role := Follower, log := log, commitIndex := commitIndex))
  }

  /** Applying up to a later commit index keeps the register in step. */
  lemma ApplyKv(s: Node, b: Node)
    requires KvOk(s) && s.commitIndex <= b.commitIndex <= |b.log| && Agree(s.log, b.log, s.commitIndex)
    requires b.lastApplied == s.lastApplied && b.kv == s.kv
    ensures KvOk(Apply(b))
  {
  }

  lemma AcceptedPlaced(h: History, s: Node, p: Msg, log: seq<Entry>, m: nat)
    requires HistoryOk(h) && Placed(h, s)
    requires p.Append? && p.term == s.term && s.term in h.reigns
    requires Merged(s.log, h.reigns[s.term].log, log, m) && p.leaderCommit <= m
    requires CommittedPrefix(h, h.reigns[s.term].log, p.leaderCommit, s.term)
    ensures Max(s.commitIndex, p.leaderCommit) <= |log|
    ensures Placed(h, Accepted(s, log, Max(s.commitIndex, p.leaderCommit)))
  {
    MergedCommits(h, s.log, s.commitIndex, s.term, log, m, p.leaderCommit);
    MergedInFamily(h, s.log, s.term, log, m);
    MergedKeeps(h, s.id, s.log, s.term, log, m);
    var commitIndex := Max(s.commitIndex, p.leaderCommit);
    ApplyKv(s, s.(role := Follower, log := log, commitIndex := commitIndex));
  }

  lemma AppendShape(s: Node, p: Msg, from: NodeId, now: int)
    requires p.Append? && Valid(s) && p.term == s.term && PrevOk(s.log, p.prevIndex, p.prevTerm)
    requires Max(s.commitIndex, p.leaderCommit) <= |MergeLog(s.log, p.prevIndex, p.entries)|
    ensures Accepts(s, MergeLog(s.log, p.prevIndex, p.entries), Max(s.commitIndex, p.leaderCommit),
                    p.prevIndex + |p.entries|, from, OnAppend(s, p, from, now))
  {
  }

  lemma AppendRefused(h: History, s: Node, p: Msg, from: NodeId, now: int)
    requires HistoryOk(h) && NodeOk(h, s)
    requires p.Append? && MsgOk(h, Packet(from, s.id, p))
    requires p.term < s.term || (p.term == s.term && !PrevOk(s.log, p.prevIndex, p.prevTerm))
    ensures StepOk(h, s, OnAppend(s, p, from, now), h)
  {
    ExtendsRefl(h, s.id);
    if p.term == s.term {
      var a := s.(role := Follower);
      PlacedSame(h, s, a);
      Conclude(h, s, a, OnAppend(s, p, from, now), h);
    }
  }

  lemma MessageMerges(h: History, s: Node, p: Msg, from: NodeId)
    requires HistoryOk(h) && Placed(h, s)
    requires p.Append? && MsgOk(h, Packet(from, s.id, p))
    requires p.term == s.term && PrevOk(s.log, p.prevIndex, p.prevTerm)
    ensures s.term in h.reigns
    ensures Merged(s.log, h.reigns[s.term].log, MergeLog(s.log, p.prevIndex, p.entries), p.prevIndex + |p.entries|)
  {
    MatchingAgrees(h, s.log, s.term, p.prevIndex, p.prevTerm, p.entries);
    MergeIsMerged(s.log, h.reigns[s.term].log, p.prevIndex, p.entries);
  }

  /** An outcome that takes over the merged log and acknowledges all of it. */
  ghost predicate Accepts(s: Node, log: seq<Entry>, commitIndex: nat, m: nat, from: NodeId, o: Outcome) {
    && commitIndex <= |log|
    && SameCore(Accepted(s, log, commitIndex), o.node)
    && (forall e :: e in o.fx && e.Send? ==> e == Send(from, AppendResp(s.term, true, m)))
  }

  lemma AppendAccepted(h: History, s: Node, p: Msg, from: NodeId, log: seq<Entry>, o: Outcome)
    requires HistoryOk(h) && NodeOk(h, s)
    requires p.Append? && MsgOk(h, Packet(from, s.id, p)) && p.term == s.term
    requires s.term in h.reigns
    requires Merged(s.log, h.reigns[s.term].log, log, p.prevIndex + |p.entries|)
    requires Accepts(s, log, Max(s.commitIndex, p.leaderCommit), p.prevIndex + |p.entries|, from, o)
    ensures StepOk(h, s, o, Acknowledge(h, s, p.prevIndex + |p.entries|))
  {
    var m := p.prevIndex + |p.entries|;
    AcceptedPlaced(h, s, p, log, m);
    AcceptedFields(s, log, Max(s.commitIndex, p.leaderCommit));
    AcceptedStep(h, s, Accepted(s, log, Max(s.commitIndex, p.leaderCommit)), m, from, o);
  }

  lemma AcceptedFields(s: Node, log: seq<Entry>, commitIndex: nat)
    requires commitIndex <= |log|
    ensures var a := Accepted(s, log, commitIndex);
            a.id == s.id && a.term == s.term && a.votedFor == s.votedFor && a.role == Follower && a.log == log
  {
  }

  lemma AcceptedStep(h: History, s: Node, a: Node, m: nat, from: NodeId, o: Outcome)
    requires HistoryOk(h) && VoteOk(h, s) && Placed(h, a) && from != s.id
    requires a.id == s.id && a.term == s.term && a.votedFor == s.votedFor && a.role == Follower
    requires s.term in h.reigns && Agree(a.log, h.reigns[s.term].log, m)
    requires SameCore(a, o.node)
    requires forall e :: e in o.fx && e.Send? ==> e == Send(from, AppendResp(s.term, true, m))
    ensures StepOk(h, s, o, Acknowledge(h, s, m))
  {
    var h2 := Acknowledge(h, s, m);
    assert VoteOk(h, a);
    AcknowledgeOk(h, s, m);
    AcknowledgedPlaced(h, a, m);
    AcceptedNodeOk(h2, s, a);
    Conclude(h, s, a, o, h2);
  }

  lemma AcceptedNodeOk(h: History, s: Node, a: Node)
    requires Placed(h, a) && VoteOk(h, s)
    requires a.id == s.id && a.term == s.term && a.votedFor == s.votedFor && a.role == Follower
    ensures NodeOk(h, a)
  {
    assert VoteOk(h, a);
  }

  lemma AppendTaken(h: History, s: Node, p: Msg, from: NodeId, now: int, log: seq<Entry>, o: Outcome)
    requires HistoryOk(h) && NodeOk(h, s)
    requires p.Append? && MsgOk(h, Packet(from, s.id, p)) && p.term == s.term
    requires PrevOk(s.log, p.prevIndex, p.prevTerm)
    requires log == MergeLog(s.log, p.prevIndex, p.entries) && o == OnAppend(s, p, from, now)
    ensures StepOk(h, s, o, Acknowledge(h, s, p.prevIndex + |p.entries|))
  {
    MessageMerges(h, s, p, from);
    AcceptedPlaced(h, s, p, log, p.prevIndex + |p.entries|);
    AppendShape(s, p, from, now);
    AppendAccepted(h, s, p, from, log, o);
  }

  lemma AppendOk(h: History, s: Node, p: Msg, from: NodeId, now: int) returns (h2: History)
    requires HistoryOk(h) && NodeOk(h, s)
    requires p.Append? && MsgOk(h, Packet(from, s.id, p)) && p.term <= s.term
    ensures StepOk(h, s, OnAppend(s, p, from, now), h2)
  {
    if p.term < s.term || !PrevOk(s.log, p.prevIndex, p.prevTerm) {
      AppendRefused(h, s, p, from, now);
      h2 := h;
    } else {
      AppendTaken(h, s, p, from, now, MergeLog(s.log, p.prevIndex, p.entries), OnAppend(s, p, from, now));
      h2 := Acknowledge(h, s, p.prevIndex + |p.entries|);
    }
  }

  // ---------- counting acknowledgements ----------

  /** A countable slot is committed in the history once the leader's own copy is recorded. */
  lemma CountableCommitted(h: History, s: Node, idx: nat)
    requires s.role == Leader && LeaderOk(h, s) && Countable(s, idx)
    ensures Committed(Acknowledge(h, s, |s.log|), s.term, idx)
  {
    var h2 := Acknowledge(h, s, |s.log|);
    var holders := Holders(s, idx);
    forall p | p in holders ensures p in AckedBy(h2, s.term, idx) {
      assert Ack(p, s.term, s.matched[p]) in h2.acks;
    }
    assert Ack(s.id, s.term, |s.log|) in h2.acks;
    assert s.id !in holders;
    Subset(holders + {s.id}, AckedBy(h2, s.term, idx));
  }

  lemma AckedNodeOk(h: History, s: Node, from: NodeId, m: nat)
    requires HistoryOk(h) && NodeOk(h, s) && s.role == Leader
    requires Ack(from, s.term, m) in h.acks
    ensures m <= |s.log| && NodeOk(h, Acked(s, from, m))
  {
    assert AckOk(h, Ack(from, s.term, m));
    var a := Acked(s, from, m);
    PlacedSame(h, s, a);
    assert LeaderOk(h, a);
    assert VoteOk(h, a);
    assert Valid(a);
  }

  lemma AdvancedPrefix(h: History, a: Node, commitIndex: nat)
    requires HistoryOk(h) && NodeOk(h, a) && a.role == Leader
    requires commitIndex == a.commitIndex || (commitIndex > a.commitIndex && Countable(a, commitIndex))
    ensures a.commitIndex <= commitIndex <= |a.log|
    ensures CommittedPrefix(Acknowledge(h, a, |a.log|), a.log, commitIndex, a.term)
  {
    var h2 := Acknowledge(h, a, |a.log|);
    if commitIndex > a.commitIndex {
      CountableCommitted(h, a, commitIndex);
      assert CommittedAt(h2, a.log, commitIndex, a.term, commitIndex);
    } else {
      AcknowledgeOk(h, a, |a.log|);
      PrefixGrows(h, h2, a.id, a.log, commitIndex, a.term);
    }
  }

  /** Advancing the commit index over countable slots. */
  lemma AdvanceOk(h: History, a: Node, commitIndex: nat)
    requires HistoryOk(h) && NodeOk(h, a) && a.role == Leader
    requires commitIndex == a.commitIndex || (commitIndex > a.commitIndex && Countable(a, commitIndex))
    ensures commitIndex <= |a.log|
    ensures NodeOk(Acknowledge(h, a, |a.log|), Apply(a.(commitIndex := commitIndex)))
  {
    AdvancedPrefix(h, a, commitIndex);
    AcknowledgedPlaced(h, a, |a.log|);
    ApplyKv(a, a.(commitIndex := commitIndex));
    AppliedFields(a, commitIndex);
    AdvancedNodeOk(h, a, Apply(a.(commitIndex := commitIndex)));
  }

  lemma AppliedFields(a: Node, commitIndex: nat)
    requires commitIndex <= |a.log|
    ensures var b := Apply(a.(commitIndex := commitIndex));
            b.commitIndex == commitIndex
            && b == a.(commitIndex := b.commitIndex, lastApplied := b.lastApplied, kv := b.kv)
  {
  }

  lemma AdvancedNodeOk(h: History, a: Node, b: Node)
    requires NodeOk(h, a) && a.role == Leader
    requires Placed(Acknowledge(h, a, |a.log|), a)
    requires KvOk(b) && CommittedPrefix(Acknowledge(h, a, |a.log|), a.log, b.commitIndex, a.term)
    requires b == a.(commitIndex := b.commitIndex, lastApplied := b.lastApplied, kv := b.kv)
    ensures NodeOk(Acknowledge(h, a, |a.log|), b)
  {
    var h2 := Acknowledge(h, a, |a.log|);
    AdvancedPlaced(h2, a, b);
    assert VoteOk(h2, b);
    assert LeaderOk(h2, b);
  }

  lemma AdvancedPlaced(h: History, a: Node, b: Node)
    requires Placed(h, a) && KvOk(b) && CommittedPrefix(h, a.log, b.commitIndex, a.term)
    requires b == a.(commitIndex := b.commitIndex, lastApplied := b.lastApplied, kv := b.kv)
    ensures Placed(h, b)
  {
  }

  lemma RespShape(s: Node, p: Msg, from: NodeId, now: int)
    requires p.AppendResp? && Valid(s) && Plausible(s, Message(from, p))
    requires s.role == Leader && p.term == s.term && p.ok
    requires AdvanceCommit(Acked(s, from, p.matchIndex)) <= |s.log|
    ensures var a := Acked(s, from, p.matchIndex);
            var o := OnAppendResp(s, p, from, now);
            o.fx == [] && SameCore(Apply(a.(commitIndex := AdvanceCommit(a))), o.node)
  {
  }

  /** Counting an acknowledgement, whatever else the outcome records. */
  lemma AckCounted(h: History, s: Node, from: NodeId, m: nat, o: Outcome)
    requires HistoryOk(h) && NodeOk(h, s) && s.role == Leader
    requires Ack(from, s.term, m) in h.acks
    requires var a := Acked(s, from, m);
             AdvanceCommit(a) <= |s.log| ==> o.fx == [] && SameCore(Apply(a.(commitIndex := AdvanceCommit(a))), o.node)
    ensures StepOk(h, s, o, Acknowledge(h, s, |s.log|))
  {
    AckedNodeOk(h, s, from, m);
    var a := Acked(s, from, m);
    var commitIndex := AdvanceCommit(a);
    AdvanceOk(h, a, commitIndex);
    AcknowledgeOk(h, a, |a.log|);
    Conclude(h, s, Apply(a.(commitIndex := commitIndex)), o, Acknowledge(h, s, |s.log|));
  }

  lemma RejectedOk(h: History, s: Node, from: NodeId)
    requires HistoryOk(h) && NodeOk(h, s) && s.role == Leader && from != s.id
    ensures NodeOk(h, Rejected(s, from)) && Sendable(Rejected(s, from), from)
    ensures MsgOk(h, Packet(s.id, from, AppendFor(Rejected(s, from), from)))
  {
    var r := Rejected(s, from);
    PlacedSame(h, s, r);
    assert LeaderOk(h, r);
    assert VoteOk(h, r);
    assert Valid(r);
    AppendForOk(h, r, from);
  }

  lemma AppendRespOk(h: History, s: Node, p: Msg, from: NodeId, now: int) returns (h2: History)
    requires HistoryOk(h) && NodeOk(h, s)
    requires p.AppendResp? && MsgOk(h, Packet(from, s.id, p))
    ensures Plausible(s, Message(from, p))
    ensures StepOk(h, s, OnAppendResp(s, p, from, now), h2)
  {
    ExtendsRefl(h, s.id);
    h2 := h;
    if s.role == Leader && p.term == s.term {
      if p.ok {
        AckedNodeOk(h, s, from, p.matchIndex);
        if AdvanceCommit(Acked(s, from, p.matchIndex)) <= |s.log| { RespShape(s, p, from, now); }
        AckCounted(h, s, from, p.matchIndex, OnAppendResp(s, p, from, now));
        h2 := Acknowledge(h, s, |s.log|);
      } else {
        RejectedOk(h, s, from);
        Conclude(h, s, Rejected(s, from), OnAppendResp(s, p, from, now), h2);
      }
    }
  }

  // ---------- client operations ----------

  ghost function Lengthen(h: History, s: Node, e: Entry): History
    requires s.term in h.reigns
  {
    h.(reigns := h.reigns[s.term := h.reigns[s.term].(log := s.log + [e])])
  }

  lemma LengthenOk(h: History, s: Node, e: Entry)
    requires HistoryOk(h) && NodeOk(h, s) && s.role == Leader && e.term == s.term
    ensures Extends(h, Lengthen(h, s, e), s.id) && HistoryOk(Lengthen(h, s, e))
    ensures Placed(Lengthen(h, s, e), s)
  {
    var h2 := Lengthen(h, s, e);
    HistoryGrows(h, h2, s.id);
    SelfGrows(h, h2, s);
  }

  lemma LongerPlaced(h: History, s: Node, e: Entry)
    requires Placed(h, s) && e.term == s.term
    requires s.term in h.reigns && h.reigns[s.term].log == s.log + [e]
    ensures Placed(h, s.(log := s.log + [e]))
  {
    var w := s.(log := s.log + [e]);
    PrefixOfSame(h, s.log, w.log, s.commitIndex, s.term);
    forall a, k: nat | a in h.acks && a.node == s.id && a.term < s.term + 1 && k <= a.index
      ensures Holds(h, w.log, a.term, k, s.term)
    {
      assert Holds(h, s.log, a.term, k, s.term);
    }
    forall i | 0 <= i < |w.log|
      ensures w.log[i].term <= s.term && w.log[i].term in h.reigns && Agree(w.log, h.reigns[w.log[i].term].log, i + 1)
    {
      if i < |s.log| {
        assert Agree(s.log, h.reigns[s.log[i].term].log, i + 1);
      }
    }
  }

  lemma WriteOk(h: History, s: Node, value: int, now: int) returns (h2: History)
    requires HistoryOk(h) && NodeOk(h, s) && s.role == Leader
    ensures StepOk(h, s, OnClient(s, Write(value), now), h2)
  {
    var w := Appended(s, value, now);
    var e := w.log[|s.log|];
    h2 := Lengthen(h, s, e);
    WrittenOk(h, h2, s, w, e, OnClient(s, Write(value), now));
  }

  lemma WrittenOk(h: History, h2: History, s: Node, w: Node, e: Entry, o: Outcome)
    requires HistoryOk(h) && NodeOk(h, s) && s.role == Leader && e.term == s.term
    requires h2 == Lengthen(h, s, e)
    requires w == s.(log := s.log + [e], historyN := w.historyN, history := w.history)
    requires forall p :: p in Peers(w.id) ==> Sendable(w, p)
    requires o == Outcome(w, SendAppends(w, Peers(w.id)))
    ensures StepOk(h, s, o, h2)
  {
    LengthenOk(h, s, e);
    LongerPlaced(h2, s, e);
    WrittenNodeOk(h, h2, s, w, e);
    AppendsOk(h2, w, Peers(w.id));
    Conclude(h, s, w, o, h2);
  }

  lemma WrittenNodeOk(h: History, h2: History, s: Node, w: Node, e: Entry)
    requires NodeOk(h, s) && s.role == Leader
    requires h2 == Lengthen(h, s, e)
    requires Placed(h2, s.(log := s.log + [e]))
    requires w == s.(log := s.log + [e], historyN := w.historyN, history := w.history)
    ensures NodeOk(h2, w)
  {
    PlacedSame(h2, s.(log := s.log + [e]), w);
    assert VoteOk(h2, w);
    assert LeaderOk(h2, w);
  }

  lemma ClientOk(h: History, s: Node, op: Command, now: int) returns (h2: History)
    requires HistoryOk(h) && NodeOk(h, s)
    ensures StepOk(h, s, OnClient(s, op, now), h2)
  {
    if op.Write? && s.role == Leader {
      h2 := WriteOk(h, s, op.value, now);
    } else {
      h2 := h;
      ExtendsRefl(h, s.id);
      Conclude(h, s, s, OnClient(s, op, now), h);
    }
  }

  // ---------- any event ----------

  lemma TimerOk(h: History, s: Node, t: Timer, now: int) returns (h2: History)
    requires HistoryOk(h) && NodeOk(h, s)
    ensures StepOk(h, s, OnTimer(s, t, now), h2)
  {
    ExtendsRefl(h, s.id);
    h2 := h;
    match t
    case ClientTimer(op) => h2 := ClientOk(h, s, op, now);
    case ElectionTimer(nonce) =>
      if nonce == s.electionNonce && s.role != Leader {
        ElectionOk(h, s);
        h2 := Cast(h, AdoptTerm(s, s.term + 1).node, s.id);
      }
    case HeartbeatTimer(nonce) =>
      if nonce == s.heartbeatNonce && s.role == Leader {
        AppendsOk(h, s, Peers(s.id));
        Conclude(h, s, s, Heartbeat(s), h);
      }
  }

  lemma MessageStepOk(h: History, s: Node, p: Msg, from: NodeId, now: int) returns (h2: History)
    requires HistoryOk(h) && NodeOk(h, s) && MsgOk(h, Packet(from, s.id, p)) && p.term <= s.term
    ensures Plausible(s, Message(from, p))
    ensures StepOk(h, s, OnMessage(s, p, from, now), h2)
  {
    match p
    case ReqVote(_, _, _) => h2 := ReqVoteOk(h, s, p, from);
    case Vote(_, _) => h2 := VoteCountOk(h, s, p, from);
    case Append(_, _, _, _, _) => h2 := AppendOk(h, s, p, from, now);
    case AppendResp(_, _, _) => h2 := AppendRespOk(h, s, p, from, now);
  }

  lemma DeliverOk(h: History, s: Node, p: Msg, from: NodeId, now: int) returns (h2: History)
    requires HistoryOk(h) && NodeOk(h, s) && MsgOk(h, Packet(from, s.id, p))
    ensures Plausible(s, Message(from, p))
    ensures StepOk(h, s, Deliver(s, p, from, now), h2)
  {
    if p.term > s.term {
      var a := AdoptTerm(s, p.term);
      AdoptOk(h, s, p.term);
      h2 := MessageStepOk(h, a.node, p, from, now);
      Chain(h, s, a, OnMessage(a.node, p, from, now), h2);
    } else {
      h2 := MessageStepOk(h, s, p, from, now);
    }
  }

  /** Every event, on every node, keeps the invariant of the acting node and of what it sends. */
  lemma ReduceOk(h: History, s: Node, ev: Event, now: int) returns (h2: History)
    requires HistoryOk(h) && NodeOk(h, s)
    requires ev.Message? ==> MsgOk(h, Packet(ev.from, s.id, ev.msg))
    ensures Plausible(s, ev)
    ensures StepOk(h, s, Reduce(s, ev, now), h2)
  {
    match ev
    case Init =>
      h2 := h;
      ExtendsRefl(h, s.id);
      Conclude(h, s, s, ArmElection(s), h);
    case Message(from, msg) => h2 := DeliverOk(h, s, msg, from, now);
    case Fire(timer) => h2 := TimerOk(h, s, timer, now);
    case External(op) =>
      h2 := h;
      ExtendsRefl(h, s.id);
      Conclude(h, s, s, Reduce(s, ev, now), h);
  }
}
