/** How a history grows when one node acts, and what growth cannot disturb. */
module RaftGrowth {
  import opened RaftReducer
  import opened RaftHistory

  /** h2 adds to h only votes, acknowledgements and reign entries of node `id`. */
  ghost predicate Extends(h: History, h2: History, id: NodeId) {
    && h.acks <= h2.acks
    && (forall a :: a in h2.acks && a !in h.acks ==> a.node == id)
    && (forall b :: b in h.ballots ==> b in h2.ballots && h2.ballots[b] == h.ballots[b])
    && (forall b :: b in h2.ballots && b !in h.ballots ==> b.0 == id)
    && (forall t :: t in h.reigns ==> t in h2.reigns && ReignGrows(h.reigns[t], h2.reigns[t], id))
    && (forall t :: t in h2.reigns && t !in h.reigns ==> h2.reigns[t].leader == id)
  }

  ghost predicate ReignGrows(r: Reign, r2: Reign, id: NodeId) {
    && r2.leader == r.leader && r2.electors == r.electors && r2.start == r.start
    && Agree(r.log, r2.log, |r.log|)
    && (r2.log != r.log ==> r.leader == id)
  }

  /** New acknowledgements are for terms their sender has not voted past. */
  ghost predicate AcksInTime(h: History, h2: History) {
    forall a, t :: a in h2.acks && a !in h.acks && (a.node, t) in h2.ballots ==> t <= a.term
  }

  lemma FamilyGrows(h: History, h2: History, id: NodeId, log: seq<Entry>, top: nat)
    requires Extends(h, h2, id) && InFamily(h, log, top)
    ensures InFamily(h2, log, top)
  {
    forall i | 0 <= i < |log|
      ensures log[i].term in h2.reigns && Agree(log, h2.reigns[log[i].term].log, i + 1)
    {
      var r := h.reigns[log[i].term];
      assert ReignGrows(r, h2.reigns[log[i].term], id);
      assert Agree(log, r.log, i + 1);
    }
  }

  lemma HoldsGrows(h: History, h2: History, id: NodeId, log: seq<Entry>, t: nat, k: nat, last: int)
    requires Extends(h, h2, id) && Holds(h, log, t, k, last)
    requires t in h.reigns && k <= |h.reigns[t].log|
    ensures Holds(h2, log, t, k, last)
  {
    assert ReignGrows(h.reigns[t], h2.reigns[t], id);
    if !Agree(log, h.reigns[t].log, k) {
      var u: nat :| t < u <= last && u in h.reigns && !Agree(h.reigns[u].start, h.reigns[t].log, k);
      assert ReignGrows(h.reigns[u], h2.reigns[u], id);
      assert !Agree(h2.reigns[u].start, h2.reigns[t].log, k);
    }
  }

  lemma CommittedGrows(h: History, h2: History, id: NodeId, t: nat, idx: nat)
    requires Extends(h, h2, id) && Committed(h, t, idx)
    ensures Committed(h2, t, idx)
  {
    assert ReignGrows(h.reigns[t], h2.reigns[t], id);
    Subset(AckedBy(h, t, idx), AckedBy(h2, t, idx));
  }

  lemma PrefixGrows(h: History, h2: History, id: NodeId, log: seq<Entry>, k: nat, top: nat)
    requires Extends(h, h2, id) && CommittedPrefix(h, log, k, top)
    ensures CommittedPrefix(h2, log, k, top)
  {
    if k > 0 {
      var t: nat, idx: nat :| t <= top && CommittedAt(h, log, k, t, idx);
      CommittedGrows(h, h2, id, t, idx);
      assert ReignGrows(h.reigns[t], h2.reigns[t], id);
      assert CommittedAt(h2, log, k, t, idx);
    }
  }

  /** A log other than that of the acting node keeps what it kept. */
  lemma KeepsGrows(h: History, h2: History, id: NodeId, node: NodeId, log: seq<Entry>, t: nat, last: int)
    requires HistoryOk(h) && Extends(h, h2, id) && Keeps(h, node, log, t, last)
    requires forall a :: a in h2.acks && a !in h.acks ==> a.node != node || a.term >= t
    ensures Keeps(h2, node, log, t, last)
  {
    forall a, k: nat | a in h2.acks && a.node == node && a.term < t && k <= a.index
      ensures Holds(h2, log, a.term, k, last)
    {
      assert AckOk(h, a);
      HoldsGrows(h, h2, id, log, a.term, k, last);
    }
  }

  lemma BallotGrows(h: History, h2: History, id: NodeId, v: NodeId, t: nat)
    requires HistoryOk(h) && Extends(h, h2, id) && AcksInTime(h, h2)
    requires (v, t) in h.ballots
    ensures BallotOk(h2, v, t)
  {
    var b := h.ballots[(v, t)];
    assert BallotOk(h, v, t);
    assert (v, t) in h2.ballots;
    FamilyGrows(h, h2, id, b.log, t);
    KeepsGrows(h, h2, id, v, b.log, t, t);
    assert (b.cand, t) in h2.ballots;
  }

  /** An acting leader may lengthen its own reign with entries of its own term. */
  lemma ReignKept(h: History, h2: History, id: NodeId, t: nat)
    requires HistoryOk(h) && Extends(h, h2, id) && AcksInTime(h, h2)
    requires t in h.reigns
    requires forall i :: |h.reigns[t].log| <= i < |h2.reigns[t].log| ==> h2.reigns[t].log[i].term == t
    ensures ReignOk(h2, t)
  {
    var r, r2 := h.reigns[t], h2.reigns[t];
    assert ReignOk(h, t) && ReignGrows(r, r2, id);
    assert (r.leader, t) in h2.ballots;
    forall i | 0 <= i < |r2.log|
      ensures r2.log[i].term <= t && r2.log[i].term in h2.reigns && Agree(r2.log, h2.reigns[r2.log[i].term].log, i + 1)
    {
      if i < |r.log| {
        var x := r.log[i].term;
        assert Agree(r.log, h.reigns[x].log, i + 1);
        assert ReignGrows(h.reigns[x], h2.reigns[x], id);
      }
    }
    forall v | v in r2.electors
      ensures (v, t) in h2.ballots && h2.ballots[(v, t)].cand == r2.leader
      ensures Keeps(h2, v, h2.ballots[(v, t)].log, t, t - 1)
    {
      assert (v, t) in h.ballots;
      KeepsGrows(h, h2, id, v, h.ballots[(v, t)].log, t, t - 1);
    }
  }

  /** Growth by one acting node leaves everything old in order; only what is new is left to check. */
  lemma HistoryGrows(h: History, h2: History, id: NodeId)
    requires HistoryOk(h) && Extends(h, h2, id) && AcksInTime(h, h2)
    requires forall t, i :: t in h.reigns && |h.reigns[t].log| <= i < |h2.reigns[t].log| ==> h2.reigns[t].log[i].term == t
    requires forall a :: a in h2.acks && a !in h.acks ==> AckOk(h2, a)
    requires forall v, t :: (v, t) in h2.ballots && (v, t) !in h.ballots ==> BallotOk(h2, v, t)
    requires forall t :: t in h2.reigns && t !in h.reigns ==> ReignOk(h2, t)
    ensures HistoryOk(h2)
  {
    forall a | a in h2.acks ensures AckOk(h2, a) {
      if a in h.acks {
        assert AckOk(h, a);
        assert ReignGrows(h.reigns[a.term], h2.reigns[a.term], id);
      }
    }
    forall v, t | (v, t) in h2.ballots ensures BallotOk(h2, v, t) {
      if (v, t) in h.ballots { BallotGrows(h, h2, id, v, t); }
    }
    forall t | t in h2.reigns ensures ReignOk(h2, t) {
      if t in h.reigns { ReignKept(h, h2, id, t); }
    }
  }

  lemma ExtendsRefl(h: History, id: NodeId)
    ensures Extends(h, h, id)
  {
  }
}
