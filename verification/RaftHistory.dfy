/** What a Raft run has done so far, kept as proof state: reigns, ballots and acknowledgements.
    The consensus argument itself is static: it reads one history. */
module RaftHistory {
  import opened RaftReducer

  /** A vote cast: for whom, and the voter's log when it was first cast. */
  datatype Ballot = Ballot(cand: NodeId, log: seq<Entry>)

  /** A term that found a leader: who voted it in, its log when elected, and its log so far. */
  datatype Reign = Reign(leader: NodeId, electors: set<NodeId>, start: seq<Entry>, log: seq<Entry>)

  /** `node` told the leader of `term` that it holds that leader's log up to `index`. */
  datatype Ack = Ack(node: NodeId, term: nat, index: nat)

  datatype History = History(reigns: map<nat, Reign>, ballots: map<(NodeId, nat), Ballot>, acks: set<Ack>)

  ghost predicate Agree(a: seq<Entry>, b: seq<Entry>, k: nat) {
    k <= |a| && k <= |b| && forall i :: 0 <= i < k ==> a[i] == b[i]
  }

  /** Every prefix of `log` ending in a term-t entry is a prefix of what the leader of t wrote. */
  ghost predicate InFamily(h: History, log: seq<Entry>, top: nat) {
    forall i :: 0 <= i < |log| ==>
      && log[i].term <= top
      && log[i].term in h.reigns
      && Agree(log, h.reigns[log[i].term].log, i + 1)
  }

  /** Some leader after t, no later than `last`, took over without the first k entries of t's log. */
  ghost predicate Diverged(h: History, t: nat, k: nat, last: int) {
    t in h.reigns && exists u: nat :: t < u <= last && u in h.reigns && !Agree(h.reigns[u].start, h.reigns[t].log, k)
  }

  ghost predicate Holds(h: History, log: seq<Entry>, t: nat, k: nat, last: int) {
    (t in h.reigns && Agree(log, h.reigns[t].log, k)) || Diverged(h, t, k, last)
  }

  ghost predicate AckOk(h: History, a: Ack) {
    a.term in h.reigns && a.index <= |h.reigns[a.term].log|
  }

  /** What `node` acknowledged before term t is still in `log`, unless a leader up to `last` lacked it. */
  ghost predicate Keeps(h: History, node: NodeId, log: seq<Entry>, t: nat, last: int)
  {
    forall a, k: nat :: a in h.acks && a.node == node && a.term < t && k <= a.index ==>
      Holds(h, log, a.term, k, last)
  }

  ghost predicate BallotOk(h: History, v: NodeId, t: nat)
    requires (v, t) in h.ballots
  {
    var b := h.ballots[(v, t)];
    && InFamily(h, b.log, t)
    && (b.cand, t) in h.ballots
    && h.ballots[(b.cand, t)].cand == b.cand
    && UpToDate(LastTerm(h.ballots[(b.cand, t)].log), |h.ballots[(b.cand, t)].log|, b.log)
    && (b.cand == v ==> forall i :: 0 <= i < |b.log| ==> b.log[i].term < t)
    && Keeps(h, v, b.log, t, t)
  }

  ghost predicate ReignOk(h: History, t: nat)
    requires t in h.reigns
  {
    var r := h.reigns[t];
    && Agree(r.start, r.log, |r.start|)
    && InFamily(h, r.log, t)
    && (forall i :: 0 <= i < |r.start| ==> r.log[i].term < t)
    && (forall i :: |r.start| <= i < |r.log| ==> r.log[i].term == t)
    && |r.electors| >= MAJORITY
    && (r.leader, t) in h.ballots
    && h.ballots[(r.leader, t)] == Ballot(r.leader, r.start)
    && (forall v :: v in r.electors ==>
          (v, t) in h.ballots && h.ballots[(v, t)].cand == r.leader && Keeps(h, v, h.ballots[(v, t)].log, t, t - 1))
  }

  ghost predicate HistoryOk(h: History) {
    && (forall a {:trigger AckOk(h, a)} :: a in h.acks ==> AckOk(h, a))
    && (forall v, t {:trigger BallotOk(h, v, t)} :: (v, t) in h.ballots ==> BallotOk(h, v, t))
    && (forall t {:trigger ReignOk(h, t)} :: t in h.reigns ==> ReignOk(h, t))
  }

  /** The nodes that acknowledged t's log up to idx. */
  ghost function AckedBy(h: History, t: nat, idx: nat): set<NodeId> {
    set a | a in h.acks && a.term == t && a.index >= idx :: a.node
  }

  /** Section 5.4.2: the leader of t may count slot idx as committed. */
  ghost predicate Committed(h: History, t: nat, idx: nat) {
    && t in h.reigns
    && 1 <= idx <= |h.reigns[t].log|
    && h.reigns[t].log[idx - 1].term == t
    && |AckedBy(h, t, idx)| >= MAJORITY
  }

  /** The first k entries of `log` were committed by the leader of `top` or an earlier one. */
  ghost predicate CommittedPrefix(h: History, log: seq<Entry>, k: nat, top: nat) {
    && k <= |log|
    && (k == 0 || exists t: nat, idx: nat :: t <= top && CommittedAt(h, log, k, t, idx))
  }

  /** The leader of t committed slot idx, and `log` agrees with it on the first k <= idx entries. */
  ghost predicate CommittedAt(h: History, log: seq<Entry>, k: nat, t: nat, idx: nat) {
    Committed(h, t, idx) && k <= idx && Agree(log, h.reigns[t].log, k)
  }

  // ---------- the consensus argument ----------

  lemma QuorumsMeet(a: set<NodeId>, b: set<NodeId>) returns (v: NodeId)
    requires |a| >= MAJORITY && |b| >= MAJORITY
    ensures v in a && v in b
  {
    var all := {N1, N2, N3, N4, N5};
    if a * b == {} {
      forall n: NodeId ensures n in all { match n case N1 => case N2 => case N3 => case N4 => case N5 => }
      Subset(a + b, all);
      assert false;
    }
    v :| v in a * b;
  }

  lemma Subset<T>(a: set<T>, b: set<T>)
    requires a <= b
    ensures |a| <= |b|
  {
    assert b == a + (b - a);
  }

  /** No term is ever won twice. */
  lemma OneLeader(h: History, t: nat, c: NodeId, electors: set<NodeId>)
    requires HistoryOk(h) && t in h.reigns
    requires |electors| >= MAJORITY
    requires forall v :: v in electors ==> (v, t) in h.ballots && h.ballots[(v, t)].cand == c
    ensures h.reigns[t].leader == c
  {
    assert ReignOk(h, t);
    var v := QuorumsMeet(h.reigns[t].electors, electors);
  }

  /** Terms never fall along a log of the family. */
  lemma TermsRise(h: History, log: seq<Entry>, top: nat, i: nat, j: nat)
    requires HistoryOk(h) && InFamily(h, log, top)
    requires i <= j < |log|
    ensures log[i].term <= log[j].term
  {
    var r := h.reigns[log[j].term];
    assert ReignOk(h, log[j].term);
    assert log[i] == r.log[i];
  }

  /** A log at least as up-to-date as one that ends at or after t's committed prefix holds that prefix,
      provided every leader between t and its own last term does. */
  lemma UpToDateHolds(h: History, e: seq<Entry>, b: seq<Entry>, top: nat, t: nat, k: nat)
    requires HistoryOk(h) && InFamily(h, e, top) && InFamily(h, b, top)
    requires UpToDate(LastTerm(e), |e|, b)
    requires t in h.reigns && 1 <= k && Agree(b, h.reigns[t].log, k) && h.reigns[t].log[k - 1].term == t
    requires e != [] && LastTerm(e) > t ==> Agree(h.reigns[LastTerm(e)].start, h.reigns[t].log, k)
    ensures Agree(e, h.reigns[t].log, k)
  {
    TermsRise(h, b, top, k - 1, |b| - 1);
    assert LastTerm(b) >= t;
    assert ReignOk(h, LastTerm(b));
    assert Agree(b, h.reigns[LastTerm(b)].log, |b|);
    assert LastTerm(b) in h.reigns;
    if e == [] {
      assert false;
    } else {
      var x := LastTerm(e);
      assert Agree(e, h.reigns[x].log, |e|);
      assert ReignOk(h, x);
      if x > LastTerm(b) {
        assert |e| > |h.reigns[x].start|;
      }
    }
  }

  /** Leader completeness, section 5.4.3: what a leader committed, every later leader starts with. */
  lemma {:induction false} Completeness(h: History, t: nat, k: nat, u: nat)
    requires HistoryOk(h)
    requires Committed(h, t, k)
    requires t < u && u in h.reigns
    ensures Agree(h.reigns[u].start, h.reigns[t].log, k)
    decreases u
  {
    var r := h.reigns[u];
    assert ReignOk(h, u);
    var v := QuorumsMeet(r.electors, AckedBy(h, t, k));
    var a :| a in h.acks && a.term == t && a.index >= k && a.node == v;
    var b := h.ballots[(v, u)].log;
    assert BallotOk(h, v, u) && BallotOk(h, r.leader, u);
    assert Holds(h, b, t, k, u - 1);
    if Diverged(h, t, k, u - 1) {
      var w: nat :| t < w <= u - 1 && w in h.reigns && !Agree(h.reigns[w].start, h.reigns[t].log, k);
      Completeness(h, t, k, w);
      assert false;
    }
    if r.start != [] && LastTerm(r.start) > t {
      Completeness(h, t, k, LastTerm(r.start));
    }
    UpToDateHolds(h, r.start, b, u, t, k);
  }

  /** The log of any leader from t on holds what was committed up to t. */
  lemma ReignHolds(h: History, log: seq<Entry>, k: nat, top: nat, u: nat)
    requires HistoryOk(h) && CommittedPrefix(h, log, k, top)
    requires top <= u && u in h.reigns
    ensures Agree(log, h.reigns[u].log, k)
    ensures top < u ==> Agree(log, h.reigns[u].start, k)
  {
    if k > 0 {
      var t: nat, idx: nat :| t <= top && CommittedAt(h, log, k, t, idx);
      if t < u {
        CommittedStarts(h, log, k, t, idx, u);
      }
    }
  }

  lemma CommittedStarts(h: History, log: seq<Entry>, k: nat, t: nat, idx: nat, u: nat)
    requires HistoryOk(h) && CommittedAt(h, log, k, t, idx)
    requires t < u && u in h.reigns
    ensures Agree(log, h.reigns[u].start, k) && Agree(log, h.reigns[u].log, k)
  {
    Completeness(h, t, idx, u);
    assert ReignOk(h, u);
  }

  /** State-machine safety: any two committed prefixes agree on their common part. */
  lemma PrefixesAgree(h: History, a: seq<Entry>, j: nat, s: nat, b: seq<Entry>, k: nat, t: nat)
    requires HistoryOk(h) && CommittedPrefix(h, a, j, s) && CommittedPrefix(h, b, k, t)
    ensures forall i :: 0 <= i < j && i < k ==> a[i] == b[i]
  {
    if j > 0 && k > 0 {
      var x: nat, m: nat :| x <= s && CommittedAt(h, a, j, x, m);
      var y: nat, n: nat :| y <= t && CommittedAt(h, b, k, y, n);
      if x < y {
        CommittedStarts(h, a, j, x, m, y);
      } else if y < x {
        CommittedStarts(h, b, k, y, n, x);
      }
    }
  }

  /** Log matching: equal terms at one index make the logs equal up to it. */
  lemma LogsMatch(h: History, a: seq<Entry>, s: nat, b: seq<Entry>, t: nat, i: nat)
    requires InFamily(h, a, s) && InFamily(h, b, t)
    requires i < |a| && i < |b| && a[i].term == b[i].term
    ensures Agree(a, b, i + 1)
  {
    var r := h.reigns[a[i].term].log;
    assert Agree(a, r, i + 1) && Agree(b, r, i + 1);
  }
}
