/** The safety theorems of section 5 of the Raft paper, for every run of the cluster. */
module RaftSafety {
  import opened RaftReducer
  import opened RaftHistory
  import opened RaftGrowth
  import opened RaftLocal
  import opened RaftCluster
  import opened RaftLedger

  /** Election safety: no two nodes, at any two moments of a run, lead the same term. */
  lemma ElectionSafety(run: seq<Cluster>, acts: seq<Action>, i: nat, j: nat, m: NodeId, n: NodeId)
    requires IsRun(run, acts) && i < |run| && j < |run|
    requires m in run[i].nodes && run[i].nodes[m].role == Leader
    requires n in run[j].nodes && run[j].nodes[n].role == Leader
    requires run[i].nodes[m].term == run[j].nodes[n].term
    ensures m == n
  {
    var hs := Histories(run, acts);
    assert Inv(run[i], hs[i]) && Inv(run[j], hs[j]);
    assert LeaderOk(hs[i], run[i].nodes[m]) && LeaderOk(hs[j], run[j].nodes[n]);
    if i <= j { assert Later(hs[i], hs[j]); } else { assert Later(hs[j], hs[i]); }
  }

  /** Log matching: at any two moments, logs that share a term at an index are equal up to it. */
  lemma LogMatching(run: seq<Cluster>, acts: seq<Action>, i: nat, j: nat, m: NodeId, n: NodeId, k: nat)
    requires IsRun(run, acts) && i < |run| && j < |run|
    requires m in run[i].nodes && n in run[j].nodes
    requires k < |run[i].nodes[m].log| && k < |run[j].nodes[n].log|
    requires run[i].nodes[m].log[k].term == run[j].nodes[n].log[k].term
    ensures Agree(run[i].nodes[m].log, run[j].nodes[n].log, k + 1)
  {
    var hs := Histories(run, acts);
    assert Inv(run[i], hs[i]) && Inv(run[j], hs[j]);
    if i <= j { assert Later(hs[i], hs[j]); } else { assert Later(hs[j], hs[i]); }
    MatchAcross(hs[i], run[i].nodes[m], hs[j], run[j].nodes[n], k);
  }

  lemma MatchAcross(g: History, a: Node, h: History, b: Node, k: nat)
    requires NodeOk(g, a) && NodeOk(h, b) && (Later(g, h) || Later(h, g))
    requires k < |a.log| && k < |b.log| && a.log[k].term == b.log[k].term
    ensures Agree(a.log, b.log, k + 1)
  {
    var t := a.log[k].term;
    assert Agree(a.log, g.reigns[t].log, k + 1) && Agree(b.log, h.reigns[t].log, k + 1);
  }

  /** Leader completeness: what a node of term t counts as committed at any moment is in the log
      of every leader of a later term, at any moment, and of its own term from then on. */
  lemma LeaderCompleteness(run: seq<Cluster>, acts: seq<Action>, i: nat, j: nat, m: NodeId, n: NodeId)
    requires IsRun(run, acts) && i < |run| && j < |run|
    requires m in run[i].nodes && n in run[j].nodes
    requires run[j].nodes[n].role == Leader
    requires run[i].nodes[m].term < run[j].nodes[n].term || (run[i].nodes[m].term == run[j].nodes[n].term && i <= j)
    ensures Agree(run[i].nodes[m].log, run[j].nodes[n].log, run[i].nodes[m].commitIndex)
  {
    var hs := Histories(run, acts);
    var a, l := run[i].nodes[m], run[j].nodes[n];
    assert Inv(run[i], hs[i]) && Inv(run[j], hs[j]);
    assert NodeOk(hs[i], a) && NodeOk(hs[j], l);
    if i <= j { assert Later(hs[i], hs[j]); } else { assert Later(hs[j], hs[i]); }
    LeaderHolds(hs[i], a, hs[j], l);
  }

  lemma LeaderHolds(g: History, a: Node, h: History, l: Node)
    requires HistoryOk(g) && HistoryOk(h) && NodeOk(g, a) && NodeOk(h, l) && l.role == Leader
    requires (a.term <= l.term && Later(g, h)) || (a.term < l.term && Later(h, g))
    ensures Agree(a.log, l.log, a.commitIndex)
  {
    assert ReignOk(h, l.term);
    if Later(g, h) {
      LaterPrefix(g, h, a.log, a.commitIndex, a.term);
      ReignHolds(h, a.log, a.commitIndex, a.term, l.term);
    } else {
      ReignHolds(g, a.log, a.commitIndex, a.term, l.term);
    }
  }

  /** State-machine safety: at any two moments, any two nodes agree on every slot both have committed. */
  lemma StateMachineSafety(run: seq<Cluster>, acts: seq<Action>, i: nat, j: nat, m: NodeId, n: NodeId, k: nat)
    requires IsRun(run, acts) && i < |run| && j < |run|
    requires m in run[i].nodes && n in run[j].nodes
    requires k < run[i].nodes[m].commitIndex && k < run[j].nodes[n].commitIndex
    ensures k < |run[i].nodes[m].log| && k < |run[j].nodes[n].log|
    ensures run[i].nodes[m].log[k] == run[j].nodes[n].log[k]
  {
    var hs := Histories(run, acts);
    var a, b := run[i].nodes[m], run[j].nodes[n];
    assert Inv(run[i], hs[i]) && Inv(run[j], hs[j]);
    assert NodeOk(hs[i], a) && NodeOk(hs[j], b);
    if i <= j {
      assert Later(hs[i], hs[j]);
      LaterPrefix(hs[i], hs[j], a.log, a.commitIndex, a.term);
      PrefixesAgree(hs[j], a.log, a.commitIndex, a.term, b.log, b.commitIndex, b.term);
    } else {
      assert Later(hs[j], hs[i]);
      LaterPrefix(hs[j], hs[i], b.log, b.commitIndex, b.term);
      PrefixesAgree(hs[i], a.log, a.commitIndex, a.term, b.log, b.commitIndex, b.term);
    }
  }

  /** The register of every node, at every moment, is the value of the last entry it committed. */
  lemma AppliedRegister(run: seq<Cluster>, acts: seq<Action>, i: nat, n: NodeId)
    requires IsRun(run, acts) && i < |run| && n in run[i].nodes
    ensures var s := run[i].nodes[n];
            && s.lastApplied == s.commitIndex <= |s.log|
            && s.kv == if s.commitIndex == 0 then 0 else s.log[s.commitIndex - 1].value
  {
    var hs := Histories(run, acts);
    assert Inv(run[i], hs[i]) && NodeOk(hs[i], run[i].nodes[n]);
  }

  /** The reducer never throws: in every state of a run, every enabled action runs. */
  lemma NeverThrows(run: seq<Cluster>, acts: seq<Action>, i: nat, a: Action)
    requires IsRun(run, acts) && i < |run| && Enabled(run[i], a)
    ensures Runs(run[i], a)
  {
    var hs := Histories(run, acts);
    EnabledRuns(run[i], hs[i], a);
  }

  /** Every event keeps each node's committed prefix: the commit index never falls and no slot in it changes. */
  lemma CommitsStay(run: seq<Cluster>, acts: seq<Action>, i: nat, j: nat, n: NodeId)
    requires IsRun(run, acts) && i <= j < |run| && n in run[i].nodes && n in run[j].nodes
    ensures run[i].nodes[n].commitIndex <= run[j].nodes[n].commitIndex
    ensures Agree(run[i].nodes[n].log, run[j].nodes[n].log, run[i].nodes[n].commitIndex)
    decreases j - i
  {
    var hs := Histories(run, acts);
    CommitIndexRises(run, acts, hs, i, j, n);
    AppliedRegister(run, acts, i, n);
    AppliedRegister(run, acts, j, n);
    forall k | 0 <= k < run[i].nodes[n].commitIndex
      ensures run[i].nodes[n].log[k] == run[j].nodes[n].log[k]
    {
      StateMachineSafety(run, acts, i, j, n, n, k);
    }
  }

  lemma {:induction false} CommitIndexRises(run: seq<Cluster>, acts: seq<Action>, hs: seq<History>, i: nat, j: nat, n: NodeId)
    requires HistoriesOf(run, acts, hs) && |hs| == |run|
    requires i <= j < |run| && n in run[i].nodes
    ensures n in run[j].nodes && run[i].nodes[n].commitIndex <= run[j].nodes[n].commitIndex
    decreases j - i
  {
    if i < j {
      CommitIndexRises(run, acts, hs, i, j - 1, n);
      CommitStepAt(run, acts, hs, j - 1, n);
    }
  }

  lemma CommitStepAt(run: seq<Cluster>, acts: seq<Action>, hs: seq<History>, k: nat, n: NodeId)
    requires HistoriesOf(run, acts, hs) && k + 1 < |hs| && n in run[k].nodes
    ensures n in run[k + 1].nodes && run[k].nodes[n].commitIndex <= run[k + 1].nodes[n].commitIndex
  {
    assert LinkedAt(run, acts, hs, k) && Inv(run[k], hs[k]);
    CommitStep(run[k], hs[k], acts[k], run[k + 1], n);
  }

  /** What a node acknowledged in a term it keeps for the whole of that term, whatever delayed or duplicated
      appends arrive, and whether or not the term's leader still leads. */
  lemma AcknowledgedStays(run: seq<Cluster>, acts: seq<Action>, i: nat, j: nat, l: NodeId, n: NodeId, t: nat, m: nat)
    requires IsRun(run, acts) && i <= j < |run| && n in run[i].nodes && n in run[j].nodes
    requires Packet(n, l, AppendResp(t, true, m)) in run[i].net
    requires run[i].nodes[n].term == t == run[j].nodes[n].term
    ensures Agree(run[i].nodes[n].log, run[j].nodes[n].log, m)
  {
    var hs := Histories(run, acts);
    assert Inv(run[i], hs[i]) && Inv(run[j], hs[j]) && Later(hs[i], hs[j]);
    assert MsgOk(hs[i], Packet(n, l, AppendResp(t, true, m)));
    AckedKeeps(hs[i], run[i].nodes[n], hs[j], run[j].nodes[n], m);
  }

  lemma AckedKeeps(h: History, s: Node, g: History, r: Node, m: nat)
    requires HistoryOk(h) && NodeOk(h, s) && NodeOk(g, r) && Later(h, g)
    requires r.id == s.id && r.term == s.term && Ack(s.id, s.term, m) in h.acks
    ensures Agree(s.log, r.log, m)
  {
    assert AckOk(h, Ack(s.id, s.term, m));
    assert Holds(h, s.log, s.term, m, s.term) && Holds(g, r.log, r.term, m, r.term);
  }

  /** And what it keeps is what the leader of that term has, for as long as that leads. */
  lemma AcknowledgedIsLeaders(run: seq<Cluster>, acts: seq<Action>, i: nat, j: nat, k: nat, l: NodeId, n: NodeId, m: nat)
    requires IsRun(run, acts) && i <= j < |run| && i <= k < |run|
    requires n in run[j].nodes && l in run[k].nodes && run[k].nodes[l].role == Leader
    requires Packet(n, l, AppendResp(run[k].nodes[l].term, true, m)) in run[i].net
    requires run[j].nodes[n].term == run[k].nodes[l].term
    ensures Agree(run[j].nodes[n].log, run[k].nodes[l].log, m)
  {
    var hs := Histories(run, acts);
    var t := run[k].nodes[l].term;
    assert Inv(run[i], hs[i]) && Inv(run[j], hs[j]) && Inv(run[k], hs[k]);
    assert MsgOk(hs[i], Packet(n, l, AppendResp(t, true, m)));
    assert AckOk(hs[i], Ack(n, t, m));
    assert Later(hs[i], hs[j]) && Later(hs[i], hs[k]);
    if j <= k { assert Later(hs[j], hs[k]); } else { assert Later(hs[k], hs[j]); }
    AckedAgree(hs[j], run[j].nodes[n], hs[k], run[k].nodes[l], m);
  }

  lemma AckedAgree(h: History, f: Node, g: History, l: Node, m: nat)
    requires NodeOk(h, f) && NodeOk(g, l) && (Later(h, g) || Later(g, h))
    requires l.role == Leader && f.term == l.term
    requires Ack(f.id, f.term, m) in h.acks && f.term in h.reigns && m <= |h.reigns[f.term].log|
    requires m <= |l.log|
    ensures Agree(f.log, l.log, m)
  {
    assert Holds(h, f.log, f.term, m, f.term);
  }

  /** An ok write stays at its slot: at any moment, every node that committed that slot holds that write there,
      its identity and its value. */
  lemma OkWriteStays(run: seq<Cluster>, acts: seq<Action>, i: nat, j: nat, m: NodeId, n: NodeId, row: Row)
    requires IsRun(run, acts) && i < |run| && j < |run|
    requires m in run[i].nodes && row in run[i].nodes[m].history && row.isWrite && row.outcome == Ok
    requires n in run[j].nodes && row.index.Some? && run[j].nodes[n].commitIndex >= row.index.value
    ensures 1 <= row.index.value <= |run[j].nodes[n].log|
    ensures var e := run[j].nodes[n].log[row.index.value - 1]; e.tag == row.id && row.value == Some(e.value)
  {
    var hs := Histories(run, acts);
    var ls := Ledgers(run, acts, hs, |run| - 1);
    assert LedgerOk(run[i], hs[i], ls[i]) && LedgerOk(run[j], hs[j], ls[j]);
    LedgersAgree(run, hs, ls, i, j);
    OkRowStays(run[i], hs[i], ls[i], m, row, run[j], hs[j], ls[j], n);
  }

  /** Of the ledgers at two moments, one continues the other. */
  ghost predicate OneContinues(a: Ledger, b: Ledger) {
    Onward(a, b) || Onward(b, a)
  }

  lemma LedgersAgree(run: seq<Cluster>, hs: seq<History>, ls: seq<Ledger>, i: nat, j: nat)
    requires LedgersOf(run, hs, ls) && i < |ls| && j < |ls|
    ensures OneContinues(ls[i], ls[j])
  {
    if i <= j { assert Onward(ls[i], ls[j]); } else { assert Onward(ls[j], ls[i]); }
  }

  lemma OkRowStays(c: Cluster, h: History, l: Ledger, m: NodeId, row: Row, d: Cluster, g: History, l2: Ledger, n: NodeId)
    requires LedgerOk(c, h, l) && LedgerOk(d, g, l2) && OneContinues(l, l2)
    requires m in c.nodes && row in c.nodes[m].history && row.isWrite && row.outcome == Ok
    requires n in d.nodes && row.index.Some? && d.nodes[n].commitIndex >= row.index.value
    ensures 1 <= row.index.value <= |d.nodes[n].log|
    ensures var e := d.nodes[n].log[row.index.value - 1]; e.tag == row.id && row.value == Some(e.value)
  {
    assert RowOk(l, c.now, c.nodes[m], row);
    var k := row.index.value - 1;
    assert Put(l, l.log[k], k);
  }

  /** A write settled lost because its slot was committed with another entry is never committed: in no state, at no
      node, at no slot. Rows lost because their slot vanished from the log are not promised this. */
  lemma LostWriteNever(run: seq<Cluster>, acts: seq<Action>, i: nat, m: NodeId, p: nat, j: nat, n: NodeId, k: nat)
    requires IsRun(run, acts) && i < |acts| && j < |run|
    requires m in run[i].nodes && m in run[i + 1].nodes && LosesRow(run[i].nodes[m], run[i + 1].nodes[m], p)
    requires n in run[j].nodes && k < run[j].nodes[n].commitIndex
    ensures k < |run[j].nodes[n].log| && run[j].nodes[n].log[k].tag != run[i].nodes[m].history[p].id
  {
    var hs := Histories(run, acts);
    var ls := Ledgers(run, acts, hs, |run| - 1);
    RowLostAt(run, acts, hs, i, m, p);
    LedgerAt(run, hs, ls, i + 1);
    LedgerAt(run, hs, ls, j);
    LedgersAgree(run, hs, ls, i + 1, j);
    LostRowNever(run[i + 1], hs[i + 1], ls[i + 1], m, p, run[i].nodes[m].history[p], run[j], hs[j], ls[j], n, k);
  }

  lemma RowLostAt(run: seq<Cluster>, acts: seq<Action>, hs: seq<History>, i: nat, m: NodeId, p: nat)
    requires IsRun(run, acts) && HistoriesOf(run, acts, hs) && |hs| == |run| && i < |acts|
    requires m in run[i].nodes && m in run[i + 1].nodes && LosesRow(run[i].nodes[m], run[i + 1].nodes[m], p)
    ensures RowLost(run[i].nodes[m].history[p], run[i + 1].nodes[m], p)
  {
    assert Step(run[i], acts[i], run[i + 1]) && Inv(run[i], hs[i]);
    SettledLost(run[i], acts[i], run[i + 1], m, p);
  }

  lemma LedgerAt(run: seq<Cluster>, hs: seq<History>, ls: seq<Ledger>, i: nat)
    requires LedgersOf(run, hs, ls) && i < |ls|
    ensures LedgerOk(run[i], hs[i], ls[i])
  {
  }

  lemma LostRowNever(c: Cluster, h: History, l: Ledger, m: NodeId, p: nat, row: Row,
                     d: Cluster, g: History, l2: Ledger, n: NodeId, k: nat)
    requires LedgerOk(c, h, l) && LedgerOk(d, g, l2) && OneContinues(l, l2)
    requires m in c.nodes && RowLost(row, c.nodes[m], p) && c.nodes[m].commitIndex >= row.index.value
    requires n in d.nodes && k < d.nodes[n].commitIndex
    ensures k < |d.nodes[n].log| && d.nodes[n].log[k].tag != row.id
  {
    RowsSlot(c, h, l, m, c.nodes[m].history[p]);
    NeverThere(c, h, l, m, row, d, g, l2, n, k);
  }

  /** Row p of a node, pending, is settled lost while the node's commit index covers its slot. */
  ghost predicate LosesRow(s: Node, r: Node, p: nat) {
    && p < |s.history| && p < |r.history|
    && s.history[p].isWrite && s.history[p].outcome == Pending && r.history[p].outcome == Lost
    && s.history[p].index.Some? && r.commitIndex >= s.history[p].index.value
  }

  /** The row, still at p, names a slot that holds another entry. */
  ghost predicate RowLost(row: Row, s: Node, p: nat) {
    && p < |s.history| && row.index.Some?
    && s.history[p].id == row.id && s.history[p].isWrite && s.history[p].index == row.index
    && (1 <= row.index.value <= |s.log| ==> s.log[row.index.value - 1].tag != row.id)
  }

  lemma SettledLost(c: Cluster, a: Action, c2: Cluster, m: NodeId, p: nat)
    requires Step(c, a, c2) && m in c.nodes && m in c2.nodes && c.nodes[Target(a)].id == Target(a)
    requires LosesRow(c.nodes[m], c2.nodes[m], p)
    ensures RowLost(c.nodes[m].history[p], c2.nodes[m], p)
  {
    if m == Target(a) {
      Turns(c.nodes[m], EventOf(a), c2.now);
    }
  }

  lemma RowsSlot(c: Cluster, h: History, l: Ledger, m: NodeId, row: Row)
    requires LedgerOk(c, h, l) && m in c.nodes && row in c.nodes[m].history && row.isWrite && row.index.Some?
    ensures row.id in l.invoked && l.invoked[row.id].index == row.index.value >= 1
  {
    assert RowOk(l, c.now, c.nodes[m], row);
  }

  /** A write sits at its one slot or nowhere, and that slot is decided otherwise. */
  lemma NeverThere(c: Cluster, h: History, l: Ledger, m: NodeId, row: Row, d: Cluster, g: History, l2: Ledger, n: NodeId, k: nat)
    requires LedgerOk(c, h, l) && LedgerOk(d, g, l2) && OneContinues(l, l2)
    requires row.index.Some? && row.id in l.invoked && l.invoked[row.id].index == row.index.value >= 1
    requires m in c.nodes && c.nodes[m].commitIndex >= row.index.value
    requires row.index.value <= |c.nodes[m].log| ==> c.nodes[m].log[row.index.value - 1].tag != row.id
    requires n in d.nodes && k < d.nodes[n].commitIndex
    ensures k < |d.nodes[n].log| && d.nodes[n].log[k].tag != row.id
  {
    var i := row.index.value - 1;
    assert c.nodes[m].log[i] == l.log[i] && d.nodes[n].log[k] == l2.log[k];
    assert Put(l, l.log[i], i) && Put(l2, l2.log[k], k);
    if Onward(l2, l) { assert l.log[k] == l2.log[k] && Put(l, l.log[k], k); }
  }

  /** Acknowledged writes follow real time: settled before another was invoked means decided before it. */
  lemma RealTimeOrder(run: seq<Cluster>, acts: seq<Action>, i: nat, m: NodeId, a: Row, n: NodeId, b: Row)
    requires IsRun(run, acts) && i < |run| && m in run[i].nodes && n in run[i].nodes
    requires a in run[i].nodes[m].history && a.isWrite && a.outcome == Ok
    requires b in run[i].nodes[n].history && b.isWrite && b.outcome == Ok
    requires a.respondedAt.Some? ==> a.respondedAt.value < b.invokedAt
    ensures a.index.Some? && b.index.Some? && a.index.value < b.index.value
  {
    var hs := Histories(run, acts);
    var ls := Ledgers(run, acts, hs, |run| - 1);
    assert LedgerOk(run[i], hs[i], ls[i]);
    assert RowOk(ls[i], run[i].now, run[i].nodes[m], a) && RowOk(ls[i], run[i].now, run[i].nodes[n], b);
  }
}
