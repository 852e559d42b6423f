/** Client rows: what "ok" promises, and that acknowledged writes follow real time. */
module RaftLedger {
  import opened RaftReducer
  import opened RaftHistory
  import opened RaftGrowth
  import opened RaftLocal
  import opened RaftReplication
  import opened RaftCluster

  /** When a write reached its leader, how many slots the cluster had decided by then, and the one slot and value
      its entry has wherever it is. */
  datatype Invocation = Invocation(at: int, decided: nat, index: nat, value: int)

  /** The slots decided anywhere so far, and every write ever appended. */
  datatype Ledger = Ledger(log: seq<Entry>, invoked: map<OpId, Invocation>)

  ghost predicate RowOk(l: Ledger, now: int, n: Node, row: Row) {
    && row.id.node == n.id && row.id.n <= n.historyN
    && row.invokedAt <= now
    && (row.outcome == Pending ==> row.respondedAt.None?)
    && (row.isWrite && row.index.Some? ==> row.id in l.invoked && Writes(row, l.invoked[row.id]))
    && (row.isWrite && row.outcome == Ok ==> OkRow(l, now, row))
  }

  ghost predicate Writes(row: Row, i: Invocation) {
    row.invokedAt == i.at && row.index == Some(i.index) && row.value == Some(i.value)
  }

  /** An ok write is decided at its slot, ahead of every write that reached a leader after it settled. */
  ghost predicate OkRow(l: Ledger, now: int, row: Row) {
    && row.index.Some? && 1 <= row.index.value <= |l.log| && l.log[row.index.value - 1].tag == row.id
    && row.respondedAt.Some? && row.respondedAt.value <= now
    && (forall b :: b in l.invoked && l.invoked[b].at > row.respondedAt.value ==> row.index.value <= l.invoked[b].decided)
  }

  /** Every entry was invoked by a client, and sits at the one slot, with the one value, of its write. */
  ghost predicate Tagged(l: Ledger, log: seq<Entry>) {
    forall i :: 0 <= i < |log| ==> Put(l, log[i], i)
  }

  ghost predicate Put(l: Ledger, e: Entry, i: nat) {
    e.tag in l.invoked && l.invoked[e.tag].index == i + 1 && l.invoked[e.tag].value == e.value
  }

  ghost predicate AllTagged(h: History, l: Ledger) {
    forall t :: t in h.reigns ==> Tagged(l, h.reigns[t].log)
  }

  /** Every node's committed prefix is part of the decided log. */
  ghost predicate OneLog(c: Cluster, l: Ledger) {
    forall n :: n in c.nodes ==> c.nodes[n].commitIndex <= |l.log| && Agree(c.nodes[n].log, l.log, c.nodes[n].commitIndex)
  }

  /** A slot is decided only after the write in it was invoked. */
  ghost predicate SlotsInOrder(l: Ledger) {
    forall i :: 0 <= i < |l.log| ==> Put(l, l.log[i], i) && l.invoked[l.log[i].tag].decided <= i
  }

  ghost predicate InvokedKnown(c: Cluster, l: Ledger) {
    forall b :: b in l.invoked ==>
      && l.invoked[b].decided <= |l.log| && l.invoked[b].at <= c.now && l.invoked[b].index >= 1
      && b.node in c.nodes && b.n <= c.nodes[b.node].historyN
  }

  ghost predicate RowsInOrder(c: Cluster, l: Ledger) {
    forall n, r :: n in c.nodes && r in c.nodes[n].history ==> RowOk(l, c.now, c.nodes[n], r)
  }

  ghost predicate LedgerOk(c: Cluster, h: History, l: Ledger) {
    && (exists top: nat :: CommittedPrefix(h, l.log, |l.log|, top))
    && OneLog(c, l)
    && AllTagged(h, l)
    && SlotsInOrder(l)
    && InvokedKnown(c, l)
    && RowsInOrder(c, l)
  }

  // ---------- what an event does to rows, log and commit index ----------

  ghost predicate ClientFires(ev: Event) {
    ev.Fire? && ev.timer.ClientTimer?
  }

  ghost predicate AppendsWrite(s: Node, ev: Event) {
    ClientFires(ev) && ev.timer.op.Write? && s.role == Leader
  }

  ghost function FreshId(s: Node): OpId {
    OpId(s.id, s.historyN + 1)
  }

  /** What the ledger notes of a write the event appends. */
  ghost function Invoked(s: Node, ev: Event, now: int, decided: nat): Invocation
    requires AppendsWrite(s, ev)
  {
    Invocation(now, decided, |s.log| + 1, ev.timer.op.value)
  }

  /** Old rows stay or are settled against the log and commit index the event leaves. */
  ghost predicate RowsFrom(s: Node, n: Node, now: int) {
    && |n.history| >= |s.history|
    && (forall i :: 0 <= i < |s.history| ==>
          n.history[i] == s.history[i] || n.history[i] == SettleRow(s.history[i], n.log, n.commitIndex, now))
  }

  /** A row an event adds: it carries the fresh id, and an index only when it is a leader's write. */
  ghost predicate NewRow(s: Node, ev: Event, n: Node, now: int, row: Row) {
    && row.id == FreshId(s) && row.id.n <= n.historyN && row.invokedAt == now
    && (row.index.Some? ==> AppendsWrite(s, ev) && Writes(row, Invoked(s, ev, now, 0)))
    && (row.isWrite ==> row.outcome != Ok)
    && (row.outcome == Pending ==> row.respondedAt.None?)
  }

  /** The entry at slot i was there, or there in the message, or is the node's own fresh write. */
  ghost predicate EntryFrom(s: Node, ev: Event, e: Entry, i: nat) {
    || (i < |s.log| && e == s.log[i])
    || (ev.Message? && ev.msg.Append? && Ships(ev.msg, e, i))
    || (AppendsWrite(s, ev) && i == |s.log| && e == Entry(s.term, ev.timer.op.value, FreshId(s)))
  }

  ghost predicate Ships(p: Msg, e: Entry, i: nat)
    requires p.Append?
  {
    p.prevIndex <= i < p.prevIndex + |p.entries| && e == p.entries[i - p.prevIndex]
  }

  /** What an event may do to a node's rows, running number and log. */
  ghost predicate Turned(s: Node, ev: Event, n: Node, now: int) {
    && n.id == s.id
    && s.historyN <= n.historyN
    && (AppendsWrite(s, ev) ==> n.historyN == s.historyN + 1)
    && RowsFrom(s, n, now)
    && (forall i :: |s.history| <= i < |n.history| ==> NewRow(s, ev, n, now, n.history[i]))
    && (forall i :: 0 <= i < |n.log| ==> EntryFrom(s, ev, n.log[i], i))
  }

  ghost predicate RowsTurn(s: Node, n: Node, now: int) {
    RowsFrom(s, n, now) && |n.history| == |s.history| && n.historyN == s.historyN && n.id == s.id
  }

  lemma AppendTurns(s: Node, p: Msg, from: NodeId, now: int)
    requires Valid(s) && p.Append?
    ensures RowsTurn(s, OnAppend(s, p, from, now).node, now)
  {
  }

  lemma RespTurns(s: Node, p: Msg, from: NodeId, now: int)
    requires p.AppendResp? && Valid(s) && Plausible(s, Message(from, p))
    ensures RowsTurn(s, OnAppendResp(s, p, from, now).node, now)
  {
  }

  lemma DeliverTurns(s: Node, p: Msg, from: NodeId, now: int)
    requires Valid(s) && Plausible(s, Message(from, p))
    ensures RowsTurn(s, OnMessage(s, p, from, now).node, now)
  {
    match p
    case ReqVote(_, _, _) =>
    case Vote(_, _) =>
    case Append(_, _, _, _, _) => AppendTurns(s, p, from, now);
    case AppendResp(_, _, _) => RespTurns(s, p, from, now);
  }

  lemma ClientTurns(s: Node, ev: Event, n: Node, now: int)
    requires Valid(s) && ClientFires(ev) && n == OnClient(s, ev.timer.op, now).node
    ensures n.id == s.id && n.historyN == s.historyN + 1 && RowsFrom(s, n, now) && |n.history| == |s.history| + 1
    ensures NewRow(s, ev, n, now, n.history[|s.history|])
  {
  }

  lemma Turns(s: Node, ev: Event, now: int)
    requires Valid(s) && Plausible(s, ev)
    ensures Turned(s, ev, Reduce(s, ev, now).node, now)
  {
    EntriesFrom(s, ev, now);
    if ClientFires(ev) {
      ClientTurns(s, ev, OnClient(s, ev.timer.op, now).node, now);
    } else if ev.Message? {
      DeliverTurns(if ev.msg.term > s.term then AdoptTerm(s, ev.msg.term).node else s, ev.msg, ev.from, now);
    }
  }

  /** Entries a node holds after an event were in its log, in the message, or are its own fresh write. */
  lemma EntriesFrom(s: Node, ev: Event, now: int)
    requires Valid(s) && Plausible(s, ev)
    ensures var log := Reduce(s, ev, now).node.log; forall i :: 0 <= i < |log| ==> EntryFrom(s, ev, log[i], i)
  {
    if ev.Message? && ev.msg.Append? {
      var p := ev.msg;
      if p.term > s.term {
        MergedEntries(AdoptTerm(s, p.term).node, p, ev.from, now);
      } else {
        MergedEntries(s, p, ev.from, now);
      }
    }
  }

  lemma MergedEntries(s: Node, p: Msg, from: NodeId, now: int)
    requires Valid(s) && p.Append?
    ensures var log := OnAppend(s, p, from, now).node.log;
      forall i :: 0 <= i < |log| ==> (i < |s.log| && log[i] == s.log[i]) || Ships(p, log[i], i)
  {
  }

  /** No event takes a commit index back. */
  lemma CommitRises(h: History, s: Node, ev: Event, now: int)
    requires HistoryOk(h) && NodeOk(h, s) && Valid(s) && Plausible(s, ev)
    requires ev.Message? ==> MsgOk(h, Packet(ev.from, s.id, ev.msg))
    ensures s.commitIndex <= Reduce(s, ev, now).node.commitIndex
  {
    if ev.Message? && ev.msg.Append? {
      var p := ev.msg;
      if p.term > s.term {
        AppendRises(AdoptTerm(s, p.term).node, p, ev.from, now);
      } else {
        AppendRises(s, p, ev.from, now);
      }
    }
  }

  lemma AppendRises(s: Node, p: Msg, from: NodeId, now: int)
    requires Valid(s) && p.Append? && p.leaderCommit <= p.prevIndex + |p.entries|
    ensures s.commitIndex <= OnAppend(s, p, from, now).node.commitIndex
  {
  }

  lemma CommitStep(c: Cluster, h: History, a: Action, c2: Cluster, n: NodeId)
    requires Inv(c, h) && Step(c, a, c2) && n in c.nodes
    ensures n in c2.nodes && c.nodes[n].commitIndex <= c2.nodes[n].commitIndex
  {
    var s := c.nodes[Target(a)];
    assert s.id == Target(a) && NodeOk(h, s);
    if a.Receive? { assert MsgOk(h, a.p); assert Packet(a.p.src, s.id, a.p.msg) == a.p; }
    CommitRises(h, s, EventOf(a), c2.now);
  }

  // ---------- the ledger follows the cluster ----------

  ghost function Decided(l: Ledger, n: Node): seq<Entry>
    requires n.commitIndex <= |n.log|
  {
    if n.commitIndex > |l.log| then n.log[..n.commitIndex] else l.log
  }

  ghost function Follow(l: Ledger, s: Node, ev: Event, n: Node, now: int): Ledger
    requires n.commitIndex <= |n.log|
  {
    Ledger(Decided(l, n),
           if AppendsWrite(s, ev) then l.invoked[FreshId(s) := Invoked(s, ev, now, |l.log|)] else l.invoked)
  }

  /** The decided log only grows, and every node's committed prefix is part of it. */
  lemma DecidedGrows(h: History, l: Ledger, top: nat, n: Node)
    requires HistoryOk(h) && NodeOk(h, n) && CommittedPrefix(h, l.log, |l.log|, top)
    ensures Agree(l.log, Decided(l, n), |l.log|)
    ensures n.commitIndex <= |Decided(l, n)| && Agree(n.log, Decided(l, n), n.commitIndex)
    ensures exists top2: nat :: CommittedPrefix(h, Decided(l, n), |Decided(l, n)|, top2)
  {
    PrefixesAgree(h, n.log, n.commitIndex, n.term, l.log, |l.log|, top);
    if n.commitIndex > |l.log| {
      PrefixOfSame(h, n.log, n.log[..n.commitIndex], n.commitIndex, n.term);
    }
  }

  /** Everything in the acting node's log has been invoked by some client, for that very slot. */
  lemma TagsKept(h: History, l: Ledger, s: Node, ev: Event, n: Node, now: int)
    requires NodeOk(h, s) && AllTagged(h, l) && Turned(s, ev, n, now)
    requires ev.Message? ==> MsgOk(h, Packet(ev.from, s.id, ev.msg))
    requires n.commitIndex <= |n.log| && FreshId(s) !in l.invoked
    ensures Tagged(Follow(l, s, ev, n, now), n.log)
  {
    var l2 := Follow(l, s, ev, n, now);
    forall i | 0 <= i < |n.log| ensures Put(l2, n.log[i], i) {
      var e := n.log[i];
      assert EntryFrom(s, ev, e, i);
      if i < |s.log| && e == s.log[i] {
        assert Tagged(l, h.reigns[e.term].log) && h.reigns[e.term].log[i] == e;
        assert Put(l, e, i);
      } else if ev.Message? && ev.msg.Append? && Ships(ev.msg, e, i) {
        assert Tagged(l, h.reigns[ev.msg.term].log) && h.reigns[ev.msg.term].log[i] == e;
        assert Put(l, e, i);
      }
    }
  }

  lemma TaggedStays(l: Ledger, l2: Ledger, log: seq<Entry>)
    requires Tagged(l, log) && forall b :: b in l.invoked ==> b in l2.invoked && l2.invoked[b] == l.invoked[b]
    ensures Tagged(l2, log)
  {
    forall i | 0 <= i < |log| ensures Put(l2, log[i], i) { assert Put(l, log[i], i); }
  }

  lemma ReignsTagged(h: History, h2: History, l: Ledger, l2: Ledger, log: seq<Entry>)
    requires AllTagged(h, l) && ReignsFrom(h, h2, log) && Tagged(l2, log)
    requires forall b :: b in l.invoked ==> b in l2.invoked && l2.invoked[b] == l.invoked[b]
    ensures AllTagged(h2, l2)
  {
    forall t | t in h2.reigns ensures Tagged(l2, h2.reigns[t].log) {
      if t in h.reigns && h2.reigns[t].log == h.reigns[t].log { TaggedStays(l, l2, h.reigns[t].log); }
    }
  }

  ghost predicate Grown(l: Ledger, l2: Ledger, now: int, now2: int) {
    && now <= now2 && Agree(l.log, l2.log, |l.log|)
    && (forall b :: b in l.invoked ==> b in l2.invoked && l2.invoked[b] == l.invoked[b] && l.invoked[b].at <= now)
    && (forall b :: b in l2.invoked && b !in l.invoked ==> l2.invoked[b].decided == |l.log| && l2.invoked[b].at == now2)
  }

  lemma FollowGrown(c: Cluster, l: Ledger, s: Node, ev: Event, n: Node, now2: int)
    requires s.id in c.nodes && c.nodes[s.id] == s && InvokedKnown(c, l) && c.now <= now2
    requires n.commitIndex <= |n.log| && Agree(l.log, Decided(l, n), |l.log|)
    ensures Grown(l, Follow(l, s, ev, n, now2), c.now, now2)
  {
  }

  /** A row the step did not add is in order under the ledger it leaves. */
  lemma RowKept(l: Ledger, l2: Ledger, now: int, now2: int, s: Node, n: Node, row: Row, settled: Row)
    requires RowOk(l, now, s, row) && Grown(l, l2, now, now2)
    requires n.id == s.id && s.historyN <= n.historyN
    requires n.commitIndex <= |l2.log| && Agree(n.log, l2.log, n.commitIndex)
    requires settled == row || settled == SettleRow(row, n.log, n.commitIndex, now2)
    ensures RowOk(l2, now2, n, settled)
  {
  }

  lemma SlotsKept(c: Cluster, l: Ledger, s: Node, ev: Event, n: Node, now: int)
    requires s.id in c.nodes && c.nodes[s.id] == s && SlotsInOrder(l) && InvokedKnown(c, l)
    requires n.commitIndex <= |n.log| && Tagged(Follow(l, s, ev, n, now), n.log)
    requires Agree(l.log, Decided(l, n), |l.log|)
    ensures SlotsInOrder(Follow(l, s, ev, n, now))
  {
    var l2 := Follow(l, s, ev, n, now);
    forall i | 0 <= i < |l2.log| ensures Put(l2, l2.log[i], i) && l2.invoked[l2.log[i].tag].decided <= i {
      if i < |l.log| { assert Put(l, l.log[i], i); } else { assert l2.log[i] == n.log[i] && Put(l2, n.log[i], i); }
    }
  }

  lemma RowsKept(c: Cluster, l: Ledger, s: Node, ev: Event, n: Node, c2: Cluster)
    requires s.id in c.nodes && c.nodes[s.id] == s && c2.nodes == c.nodes[s.id := n] && c.now <= c2.now
    requires forall m :: m in c.nodes ==> c.nodes[m].id == m
    requires Turned(s, ev, n, c2.now) && InvokedKnown(c, l) && RowsInOrder(c, l) && OneLog(c, l)
    requires n.commitIndex <= |n.log| && Agree(l.log, Decided(l, n), |l.log|)
    requires n.commitIndex <= |Decided(l, n)| && Agree(n.log, Decided(l, n), n.commitIndex)
    ensures RowsInOrder(c2, Follow(l, s, ev, n, c2.now))
  {
    var l2 := Follow(l, s, ev, n, c2.now);
    FollowGrown(c, l, s, ev, n, c2.now);
    forall m, r | m in c2.nodes && r in c2.nodes[m].history ensures RowOk(l2, c2.now, c2.nodes[m], r) {
      if m != s.id {
        assert c2.nodes[m] == c.nodes[m] && RowOk(l, c.now, c.nodes[m], r);
        RowKept(l, l2, c.now, c2.now, c.nodes[m], c.nodes[m], r, r);
      } else {
        var i :| 0 <= i < |n.history| && n.history[i] == r;
        if i < |s.history| {
          assert RowOk(l, c.now, s, s.history[i]);
          RowKept(l, l2, c.now, c2.now, s, n, s.history[i], r);
        } else {
          assert NewRow(s, ev, n, c2.now, r);
        }
      }
    }
  }

  lemma FreshIsNew(c: Cluster, l: Ledger, s: Node, ev: Event, n: Node, now: int)
    requires s.id in c.nodes && c.nodes[s.id] == s && InvokedKnown(c, l) && n.commitIndex <= |n.log|
    ensures FreshId(s) !in l.invoked
    ensures var l2 := Follow(l, s, ev, n, now); forall b :: b in l.invoked ==> b in l2.invoked && l2.invoked[b] == l.invoked[b]
  {
  }

  lemma FollowTags(c: Cluster, h: History, l: Ledger, s: Node, ev: Event, n: Node, now: int, h2: History, l2: Ledger)
    requires NodeOk(h, s) && ReignsFrom(h, h2, n.log) && AllTagged(h, l) && Turned(s, ev, n, now)
    requires s.id in c.nodes && c.nodes[s.id] == s && InvokedKnown(c, l) && n.commitIndex <= |n.log|
    requires ev.Message? ==> MsgOk(h, Packet(ev.from, s.id, ev.msg))
    requires l2 == Follow(l, s, ev, n, now)
    ensures Tagged(l2, n.log) && AllTagged(h2, l2)
  {
    FreshIsNew(c, l, s, ev, n, now);
    TagsKept(h, l, s, ev, n, now);
    ReignsTagged(h, h2, l, l2, n.log);
  }

  /** The ledger a step leaves, on what the step did to its node. */
  lemma FollowOk(c: Cluster, h: History, l: Ledger, s: Node, ev: Event, n: Node, c2: Cluster, h2: History)
    requires HistoryOk(h2) && NodeOk(h, s) && NodeOk(h2, n) && Extends(h, h2, s.id) && ReignsFrom(h, h2, n.log)
    requires s.id in c.nodes && c.nodes[s.id] == s && c2.nodes == c.nodes[s.id := n] && c.now <= c2.now
    requires forall m :: m in c.nodes ==> c.nodes[m].id == m
    requires ev.Message? ==> MsgOk(h, Packet(ev.from, s.id, ev.msg))
    requires Turned(s, ev, n, c2.now) && LedgerOk(c, h, l)
    ensures LedgerOk(c2, h2, Follow(l, s, ev, n, c2.now))
    ensures Agree(l.log, Decided(l, n), |l.log|)
  {
    var l2 := Follow(l, s, ev, n, c2.now);
    var top: nat :| CommittedPrefix(h, l.log, |l.log|, top);
    PrefixGrows(h, h2, s.id, l.log, |l.log|, top);
    DecidedGrows(h2, l, top, n);
    FollowTags(c, h, l, s, ev, n, c2.now, h2, l2);
    SlotsKept(c, l, s, ev, n, c2.now);
    RowsKept(c, l, s, ev, n, c2);
    OneLogKept(c, l, s, n, c2, l2);
    InvokedKept(c, l, s, ev, n, c2);
  }

  lemma InvokedKept(c: Cluster, l: Ledger, s: Node, ev: Event, n: Node, c2: Cluster)
    requires s.id in c.nodes && c.nodes[s.id] == s && c2.nodes == c.nodes[s.id := n] && c.now <= c2.now
    requires Turned(s, ev, n, c2.now) && InvokedKnown(c, l)
    requires n.commitIndex <= |n.log| && Agree(l.log, Decided(l, n), |l.log|)
    ensures InvokedKnown(c2, Follow(l, s, ev, n, c2.now))
  {
  }

  lemma OneLogKept(c: Cluster, l: Ledger, s: Node, n: Node, c2: Cluster, l2: Ledger)
    requires c2.nodes == c.nodes[s.id := n] && OneLog(c, l)
    requires Agree(l.log, l2.log, |l.log|)
    requires n.commitIndex <= |l2.log| && Agree(n.log, l2.log, n.commitIndex)
    ensures OneLog(c2, l2)
  {
  }

  /** A later ledger decides more slots and knows more writes. */
  ghost predicate Onward(l: Ledger, l2: Ledger) {
    Agree(l.log, l2.log, |l.log|) && forall b :: b in l.invoked ==> b in l2.invoked && l2.invoked[b] == l.invoked[b]
  }

  lemma StepLedger(c: Cluster, h: History, l: Ledger, a: Action, c2: Cluster, h2: History) returns (l2: Ledger)
    requires Inv(c, h) && LedgerOk(c, h, l) && Linked(c, h, a, c2, h2)
    ensures LedgerOk(c2, h2, l2) && Onward(l, l2)
  {
    var s := c.nodes[Target(a)];
    var n := Reduce(s, EventOf(a), c2.now).node;
    assert s.id == Target(a);
    Turns(s, EventOf(a), c2.now);
    if a.Receive? { assert MsgOk(h, a.p); assert Packet(a.p.src, s.id, a.p.msg) == a.p; }
    FollowOk(c, h, l, s, EventOf(a), n, c2, h2);
    FreshIsNew(c, l, s, EventOf(a), n, c2.now);
    l2 := Follow(l, s, EventOf(a), n, c2.now);
  }

  ghost predicate LedgersOf(run: seq<Cluster>, hs: seq<History>, ls: seq<Ledger>) {
    && |ls| <= |run| == |hs|
    && (forall i {:trigger LedgerOk(run[i], hs[i], ls[i])} :: 0 <= i < |ls| ==> LedgerOk(run[i], hs[i], ls[i]))
    && (forall i, j {:trigger Onward(ls[i], ls[j])} :: 0 <= i <= j < |ls| ==> Onward(ls[i], ls[j]))
  }

  /** Every run has a ledger for each of its states, each continuing the ones before. */
  lemma {:induction false} Ledgers(run: seq<Cluster>, acts: seq<Action>, hs: seq<History>, k: nat) returns (ls: seq<Ledger>)
    requires IsRun(run, acts) && HistoriesOf(run, acts, hs) && k < |hs| == |run|
    ensures LedgersOf(run, hs, ls) && |ls| == k + 1
  {
    if k == 0 {
      FirstLedger(run[0], hs[0]);
      ls := [Ledger([], map[])];
    } else {
      var front := Ledgers(run, acts, hs, k - 1);
      ls := OneMoreLedger(run, acts, hs, front);
    }
  }

  lemma NextLedger(run: seq<Cluster>, acts: seq<Action>, hs: seq<History>, k: nat, l: Ledger) returns (l2: Ledger)
    requires HistoriesOf(run, acts, hs) && k + 1 < |hs| && LedgerOk(run[k], hs[k], l)
    ensures LedgerOk(run[k + 1], hs[k + 1], l2) && Onward(l, l2)
  {
    assert LinkedAt(run, acts, hs, k) && Inv(run[k], hs[k]);
    l2 := StepLedger(run[k], hs[k], l, acts[k], run[k + 1], hs[k + 1]);
  }

  lemma OneMoreLedger(run: seq<Cluster>, acts: seq<Action>, hs: seq<History>, front: seq<Ledger>) returns (ls: seq<Ledger>)
    requires HistoriesOf(run, acts, hs) && LedgersOf(run, hs, front) && 0 < |front| < |run| == |hs|
    ensures LedgersOf(run, hs, ls) && |ls| == |front| + 1
  {
    var k := |front| - 1;
    assert LedgerOk(run[k], hs[k], front[k]);
    var l2 := NextLedger(run, acts, hs, k, front[k]);
    AppendLedger(run, hs, front, l2);
    ls := front + [l2];
  }

  lemma AppendLedger(run: seq<Cluster>, hs: seq<History>, front: seq<Ledger>, l2: Ledger)
    requires LedgersOf(run, hs, front) && 0 < |front| < |run|
    requires LedgerOk(run[|front|], hs[|front|], l2)
    requires Onward(front[|front| - 1], l2)
    ensures LedgersOf(run, hs, front + [l2])
  {
    var ls, n := front + [l2], |front|;
    forall i | 0 <= i < |ls| ensures LedgerOk(run[i], hs[i], ls[i]) {
      if i < n { assert LedgerOk(run[i], hs[i], front[i]); }
    }
    forall i, j | 0 <= i <= j < |ls| ensures Onward(ls[i], ls[j]) {
      if i < n { assert Onward(front[i], front[if j < n then j else n - 1]); }
    }
  }

  lemma FirstLedger(c: Cluster, h: History)
    requires Initial(c) && h == NoHistory()
    ensures LedgerOk(c, h, Ledger([], map[]))
  {
    assert CommittedPrefix(h, [], 0, 0);
    forall n | n in c.nodes ensures c.nodes[n] == InitNode(n) {}
  }
}
